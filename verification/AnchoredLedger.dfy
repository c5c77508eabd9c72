/** The log beside its anchor: commits, advances that may land late and out of order, and resets
    (levain/authority.py, `append`, `check_anchor`, `advance_anchor`, `reset_anchor`). */
module AnchoredLedger {
  import opened Wrappers
  import opened AuthorityModel
  import opened AuthorityStep
  import opened AuthorityReplay
  import opened ChainPins
  import opened AppendRules
  import opened KeyLife

  // ----- what an anchor says of a log

  lemma {:induction false} StoreConstant(rows: seq<Row>, k: nat)
    requires Accepted(rows) && 1 <= k <= |rows|
    ensures At(rows, k).storeId == RecordAt(rows, 0).storeId
    decreases k
  {
    hide Replay, Step, Judge;
    LinkFacts(rows, k - 1);
    if k > 1 {
      StoreConstant(rows, k - 1);
    }
  }

  lemma {:induction false} SameTextsSameHashes(a: seq<Row>, b: seq<Row>, k: nat)
    requires Accepted(a) && Accepted(b) && 1 <= k <= |a| && k <= |b|
    requires forall i :: 0 <= i < k ==> a[i].text == b[i].text
    ensures a[k - 1].hash == b[k - 1].hash
    decreases k
  {
    hide Replay, Step, Judge;
    ChainAt(a, k - 1);
    ChainAt(b, k - 1);
    if k > 1 {
      SameTextsSameHashes(a, b, k - 1);
    }
  }

  /** The anchor of an accepted log at its link `k`. */
  function AnchorOf(rows: seq<Row>, k: nat): Anchor
    requires Accepted(rows) && 1 <= k <= |rows|
  {
    Anchor(At(rows, k).storeId, k, rows[k - 1].hash)
  }

  /** The anchor taken of log `a` at `k` accepts a replayed log exactly when that log agrees with `a` record for record
      up to `k`; the states there are then the same, the signers aside. */
  lemma CheckAnchorMeans(a: seq<Row>, k: nat, b: seq<Row>)
    requires Accepted(a) && 1 <= k <= |a| && Accepted(b) && b != []
    ensures CheckAnchor(At(b, |b|), Some(AnchorOf(a, k))).Ok? <==>
            |b| >= k && forall i :: 0 <= i < k ==> b[i].text == a[i].text
    ensures CheckAnchor(At(b, |b|), Some(AnchorOf(a, k))).Ok? ==>
              At(b, k) == At(a, k).(signers := At(b, k).signers)
  {
    hide Replay, Step, Judge;
    StateShape(b, |b|);
    StateShape(a, k);
    StoreConstant(a, k);
    StoreConstant(b, |b|);
    LinkFacts(a, 0);
    LinkFacts(b, 0);
    if CheckAnchor(At(b, |b|), Some(AnchorOf(a, k))).Ok? {
      assert At(b, |b|).hashes[k - 1] == b[k - 1].hash;
      HashPinsRecords(a, b, k);
      HashPinsState(a, b, k);
    }
    if |b| >= k && forall i :: 0 <= i < k ==> b[i].text == a[i].text {
      SameTextsSameHashes(a, b, k);
      assert At(b, |b|).hashes[k - 1] == b[k - 1].hash;
      assert RecordAt(a, 0) == RecordAt(b, 0);
    }
  }

  // ----- the moves

  /** The anchor after an advance to `s`: checked and moved up, or left where a later advance put it. */
  function Advanced(s: Snapshot, anchor: Option<Anchor>): Result<Anchor, Error> {
    if anchor.Some? && anchor.value.storeId == s.storeId && anchor.value.seqNo > s.seqNo then Ok(anchor.value)
    else
      var _ :- CheckAnchor(s, anchor);
      Ok(Anchor(s.storeId, s.seqNo, s.headHash))
  }

  /** What an operator signs to move an anchor. */
  datatype ResetSignature =
    ResetSignature(signedBy: PublicKey, storeId: Name, replaced: Option<Anchor>, seqNo: nat, headHash: Hash)

  /** The anchor after a reset to `s`: the same store, and a laptop-presence key the log holds unrevoked and
      unquarantined signed exactly this move. */
  function Reset(s: Snapshot, anchor: Option<Anchor>, signer: Fingerprint, sig: ResetSignature): Result<Anchor, Error> {
    if anchor.Some? && anchor.value.storeId != s.storeId then Err(ForeignAnchor)
    else if signer !in s.core.keys || !s.core.keys[signer].Active() then Err(ResetRefused)
    else if !s.core.keys[signer].keyClass.LaptopPresence? || CustodyMismatch(s.core.keys[signer]) then Err(ResetRefused)
    else if sig != ResetSignature(s.core.keys[signer].publicKey, s.storeId, anchor, s.seqNo, s.headHash)
    then Err(ResetRefused)
    else Ok(Anchor(s.storeId, s.seqNo, s.headHash))
  }

  /** A log and the anchor file beside it. */
  datatype Store = Store(rows: seq<Row>, anchor: Option<Anchor>)

  /** The anchor never leads the log: it names a link the log holds. */
  ghost predicate Behind(st: Store) {
    && Accepted(st.rows)
    && (st.anchor.Some? ==>
          && 1 <= st.anchor.value.seqNo <= |st.rows|
          && st.anchor.value == AnchorOf(st.rows, st.anchor.value.seqNo))
  }

  /** What befalls a store. An advance is owed by a commit at seq `to` of the log `of`, as that log then was, and may land
      late, out of order, or after that log has been replaced; `Restore` puts any accepted log in place. */
  datatype Move =
    | Commit(link: UnsignedLink, signature: Signature, now: int)
    | Advance(of: seq<Row>, to: nat)
    | ResetTo(signer: Fingerprint, sig: ResetSignature)
    | Restore(rows: seq<Row>)

  predicate Owed(m: Move) {
    m.Advance? && Accepted(m.of) && 1 <= m.to <= |m.of|
  }

  function AfterMove(st: Store, m: Move): Store
    requires Accepted(st.rows)
  {
    match m
    case Commit(link, signature, now) =>
      var r := Appended(st.rows, link, signature, now, st.anchor);
      if r.Ok? then st.(rows := r.value) else st
    case Advance(of, to) =>
      if Owed(m) && Advanced(At(of, to), st.anchor).Ok?
      then st.(anchor := Some(Advanced(At(of, to), st.anchor).value)) else st
    case ResetTo(signer, sig) =>
      if ResetLands(st, m) then st.(anchor := Some(Reset(At(st.rows, |st.rows|), st.anchor, signer, sig).value)) else st
    case Restore(rows) => if Accepted(rows) then st.(rows := rows) else st
  }

  predicate ResetLands(st: Store, m: Move)
    requires Accepted(st.rows)
  {
    m.ResetTo? && st.rows != [] && Reset(At(st.rows, |st.rows|), st.anchor, m.signer, m.sig).Ok?
  }

  /** The advance is of a state of the store's own log. */
  predicate OwnAdvance(st: Store, m: Move) {
    Owed(m) && m.of[..m.to] <= st.rows
  }

  /** The log only grows, by at most one link a move, and what it held replays as it did. */
  lemma GrownLogKeepsStates(a: seq<Row>, b: seq<Row>, k: nat)
    requires Accepted(a) && Accepted(b) && 1 <= k <= |a| && a[..k] <= b
    ensures At(b, k) == At(a, k) && AnchorOf(b, k) == AnchorOf(a, k)
  {
    assert a[..k] == b[..k];
  }

  /** The anchor is behind the log exactly when the append's check of it passes. */
  lemma BehindIffAllowed(st: Store)
    requires Accepted(st.rows)
    ensures Behind(st) <==> AnchorAllows(Replay(st.rows).value, st.anchor).Ok?
  {
    hide Step;
    if st.rows != [] {
      StateShape(st.rows, |st.rows|);
      assert st.rows[..|st.rows|] == st.rows;
      if st.anchor.Some? && 1 <= st.anchor.value.seqNo <= |st.rows| {
        StoreConstant(st.rows, |st.rows|);
        StoreConstant(st.rows, st.anchor.value.seqNo);
      }
    }
  }

  /** Whatever the log is, and whatever log an advance is of: a move that is no reset never lowers the anchor nor drops it,
      no move at all makes it another store's, and an advance the check lets run takes it to its link or finds it past. */
  lemma OnlyResetsLower(st: Store, m: Move)
    requires Accepted(st.rows)
    ensures Accepted(AfterMove(st, m).rows)
    ensures st.anchor.Some? ==>
              && AfterMove(st, m).anchor.Some? && AfterMove(st, m).anchor.value.storeId == st.anchor.value.storeId
              && (!m.ResetTo? ==> AfterMove(st, m).anchor.value.seqNo >= st.anchor.value.seqNo)
    ensures Owed(m) && Advanced(At(m.of, m.to), st.anchor).Ok? ==>
              AfterMove(st, m).anchor.Some? && AfterMove(st, m).anchor.value.seqNo >= m.to
  {
    hide Replay, Step, Appended, Judge;
    match m
    case Commit(link, signature, now) =>
      if Appended(st.rows, link, signature, now, st.anchor).Ok? {
        AppendedReplays(st.rows, link, signature, now, st.anchor);
      }
    case Advance(of, to) =>
      if Owed(m) {
        StateShape(of, to);
      }
    case ResetTo(signer, sig) =>
    case Restore(rows) =>
  }

  lemma AdvanceStaysInLog(st: Store, of: seq<Row>, to: nat)
    requires Behind(st) && OwnAdvance(st, Advance(of, to))
    ensures Advanced(At(of, to), st.anchor).Ok?
    ensures var up := Advanced(At(of, to), st.anchor).value;
            up == (if st.anchor.Some? && st.anchor.value.seqNo > to then st.anchor.value else AnchorOf(st.rows, to))
  {
    hide Replay, Step;
    GrownLogKeepsStates(of, st.rows, to);
    StateShape(st.rows, to);
    StoreConstant(st.rows, to);
    if st.anchor.Some? {
      StoreConstant(st.rows, st.anchor.value.seqNo);
      StateShape(st.rows, st.anchor.value.seqNo);
    }
  }

  /** While no log is put in the place of the store's, and advances are of its own states: every move keeps the anchor
      behind the log and the log growing, and such an advance never fails. */
  lemma MoveKeepsBehind(st: Store, m: Move)
    requires Behind(st) && !m.Restore? && (m.Advance? ==> OwnAdvance(st, m))
    ensures Behind(AfterMove(st, m)) && st.rows <= AfterMove(st, m).rows
    ensures m.Advance? ==> Advanced(At(m.of, m.to), st.anchor).Ok?
  {
    hide Replay, Step, Appended, Judge, Reset, Advanced;
    match m
    case Commit(link, signature, now) =>
      if Appended(st.rows, link, signature, now, st.anchor).Ok? {
        AppendedReplays(st.rows, link, signature, now, st.anchor);
        if st.anchor.Some? {
          GrownLogKeepsStates(st.rows, AfterMove(st, m).rows, st.anchor.value.seqNo);
        }
      }
    case Advance(of, to) =>
      AdvanceStaysInLog(st, of, to);
    case ResetTo(signer, sig) =>
      if st.rows != [] {
        ResetToHead(st, signer, sig);
      }
  }

  lemma ResetToHead(st: Store, signer: Fingerprint, sig: ResetSignature)
    requires Accepted(st.rows) && st.rows != []
    ensures var r := Reset(At(st.rows, |st.rows|), st.anchor, signer, sig);
            r.Ok? ==> r.value == AnchorOf(st.rows, |st.rows|)
  {
    hide Replay, Step;
    StateShape(st.rows, |st.rows|);
  }

  /** A reset that lands brings the anchor to the head of the log at hand, from wherever it was. */
  lemma ResetBringsBehind(st: Store, m: Move)
    requires Accepted(st.rows) && ResetLands(st, m)
    ensures Behind(AfterMove(st, m)) && AfterMove(st, m).anchor == Some(AnchorOf(st.rows, |st.rows|))
    ensures AfterMove(st, m).rows == st.rows
  {
    ResetToHead(st, m.signer, m.sig);
    hide Replay, Step, Reset;
  }

  /** A reset of `anchor` to the head of `rows` is in order: the anchor, if any, is of this store, and a laptop-presence key
      the log holds unrevoked, its custody the one its material shows, signed the store, the anchor replaced, and the head. */
  ghost predicate ResetInOrder(rows: seq<Row>, anchor: Option<Anchor>, signer: Fingerprint, sig: ResetSignature)
    requires Accepted(rows) && rows != []
  {
    var keys, storeId := At(rows, |rows|).core.keys, RecordAt(rows, 0).storeId;
    && (anchor.Some? ==> anchor.value.storeId == storeId)
    && signer in keys && keys[signer].revokedSeq.None? && keys[signer].keyClass == LaptopPresence
    && (keys[signer].custody == Passkey <==> WebAuthn(keys[signer].publicKey))
    && sig.signedBy == keys[signer].publicKey && sig.storeId == storeId && sig.replaced == anchor
    && sig.seqNo == |rows| && sig.headHash == rows[|rows| - 1].hash
  }

  lemma ResetVerified(rows: seq<Row>, anchor: Option<Anchor>, signer: Fingerprint, sig: ResetSignature)
    requires Accepted(rows) && rows != []
    ensures Reset(At(rows, |rows|), anchor, signer, sig).Ok? <==> ResetInOrder(rows, anchor, signer, sig)
  {
    hide Replay, Step, Judge, Accepted;
    StateShape(rows, |rows|);
    StoreConstant(rows, |rows|);
  }

  /** A reset in order puts the anchor at the log's head; any other leaves the store as it was. */
  lemma ResetExact(st: Store, m: Move)
    requires Accepted(st.rows) && m.ResetTo?
    ensures if st.rows != [] && ResetInOrder(st.rows, st.anchor, m.signer, m.sig)
            then AfterMove(st, m) == st.(anchor := Some(AnchorOf(st.rows, |st.rows|)))
            else AfterMove(st, m) == st
  {
    hide Replay, Step, Judge, Accepted, Reset, ResetInOrder;
    if st.rows != [] {
      ResetVerified(st.rows, st.anchor, m.signer, m.sig);
      ResetToHead(st, m.signer, m.sig);
    }
  }

  /** Under an anchor the log does not hold (it was cut below it, or replaced), a move that is neither a restore nor a reset
      leaves the log as it was and the anchor still ahead: every commit is refused, and an advance, of whatever log, never
      makes them agree. */
  lemma RefusedStaysRefused(st: Store, m: Move)
    requires Accepted(st.rows) && !Behind(st) && !m.Restore? && !m.ResetTo?
    ensures Accepted(AfterMove(st, m).rows) && AfterMove(st, m).rows == st.rows && !Behind(AfterMove(st, m))
    ensures m.Commit? ==> AfterMove(st, m) == st
  {
    if m.Commit? {
      BehindIffAllowed(st);
      hide Step, LocalChecks, Replay, Behind;
    } else if Owed(m) && Behind(AfterMove(st, m)) {
      AdvanceAgrees(st, m.of, m.to);
    }
  }

  /** If after an advance the log holds the anchor, it held it before. */
  lemma AdvanceAgrees(st: Store, of: seq<Row>, to: nat)
    requires Accepted(st.rows) && Owed(Advance(of, to)) && Behind(AfterMove(st, Advance(of, to)))
    ensures Behind(st)
  {
    hide Replay, Step, Judge;
    if st.anchor.Some? && Advanced(At(of, to), st.anchor).Ok? && Advanced(At(of, to), st.anchor).value != st.anchor.value {
      var k := st.anchor.value.seqNo;
      StateShape(of, to);
      HashPinsRecords(of, st.rows, to);
      StoreConstant(st.rows, to);
      StoreConstant(st.rows, k);
    }
  }

  /** An advance the check lets run, of whatever log, leaves the anchor behind exactly when it leaves it where it was, or
      the log holds, record for record, what the advance's own log held up to it: one owed to a log since cut does not. */
  lemma AdvanceExact(st: Store, of: seq<Row>, to: nat)
    requires Behind(st) && Owed(Advance(of, to)) && Advanced(At(of, to), st.anchor).Ok?
    ensures Behind(AfterMove(st, Advance(of, to))) <==>
              || AfterMove(st, Advance(of, to)) == st
              || (to <= |st.rows| && forall i :: 0 <= i < to ==> st.rows[i].text == of[i].text)
  {
    hide Replay, Step, Judge;
    StateShape(of, to);
    var after := AfterMove(st, Advance(of, to));
    if after != st {
      assert after.anchor == Some(AnchorOf(of, to));
      BehindIffAllowed(after);
      if st.rows != [] {
        CheckAnchorMeans(of, to, st.rows);
        StateShape(st.rows, |st.rows|);
        assert st.rows[..|st.rows|] == st.rows;
      }
      hide CheckAnchor, Behind;
    }
  }

  /** A log cut to its first `k` links, its anchor reset there: an advance the whole log still owes, past the cut, lands and
      leads it. */
  lemma LateAdvanceLeads(of: seq<Row>, k: nat, to: nat)
    requires Accepted(of) && 1 <= k < to <= |of|
    ensures Accepted(of[..k])
    ensures var st := Store(of[..k], Some(AnchorOf(of[..k], k)));
            Behind(st) && AfterMove(st, Advance(of, to)).anchor == Some(AnchorOf(of, to))
            && !Behind(AfterMove(st, Advance(of, to)))
  {
    hide Replay, Step;
    PrefixAccepted(of, k);
    assert of[..k][..k] == of[..k];
    GrownLogKeepsStates(of[..k], of, k);
    StateShape(of, to);
    StoreConstant(of, to);
    StoreConstant(of, k);
  }

  // ----- whole runs

  function AfterMoves(st: Store, moves: seq<Move>): (r: Store)
    requires Accepted(st.rows)
    ensures Accepted(r.rows)
  {
    if moves == [] then st
    else
      var before := AfterMoves(st, moves[..|moves| - 1]);
      OnlyResetsLower(before, moves[|moves| - 1]);
      AfterMove(before, moves[|moves| - 1])
  }

  /** The move at `i` is an advance the check let run. */
  predicate AdvanceRan(st: Store, moves: seq<Move>, i: nat)
    requires Accepted(st.rows) && i < |moves|
  {
    Owed(moves[i]) && Advanced(At(moves[i].of, moves[i].to), AfterMoves(st, moves[..i]).anchor).Ok?
  }

  predicate NoReset(moves: seq<Move>, i: nat) {
    forall k :: i <= k < |moves| ==> !moves[k].ResetTo?
  }

  /** Over any interleaving of commits, late and out-of-order advances, resets and logs put in place of another: from any
      point with no reset after it the anchor never moves down, and it ends at or past every advance that ran since. */
  lemma {:induction false} AnchorOverRuns(st: Store, moves: seq<Move>, i: nat)
    requires Accepted(st.rows) && i <= |moves| && NoReset(moves, i)
    ensures AfterMoves(st, moves[..i]).anchor.Some? ==>
              && AfterMoves(st, moves).anchor.Some?
              && AfterMoves(st, moves).anchor.value.seqNo >= AfterMoves(st, moves[..i]).anchor.value.seqNo
    ensures forall k :: i <= k < |moves| && AdvanceRan(st, moves, k) ==>
              AfterMoves(st, moves).anchor.Some? && AfterMoves(st, moves).anchor.value.seqNo >= moves[k].to
    decreases |moves|
  {
    hide Replay, Step, AfterMove, Accepted, Advanced;
    if i == |moves| {
      assert moves[..i] == moves;
    } else {
      var n := |moves| - 1;
      assert moves[..n][..i] == moves[..i];
      AnchorOverRuns(st, moves[..n], i);
      OnlyResetsLower(AfterMoves(st, moves[..n]), moves[n]);
      forall k | i <= k < |moves| && AdvanceRan(st, moves, k)
        ensures AfterMoves(st, moves).anchor.Some? && AfterMoves(st, moves).anchor.value.seqNo >= moves[k].to
      {
        if k < n {
          assert moves[..n][..k] == moves[..k] && moves[..n][k] == moves[k];
          assert AdvanceRan(st, moves[..n], k);
        }
      }
    }
  }

  /** The move at `i` is a reset in order of the anchor and the log it finds. */
  ghost predicate ResetAt(st: Store, moves: seq<Move>, i: nat)
    requires Accepted(st.rows) && i < |moves|
  {
    var before, m := AfterMoves(st, moves[..i]), moves[i];
    m.ResetTo? && before.rows != [] && ResetInOrder(before.rows, before.anchor, m.signer, m.sig)
  }

  /** An anchor lower at the end of a run than at some point of it was lowered by a reset in order of the anchor it found. */
  lemma {:induction false} LoweredByReset(st: Store, moves: seq<Move>, i: nat)
    requires Accepted(st.rows) && i < |moves| && AfterMoves(st, moves[..i]).anchor.Some?
    requires AfterMoves(st, moves).anchor.Some? ==>
               AfterMoves(st, moves).anchor.value.seqNo < AfterMoves(st, moves[..i]).anchor.value.seqNo
    ensures exists j: nat :: i <= j < |moves| && ResetAt(st, moves, j)
    decreases |moves|
  {
    hide Replay, Step, AfterMove, Accepted, ResetInOrder, ResetAt;
    var n := |moves| - 1;
    assert moves[..n][..i] == moves[..i];
    var before := AfterMoves(st, moves[..n]);
    OnlyResetsLower(before, moves[n]);
    if before.anchor.Some? && before.anchor.value.seqNo >= AfterMoves(st, moves[..i]).anchor.value.seqNo {
      LowerIsReset(before, moves[n]);
      ResetAtMeans(st, moves, n);
    } else {
      LoweredByReset(st, moves[..n], i);
      var j: nat :| i <= j < n && ResetAt(st, moves[..n], j);
      assert moves[..n][..j] == moves[..j] && moves[..n][j] == moves[j];
      ResetAtMeans(st, moves[..n], j);
      ResetAtMeans(st, moves, j);
    }
  }

  lemma ResetAtMeans(st: Store, moves: seq<Move>, i: nat)
    requires Accepted(st.rows) && i < |moves|
    ensures ResetAt(st, moves, i) <==>
              var before, m := AfterMoves(st, moves[..i]), moves[i];
              m.ResetTo? && before.rows != [] && ResetInOrder(before.rows, before.anchor, m.signer, m.sig)
  {
  }

  /** A single move that lowers or drops the anchor is a reset in order. */
  lemma LowerIsReset(st: Store, m: Move)
    requires Accepted(st.rows) && st.anchor.Some?
    requires AfterMove(st, m).anchor.Some? ==> AfterMove(st, m).anchor.value.seqNo < st.anchor.value.seqNo
    ensures m.ResetTo? && st.rows != [] && ResetInOrder(st.rows, st.anchor, m.signer, m.sig)
  {
    hide Replay, Step, AfterMove, ResetInOrder;
    OnlyResetsLower(st, m);
    ResetExact(st, m);
  }

  /** No move puts another log in place, and every advance is of a state the log held by then. */
  predicate KeepsLog(st: Store, moves: seq<Move>)
    requires Accepted(st.rows)
  {
    forall i :: 0 <= i < |moves| ==> KeepsLogAt(st, moves, i)
  }

  predicate KeepsLogAt(st: Store, moves: seq<Move>, i: nat)
    requires Accepted(st.rows) && i < |moves|
  {
    !moves[i].Restore? && (moves[i].Advance? ==> OwnAdvance(AfterMoves(st, moves[..i]), moves[i]))
  }

  /** Until a log is put in place of another, over any interleaving of commits, late and out-of-order advances and resets,
      the anchor never leads the log and the log only grows. */
  lemma {:induction false} BehindOverRuns(st: Store, moves: seq<Move>)
    requires Behind(st) && KeepsLog(st, moves)
    ensures Behind(AfterMoves(st, moves)) && st.rows <= AfterMoves(st, moves).rows
    decreases |moves|
  {
    hide Replay, Step, AfterMove, Accepted, AnchorOf, OwnAdvance;
    if moves != [] {
      var n := |moves| - 1;
      forall i | 0 <= i < n ensures KeepsLogAt(st, moves[..n], i) {
        assert KeepsLogAt(st, moves, i);
        assert moves[..n][..i] == moves[..i];
      }
      BehindOverRuns(st, moves[..n]);
      assert KeepsLogAt(st, moves, n);
      MoveKeepsBehind(AfterMoves(st, moves[..n]), moves[n]);
    }
  }

  /** A log put in place that the anchor refuses takes no link, whatever runs, until another log or a reset takes its place;
      the reset that lands brings the anchor behind it again. */
  lemma {:induction false} RefusedOverRuns(st: Store, moves: seq<Move>)
    requires Accepted(st.rows) && !Behind(st)
    requires forall i :: 0 <= i < |moves| ==> !moves[i].Restore? && !moves[i].ResetTo?
    ensures AfterMoves(st, moves).rows == st.rows && !Behind(AfterMoves(st, moves))
    ensures forall m :: ResetLands(AfterMoves(st, moves), m) ==> Behind(AfterMove(AfterMoves(st, moves), m))
    decreases |moves|
  {
    hide Replay, Step, AfterMove, Accepted, Behind, ResetLands;
    if moves != [] {
      var n := |moves| - 1;
      RefusedOverRuns(st, moves[..n]);
      RefusedStaysRefused(AfterMoves(st, moves[..n]), moves[n]);
    }
    forall m | ResetLands(AfterMoves(st, moves), m) ensures Behind(AfterMove(AfterMoves(st, moves), m)) {
      ResetBringsBehind(AfterMoves(st, moves), m);
    }
  }

  // ----- the program's form: the log table and the anchor file, updated in place

  class Ledger {
    var rows: seq<Row>
    var anchor: Option<Anchor>

    ghost function State(): Store
      reads this
    {
      Store(rows, anchor)
    }

    constructor ()
      ensures State() == Store([], None) && Behind(State())
    {
      rows, anchor := [], None;
    }

    /** The append's transaction: commit the link, or change nothing. */
    method Commit(link: UnsignedLink, signature: Signature, now: int) returns (r: Result<Snapshot, Error>)
      modifies this`rows
      ensures r.Ok? <==> Appended(old(rows), link, signature, now, anchor).Ok?
      ensures r.Err? ==> r.error == Appended(old(rows), link, signature, now, anchor).error && rows == old(rows)
      ensures r.Ok? ==> rows == old(rows) + [SignedRow(link, signature)] && Accepted(rows) && r.value == At(rows, |rows|)
      ensures Accepted(old(rows)) ==> State() == AfterMove(old(State()), Move.Commit(link, signature, now))
      ensures r.Ok? ==> Behind(old(State())) && Behind(State())
    {
      hide Step, LocalChecks, AnchorAllows, Judge;
      if Accepted(rows) {
        BehindIffAllowed(State());
        if Behind(State()) {
          MoveKeepsBehind(State(), Move.Commit(link, signature, now));
        }
      }
      var state := Replay(rows);
      if state.Err? { return Err(state.error); }
      var allowed := AnchorAllows(state.value, anchor);
      if allowed.Err? { return Err(allowed.error); }
      if link.seqNo != NextSeq(state.value) || link.prevHash != HeadHash(state.value) { return Err(StaleHead); }
      var row := SignedRow(link, signature);
      r := Step(state.value, row, true, true);
      if r.Err? { return; }
      NewStepFacts(state.value, row);
      var local := LocalChecks(state.value, row.text.rec.op, now);
      if local.Err? { return Err(local.error); }
      AppendedReplays(rows, link, signature, now, anchor);
      rows := rows + [row];
    }

    /** Check the anchor against a committed state and move it up; a later advance is left where it put it. On a log the
        anchor is behind, an advance to one of the log's own states never fails and never moves the anchor down. */
    method AdvanceAnchor(s: Snapshot, ghost of: seq<Row>) returns (r: Result<Anchor, Error>)
      requires Owed(Advance(of, s.seqNo)) && s == At(of, s.seqNo)
      modifies this`anchor
      ensures r == Advanced(s, old(anchor))
      ensures Accepted(rows) ==> State() == AfterMove(old(State()), Advance(of, s.seqNo))
      ensures anchor == if r.Ok? then Some(r.value) else old(anchor)
      ensures Behind(old(State())) && of[..s.seqNo] <= rows ==>
                && r.Ok? && Behind(State()) && s.seqNo <= r.value.seqNo
                && (old(anchor).Some? ==> old(anchor).value.seqNo <= r.value.seqNo)
    {
      if Behind(State()) && of[..s.seqNo] <= rows {
        MoveKeepsBehind(State(), Advance(of, s.seqNo));
        OnlyResetsLower(State(), Advance(of, s.seqNo));
      }
      hide Step, Replay;
      if anchor.Some? && anchor.value.storeId == s.storeId && anchor.value.seqNo > s.seqNo {
        return Ok(anchor.value);
      }
      var checked := CheckAnchor(s, anchor);
      if checked.Err? {
        return Err(checked.error);
      }
      var moved := Anchor(s.storeId, s.seqNo, s.headHash);
      anchor := Some(moved);
      r := Ok(moved);
    }

    /** Append a signed link and advance the anchor past it. */
    method Append(link: UnsignedLink, signature: Signature, now: int) returns (r: Result<Snapshot, Error>)
      modifies this
      ensures r.Ok? ==> Behind(old(State())) && Behind(State())
      ensures r.Ok? ==> rows == old(rows) + [SignedRow(link, signature)] && r.value == At(rows, |rows|)
      ensures r.Ok? ==> anchor == Some(AnchorOf(rows, |rows|))
      ensures r.Err? ==> State() == old(State())
    {
      hide Step, Replay, AfterMove, Appended;
      r := Commit(link, signature, now);
      if r.Ok? {
        StateShape(rows, |rows|);
        assert rows[..|rows|] == rows;
        var _ := AdvanceAnchor(r.value, rows);
      }
    }

    /** Move the anchor to the log's head on a verified reset; refused, it stays. */
    method ResetAnchor(signer: Fingerprint, sig: ResetSignature) returns (r: Result<Anchor, Error>)
      requires Accepted(rows) && rows != []
      modifies this`anchor
      ensures r == Reset(At(rows, |rows|), old(anchor), signer, sig)
      ensures r.Ok? <==> ResetInOrder(rows, old(anchor), signer, sig)
      ensures r.Ok? ==> anchor == Some(r.value) == Some(AnchorOf(rows, |rows|)) && Behind(State())
      ensures r.Err? ==> anchor == old(anchor)
    {
      hide Step, Replay;
      ResetToHead(State(), signer, sig);
      ResetVerified(rows, anchor, signer, sig);
      r := Reset(At(rows, |rows|), anchor, signer, sig);
      if r.Ok? {
        anchor := Some(r.value);
      }
    }
  }
}
