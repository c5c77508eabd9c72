/** The replay as a fold of the step, and what holds over whole logs (levain/authority.py, `_replay_entry`, `_step`). */
module AuthorityReplay {
  import opened Wrappers
  import opened AuthorityModel
  import opened AuthorityStep

  // ----- the fold

  /** The state a replay from genesis gives; none for the empty log. */
  function Replay(rows: seq<Row>): Result<Option<Snapshot>, Error> {
    if rows == [] then Ok(None)
    else
      var before :- Replay(rows[..|rows| - 1]);
      var after :- Step(before, rows[|rows| - 1], true, false);
      Ok(Some(after))
  }

  predicate Accepted(rows: seq<Row>) {
    Replay(rows).Ok?
  }

  /** The state after the first `k` links. */
  function StateAt(rows: seq<Row>, k: nat): (s: Option<Snapshot>)
    requires Accepted(rows) && k <= |rows|
    ensures Replay(rows[..k]) == Ok(s)
  {
    PrefixAccepted(rows, k);
    Replay(rows[..k]).value
  }

  /** The state after the first `k` links of a log that holds them. */
  function At(rows: seq<Row>, k: nat): Snapshot
    requires Accepted(rows) && 1 <= k <= |rows|
  {
    StateShape(rows, k);
    StateAt(rows, k).value
  }

  lemma {:induction false} PrefixAccepted(rows: seq<Row>, k: nat)
    requires Accepted(rows) && k <= |rows|
    ensures Accepted(rows[..k])
    decreases |rows|
  {
    if k == |rows| {
      assert rows[..k] == rows;
    } else {
      var shorter := rows[..|rows| - 1];
      PrefixAccepted(shorter, k);
      assert shorter[..k] == rows[..k];
    }
  }

  /** The link after the first `k` was judged against the state at its predecessor. */
  lemma StepAt(rows: seq<Row>, k: nat)
    requires Accepted(rows) && k < |rows|
    ensures Step(StateAt(rows, k), rows[k], true, false) == Ok(At(rows, k + 1))
  {
    PrefixAccepted(rows, k + 1);
    assert rows[..k + 1][..k] == rows[..k];
    StateShape(rows, k + 1);
  }

  lemma {:induction false} StateShape(rows: seq<Row>, k: nat)
    requires Accepted(rows) && k <= |rows|
    ensures StateAt(rows, k).Some? <==> k > 0
    ensures k > 0 ==>
              var s := StateAt(rows, k).value;
              && s.seqNo == k && s.headHash == rows[k - 1].hash
              && |s.hashes| == k && |s.signers| == k
              && (forall i :: 0 <= i < k ==> s.hashes[i] == rows[i].hash && s.signers[i] == rows[i].signer)
  {
    hide Replay;
    PrefixAccepted(rows, k);
    ReplayShape(rows[..k]);
  }

  /** A replayed state is at the last link, and holds the hash and the signer of each. */
  ghost predicate Shaped(s: Snapshot, rows: seq<Row>) {
    && rows != [] && s.seqNo == |rows| && s.headHash == rows[|rows| - 1].hash
    && |s.hashes| == |rows| && |s.signers| == |rows|
    && (forall i :: 0 <= i < |rows| ==> s.hashes[i] == rows[i].hash && s.signers[i] == rows[i].signer)
  }

  lemma {:induction false} ReplayShape(rows: seq<Row>)
    requires Accepted(rows)
    ensures if rows == [] then Replay(rows).value.None?
            else Replay(rows).value.Some? && Shaped(Replay(rows).value.value, rows)
  {
    hide Step;
    if rows != [] {
      var n := |rows| - 1;
      assert Accepted(rows[..n]) && Step(Replay(rows[..n]).value, rows[n], true, false).Ok?;
      assert Replay(rows) == Ok(Some(Step(Replay(rows[..n]).value, rows[n], true, false).value));
      ReplayShape(rows[..n]);
      StepShape(Replay(rows[..n]).value, rows[n]);
      hide Replay, Accepted;
    }
  }

  lemma StepShape(before: Option<Snapshot>, row: Row)
    requires Step(before, row, true, false).Ok?
    ensures var s := Step(before, row, true, false).value;
            && s.seqNo == NextSeq(before) && s.headHash == row.hash
            && s.hashes == (if before.Some? then before.value.hashes else []) + [row.hash]
            && s.signers == (if before.Some? then before.value.signers else []) + [row.signer]
  {
    hide JudgeLink, SignatureHolds, VerifyingKey;
  }

  /** The record of the link at position `k` (the log's seq `k + 1`). */
  function RecordAt(rows: seq<Row>, k: nat): Record
    requires Accepted(rows) && k < |rows|
  {
    StepAt(rows, k);
    rows[k].text.rec
  }

  /** What acceptance says of the link at `k`, unfolded once. */
  lemma LinkFacts(rows: seq<Row>, k: nat)
    requires Accepted(rows) && k < |rows|
    ensures rows[k].text == Canonical(RecordAt(rows, k)) && RecordAt(rows, k).seqNo == k + 1 == rows[k].seqNo
    ensures At(rows, k + 1).headAt == RecordAt(rows, k).at
    ensures JudgeLink(StateAt(rows, k), RecordAt(rows, k), rows[k].signer, false) == Ok(At(rows, k + 1).core)
    ensures k > 0 ==> Judge(At(rows, k).core, RecordAt(rows, k), rows[k].signer, false) == Ok(At(rows, k + 1).core)
    ensures k > 0 ==> At(rows, k).headAt <= RecordAt(rows, k).at && At(rows, k).storeId == RecordAt(rows, k).storeId
    ensures rows[k].hash == LinkHash(if k == 0 then NoHash else rows[k - 1].hash, rows[k].text)
    ensures At(rows, k + 1).storeId == RecordAt(rows, k).storeId
  {
    StepAt(rows, k);
    StateShape(rows, k);
  }

  /** The links' times never go back. */
  lemma {:induction false} TimesMonotone(rows: seq<Row>, i: nat, j: nat)
    requires Accepted(rows) && i <= j < |rows|
    ensures RecordAt(rows, i).at <= RecordAt(rows, j).at
    decreases j
  {
    if i < j {
      TimesMonotone(rows, i, j - 1);
      LinkFacts(rows, j);
      LinkFacts(rows, j - 1);
    }
  }

  // ----- declarations

  predicate AllDeclared(p: Policy) {
    forall gid :: gid in p.grants ==> WellDeclared(p.grants[gid])
  }

  lemma OpKeepsDeclared(p: Policy, op: Op, at: int)
    requires PolicyOp(op) && AllDeclared(p) && ApplyPolicyOp(p, op, at).Ok?
    ensures AllDeclared(ApplyPolicyOp(p, op, at).value)
  {
  }

  /** In every replayed state every consent-mcp grant is well declared: so a link that renews one leaves what it says. */
  lemma {:induction false} GrantsAreDeclared(rows: seq<Row>, k: nat)
    requires Accepted(rows) && 1 <= k <= |rows|
    ensures AllDeclared(At(rows, k).core.policy)
    decreases k
  {
    hide Replay, Step, Judge, AllDeclared;
    LinkFacts(rows, k - 1);
    if k == 1 {
      StateShape(rows, 0);
      assert AllDeclared(GENESIS_POLICY) by { NothingDeclared(); }
    } else {
      GrantsAreDeclared(rows, k - 1);
      var core, rec, fp := At(rows, k - 1).core, RecordAt(rows, k - 1), rows[k - 1].signer;
      if PolicyOp(rec.op) {
        PolicyLinkFacts(core, rec, fp, false);
        OpKeepsDeclared(core.policy, rec.op, rec.at);
      } else {
        KeyLinkOnlyKeys(core, rec, fp, false);
      }
    }
  }

  lemma NothingDeclared()
    ensures AllDeclared(GENESIS_POLICY)
  {
  }
}
