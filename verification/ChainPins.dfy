/** What a hash of the chain says about the log below it (levain/authority.py, `_link_hash`, `check_anchor`). */
module ChainPins {
  import opened Wrappers
  import opened AuthorityModel
  import opened Classifier
  import opened AuthorityStep
  import opened AuthorityReplay

  /** A link's hash is taken over its predecessor's and its own text. */
  lemma ChainAt(rows: seq<Row>, k: nat)
    requires Accepted(rows) && k < |rows|
    ensures rows[k].hash == LinkHash(if k == 0 then NoHash else rows[k - 1].hash, rows[k].text)
  {
    LinkFacts(rows, k);
  }

  /** Two accepted logs with the same hash at seq `k` hold the same records up to it, and the same hashes. */
  lemma {:induction false} HashPinsRecords(a: seq<Row>, b: seq<Row>, k: nat)
    requires Accepted(a) && Accepted(b) && 1 <= k <= |a| && k <= |b|
    requires a[k - 1].hash == b[k - 1].hash
    ensures forall i :: 0 <= i < k ==> a[i].hash == b[i].hash && a[i].text == b[i].text
    decreases k
  {
    hide Replay, Step, Judge, JudgeLink, At, StateAt, RecordAt;
    ChainAt(a, k - 1);
    ChainAt(b, k - 1);
    if k > 1 {
      ChainAt(a, k - 2);
      ChainAt(b, k - 2);
      HashPinsRecords(a, b, k - 1);
    }
  }

  /** The judged state is a function of the record: who signs decides acceptance, never the outcome. */
  lemma SignerDecidesNothingElse(core: Core, rec: Record, fp: Fingerprint, fp': Fingerprint)
    requires Judge(core, rec, fp, false).Ok? && Judge(core, rec, fp', false).Ok?
    ensures Judge(core, rec, fp, false) == Judge(core, rec, fp', false)
  {
    if PolicyOp(rec.op) {
      PolicyLinkFacts(core, rec, fp, false);
      PolicyLinkFacts(core, rec, fp', false);
    } else {
      KeyLinkFacts(core, rec, fp, false);
      KeyLinkFacts(core, rec, fp', false);
    }
    hide Judge, Classify, Stamped, ApplyPolicyOp;
  }

  lemma GenesisSignerIsNamed(rec: Record, fp: Fingerprint, fp': Fingerprint)
    requires JudgeLink(None, rec, fp, false).Ok? && JudgeLink(None, rec, fp', false).Ok?
    ensures JudgeLink(None, rec, fp, false) == JudgeLink(None, rec, fp', false)
  {
  }

  /** So the hash at `k` pins the replayed state there: keys, policy, stamps and revoke marks, the store, the chain and
      the head's time; all but the signers. */
  lemma {:induction false} HashPinsState(a: seq<Row>, b: seq<Row>, k: nat)
    requires Accepted(a) && Accepted(b) && 1 <= k <= |a| && k <= |b|
    requires a[k - 1].hash == b[k - 1].hash
    ensures At(b, k) == At(a, k).(signers := At(b, k).signers)
    decreases k
  {
    hide Replay, Step, Judge, JudgeLink;
    HashPinsRecords(a, b, k);
    LinkFacts(a, k - 1);
    LinkFacts(b, k - 1);
    StateShape(a, k);
    StateShape(b, k);
    assert RecordAt(a, k - 1) == RecordAt(b, k - 1);
    if k == 1 {
      StateShape(a, 0);
      StateShape(b, 0);
      GenesisSignerIsNamed(RecordAt(a, 0), a[0].signer, b[0].signer);
    } else {
      HashPinsState(a, b, k - 1);
      SignerDecidesNothingElse(At(a, k - 1).core, RecordAt(a, k - 1), a[k - 1].signer, b[k - 1].signer);
    }
    assert At(a, k).hashes == At(b, k).hashes;
  }

  /** The hash does not pin the signer: another active key of the same class and custody, whose signature over the same
      message verifies, gives a row of the same hash that the replay takes with the same outcome. */
  lemma HashLeavesSignerFree(state: Snapshot, row: Row, other: Fingerprint, signature: Signature)
    requires Step(Some(state), row, true, false).Ok? && row.text.Canonical?
    requires row.signer in state.core.keys && other in state.core.keys
    requires var s, o := state.core.keys[row.signer], state.core.keys[other];
             && !CustodyMismatch(s) && !CustodyMismatch(o) && o.Active()
             && o.keyClass == s.keyClass && o.custody == s.custody && !s.custody.Passkey?
             && Verifies(signature, o.publicKey, Message(row.prevHash, row.text))
    ensures var swapped := row.(signer := other, signature := signature);
            && Step(Some(state), swapped, true, false).Ok?
            && Step(Some(state), swapped, true, false).value ==
               Step(Some(state), row, true, false).value.(signers := state.signers + [other])
  {
    var rec := row.text.rec;
    SameRankSameVerdict(state.core, rec, row.signer, other);
    VerifyingKeyIsSigner(state.core, rec, other, false);
    hide Judge;
  }

  /** Who signed before is not read by a later link: it is only carried along. */
  lemma StepCarriesSigners(state: Snapshot, row: Row, signers: seq<Fingerprint>)
    requires Step(Some(state), row, true, false).Ok?
    ensures Step(Some(state.(signers := signers)), row, true, false)
            == Ok(Step(Some(state), row, true, false).value.(signers := signers + [row.signer]))
  {
    hide Judge;
  }

  /** A row that may be re-signed: by another active key of the signer's class and custody, over the same message. */
  ghost predicate Resignable(rows: seq<Row>, k: nat, other: Fingerprint, signature: Signature)
    requires Accepted(rows) && 1 <= k < |rows|
  {
    var keys, row := At(rows, k).core.keys, rows[k];
    && row.signer in keys && other in keys && !CustodyMismatch(keys[row.signer]) && !CustodyMismatch(keys[other])
    && keys[other].Active() && keys[other].keyClass == keys[row.signer].keyClass
    && keys[other].custody == keys[row.signer].custody && !keys[row.signer].custody.Passkey?
    && Verifies(signature, keys[other].publicKey, Message(row.prevHash, row.text))
  }

  function Resigned(rows: seq<Row>, k: nat, other: Fingerprint, signature: Signature): seq<Row>
    requires k < |rows|
  {
    rows[k := rows[k].(signer := other, signature := signature)]
  }

  /** A whole log with one such row re-signed still replays, to the same head and the same state, that signer aside. */
  lemma {:induction false} ResignedLogReplays(rows: seq<Row>, k: nat, other: Fingerprint, signature: Signature)
    requires Accepted(rows) && 1 <= k < |rows| && Resignable(rows, k, other, signature)
    ensures |At(rows, |rows|).signers| == |rows|
    ensures var swapped := Resigned(rows, k, other, signature);
            && Accepted(swapped)
            && At(swapped, |rows|) == At(rows, |rows|).(signers := At(rows, |rows|).signers[k := other])
    decreases |rows|
  {
    hide Step, Replay, Judge;
    var n := |rows| - 1;
    var swapped := Resigned(rows, k, other, signature);
    StateShape(rows, n);
    StateShape(rows, n + 1);
    StepAt(rows, n);
    if k == n {
      LinkFacts(rows, n);
      HashLeavesSignerFree(At(rows, n), rows[n], other, signature);
      assert swapped[..n] == rows[..n];
      PrefixState(rows, n, n);
      WholeState(rows[..n]);
      LastLink(swapped, At(rows, n));
    } else {
      PrefixAccepted(rows, n);
      PrefixState(rows, n, k);
      PrefixState(rows, n, n);
      ResignedLogReplays(rows[..n], k, other, signature);
      assert swapped[..n] == Resigned(rows[..n], k, other, signature);
      WholeState(swapped[..n]);
      StepCarriesSigners(At(rows, n), rows[n], At(rows, n).signers[k := other]);
      LastLink(swapped, At(rows, n).(signers := At(rows, n).signers[k := other]));
    }
    SignersOf(rows, n);
  }

  lemma WholeState(rows: seq<Row>)
    requires Accepted(rows) && rows != []
    ensures Replay(rows) == Ok(Some(At(rows, |rows|)))
  {
    hide Step, Replay;
    StateShape(rows, |rows|);
    assert rows[..|rows|] == rows;
  }

  lemma PrefixState(rows: seq<Row>, n: nat, k: nat)
    requires Accepted(rows) && 1 <= k <= n <= |rows|
    ensures Accepted(rows[..n]) && At(rows[..n], k) == At(rows, k)
  {
    PrefixAccepted(rows, n);
    assert rows[..n][..k] == rows[..k];
  }

  lemma SignersOf(rows: seq<Row>, n: nat)
    requires Accepted(rows) && 1 <= n < |rows|
    ensures At(rows, n + 1).signers == At(rows, n).signers + [rows[n].signer]
  {
    hide Step, Replay;
    StateShape(rows, n);
    StateShape(rows, n + 1);
  }

  /** A log whose links but the last replay to `before`, and whose last steps from it. */
  lemma LastLink(rows: seq<Row>, before: Snapshot)
    requires rows != [] && Replay(rows[..|rows| - 1]) == Ok(Some(before))
    requires Step(Some(before), rows[|rows| - 1], true, false).Ok?
    ensures Accepted(rows) && At(rows, |rows|) == Step(Some(before), rows[|rows| - 1], true, false).value
  {
    hide Step;
    assert Replay(rows) == Ok(Some(Step(Some(before), rows[|rows| - 1], true, false).value));
    assert rows[..|rows|] == rows;
  }

  lemma SameRankSameVerdict(core: Core, rec: Record, fp: Fingerprint, other: Fingerprint)
    requires Judge(core, rec, fp, false).Ok? && fp in core.keys && other in core.keys
    requires var s, o := core.keys[fp], core.keys[other];
             && !CustodyMismatch(s) && !CustodyMismatch(o) && o.Active()
             && o.keyClass == s.keyClass && o.custody == s.custody && !s.custody.Passkey?
    ensures Judge(core, rec, other, false) == Judge(core, rec, fp, false)
  {
    hide ApplyPolicyOp, Classify, GraduationRules, AgentLinkRules, VoiceKeyRules, LinkFormat, Stamped, JudgeKeyOp;
  }
}
