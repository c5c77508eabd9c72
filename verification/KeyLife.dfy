/** The life of a key over whole logs (levain/authority.py, `_apply_op`, `_enrolled_key`). */
module KeyLife {
  import opened Wrappers
  import opened AuthorityModel
  import opened AuthorityStep
  import opened AuthorityReplay

  /** Every key stays, with its material, class, custody and enrolment; a revoked one stays as it was revoked. */
  ghost predicate KeysKept(before: map<Fingerprint, Key>, after: map<Fingerprint, Key>) {
    forall fp :: fp in before ==>
      && fp in after
      && after[fp].publicKey == before[fp].publicKey
      && after[fp].keyClass == before[fp].keyClass
      && after[fp].custody == before[fp].custody
      && after[fp].enrolledSeq == before[fp].enrolledSeq
      && (!before[fp].Active() ==> after[fp] == before[fp])
  }

  lemma LinkKeepsKeys(core: Core, rec: Record, fp: Fingerprint, newLink: bool)
    requires Judge(core, rec, fp, newLink).Ok?
    ensures KeysKept(core.keys, Judge(core, rec, fp, newLink).value.keys)
  {
    if PolicyOp(rec.op) {
      PolicyLinkFacts(core, rec, fp, newLink);
    } else {
      KeyLinkFacts(core, rec, fp, newLink);
    }
    hide Judge;
  }

  /** From any state of an accepted log to any later one. */
  lemma {:induction false} KeysKeptThrough(rows: seq<Row>, i: nat, j: nat)
    requires Accepted(rows) && 1 <= i <= j <= |rows|
    ensures KeysKept(At(rows, i).core.keys, At(rows, j).core.keys)
    decreases j
  {
    hide Replay, Step, Judge, JudgeLink;
    if i < j {
      KeysKeptThrough(rows, i, j - 1);
      LinkFacts(rows, j - 1);
      LinkKeepsKeys(At(rows, j - 1).core, RecordAt(rows, j - 1), rows[j - 1].signer, false);
    }
  }

  /** A key revoked by some state of an accepted log signs no later link, is never active again and is never enrolled
      again. */
  lemma RevokedKeyIsDead(rows: seq<Row>, i: nat, fp: Fingerprint, j: nat)
    requires Accepted(rows) && 1 <= i <= j < |rows|
    requires fp in At(rows, i).core.keys && !At(rows, i).core.keys[fp].Active()
    ensures rows[j].signer != fp
    ensures fp in At(rows, j + 1).core.keys && At(rows, j + 1).core.keys[fp] == At(rows, i).core.keys[fp]
    ensures !(RecordAt(rows, j).op.Enrol? && RecordAt(rows, j).op.fingerprint == fp)
  {
    KeysKeptThrough(rows, i, j);
    KeysKeptThrough(rows, i, j + 1);
    LinkFacts(rows, j);
  }

  /** A key of the state is held under its own fingerprint, and was enrolled once, by a link of the log that a
      laptop-presence key signed. */
  ghost predicate EnrolledBy(rows: seq<Row>, k: Key, fp: Fingerprint)
    requires Accepted(rows)
  {
    && k.fingerprint == fp == Fingerprint(k.publicKey)
    && 1 <= k.enrolledSeq <= |rows|
    && var op := RecordAt(rows, k.enrolledSeq - 1).op;
    && op.Enrol? && op.fingerprint == fp && op.keyClass == k.keyClass && op.custody == k.custody
    && (k.enrolledSeq > 1 ==>
          var signers := At(rows, k.enrolledSeq - 1).core.keys;
          var signer := rows[k.enrolledSeq - 1].signer;
          signer in signers && signers[signer].Active() && signers[signer].keyClass.LaptopPresence?)
  }

  lemma GenesisKey(rec: Record, fp: Fingerprint)
    requires JudgeLink(None, rec, fp, false).Ok?
    ensures var keys := JudgeLink(None, rec, fp, false).value.keys;
            && keys.Keys == {fp} && rec.op.Enrol? && rec.op.fingerprint == fp == Fingerprint(rec.op.publicKey)
            && keys[fp].fingerprint == fp && keys[fp].publicKey == rec.op.publicKey && keys[fp].enrolledSeq == rec.seqNo
            && keys[fp].keyClass == rec.op.keyClass && keys[fp].custody == rec.op.custody
  {
  }

  /** A link's new key is the one its enrol op names, and its signer is a laptop-presence key. */
  lemma NewKeySource(core: Core, rec: Record, signer: Fingerprint)
    requires Judge(core, rec, signer, false).Ok?
    ensures var after := Judge(core, rec, signer, false).value;
            && (forall fp :: fp in core.keys ==>
                  fp in after.keys && after.keys[fp].fingerprint == core.keys[fp].fingerprint
                  && after.keys[fp].enrolledSeq == core.keys[fp].enrolledSeq
                  && after.keys[fp].publicKey == core.keys[fp].publicKey
                  && after.keys[fp].keyClass == core.keys[fp].keyClass && after.keys[fp].custody == core.keys[fp].custody)
            && forall fp :: fp in after.keys && fp !in core.keys ==>
                 && rec.op.Enrol? && rec.op.fingerprint == fp == Fingerprint(rec.op.publicKey)
                 && after.keys[fp].fingerprint == fp && after.keys[fp].publicKey == rec.op.publicKey
                 && after.keys[fp].enrolledSeq == rec.seqNo
                 && after.keys[fp].keyClass == rec.op.keyClass && after.keys[fp].custody == rec.op.custody
                 && signer in core.keys && core.keys[signer].Active() && core.keys[signer].keyClass.LaptopPresence?
  {
    if PolicyOp(rec.op) {
      PolicyLinkFacts(core, rec, signer, false);
    } else {
      KeyLinkFacts(core, rec, signer, false);
    }
    hide Judge;
  }

  /** Every key of an accepted log's state came from a laptop-presence signature, back to the genesis key. */
  lemma {:induction false} KeysComeFromLaptops(rows: seq<Row>, n: nat)
    requires Accepted(rows) && 1 <= n <= |rows|
    ensures forall fp :: fp in At(rows, n).core.keys ==> EnrolledBy(rows, At(rows, n).core.keys[fp], fp)
  {
    hide Replay, Step, Judge, JudgeLink, JudgeGenesis;
    LinkFacts(rows, n - 1);
    var rec, signer, after := RecordAt(rows, n - 1), rows[n - 1].signer, At(rows, n).core;
    if n == 1 {
      StateShape(rows, 0);
      GenesisKey(rec, signer);
    } else {
      KeysComeFromLaptops(rows, n - 1);
      var before := At(rows, n - 1).core;
      NewKeySource(before, rec, signer);
      forall fp | fp in after.keys ensures EnrolledBy(rows, after.keys[fp], fp) {
        if fp in before.keys {
          assert EnrolledBy(rows, before.keys[fp], fp);
        }
      }
    }
  }

  // ----- a log built by append keeps a laptop that can sign

  /** A WebAuthn key: an sk-ecdsa one whose application is no "ssh:" one. */
  predicate WebAuthn(k: PublicKey) {
    k.keyType == SkEcdsaP256 && !(|k.application| >= 4 && k.application[..4] == "ssh:")
  }

  /** An unrevoked laptop-presence key whose custody is the one its material shows. */
  ghost predicate CanSign(keys: map<Fingerprint, Key>) {
    exists fp :: fp in keys && CanSignNow(keys[fp])
  }

  ghost predicate CanSignNow(k: Key) {
    k.revokedSeq.None? && k.keyClass == LaptopPresence && (k.custody == Passkey <==> WebAuthn(k.publicKey))
  }

  lemma SigningIsCanSign(k: Key)
    ensures SigningLaptop(k) <==> CanSignNow(k)
  {
  }

  lemma NewGenesisCanSign(rec: Record, fp: Fingerprint)
    requires JudgeGenesis(rec, fp, true).Ok?
    ensures CanSign(JudgeGenesis(rec, fp, true).value.keys)
  {
    assert CanSignNow(JudgeGenesis(rec, fp, true).value.keys[fp]);
  }

  /** A link appended now, unless it revokes a key as compromised, leaves a laptop-presence key that can sign. */
  lemma NewLinkKeepsSigner(core: Core, rec: Record, fp: Fingerprint)
    requires Judge(core, rec, fp, true).Ok? && CanSign(core.keys)
    requires !(rec.op.RevokeKey? && rec.op.since.Some?)
    ensures CanSign(Judge(core, rec, fp, true).value.keys)
  {
    var after := Judge(core, rec, fp, true).value;
    if PolicyOp(rec.op) {
      PolicyLinkFacts(core, rec, fp, true);
    } else {
      KeyLinkFacts(core, rec, fp, true);
    }
    hide Judge;
    if rec.op.RevokeKey? && core.keys[rec.op.target].keyClass.LaptopPresence? {
      var k :| k in core.keys && k != rec.op.target && SigningLaptop(core.keys[k]);
      SigningIsCanSign(core.keys[k]);
      assert after.keys[k] == core.keys[k];
    } else {
      var k :| k in core.keys && CanSignNow(core.keys[k]);
      assert after.keys[k] == core.keys[k];
    }
  }
}
