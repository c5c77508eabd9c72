/** Preparing and appending a link: the replay's rules for a new link, and the rules only an append can hold
    (levain/authority.py, `prepare`, `append`, `_append_only_checks`). */
module AppendRules {
  import opened Wrappers
  import opened AuthorityModel
  import opened AuthorityStep
  import opened AuthorityReplay

  // ----- the rules that read the appender's clock

  predicate Live(g: Grant, now: int) {
    Expires(g) && g.expiresAt > now
  }

  /** Two grants that may not both be live: setup records of one entity and host, seat leases, seat-egress grants, and
      hands entries of one name or one remote callback port. */
  predicate Rivals(a: Grant, b: Grant) {
    || (a.EgressKey? && b.EgressKey? && a.entity == b.entity && a.host == b.host)
    || (a.SeatLease? && b.SeatLease?)
    || (a.SeatEgress? && b.SeatEgress?)
    || (a.HandsMcp? && b.HandsMcp?
        && (a.name == b.name || (a.remoteEntry && b.remoteEntry && a.port == b.port)))
  }

  /** The grants the append rules look at: as the op would leave them, but before a renew's extension. */
  function Considered(p: Policy, op: Op): map<Name, Grant> {
    match op
    case CreateGrant(g) => p.grants[g.id := g]
    case Loosen(policy) => policy.grants
    case _ => p.grants
  }

  /** The ids the op brings in, changes or extends. */
  function Touched(p: Policy, op: Op): set<Name> {
    match op
    case CreateGrant(g) => {g.id}
    case Loosen(policy) =>
      set gid | gid in policy.grants && (gid !in p.grants || p.grants[gid] != policy.grants[gid])
    case Renew(gid, _, _) => {gid}
    case _ => {}
  }

  /** A setup record's id keeps its meaning in a loosen. */
  predicate SetupRecordsKeepMeaning(p: Policy, op: Op) {
    op.Loosen? ==>
      forall gid :: gid in op.policy.grants && gid in p.grants
                    && (p.grants[gid].EgressKey? || op.policy.grants[gid].EgressKey?) ==>
        Meaning(p.grants[gid]) == Meaning(op.policy.grants[gid])
  }

  /** No two live setup records of an (entity, host) the op brings a live record to. A renew is not judged. */
  predicate SetupRecordsUnique(p: Policy, op: Op, now: int) {
    op.CreateGrant? || op.Loosen? ==>
      var after := Considered(p, op);
      forall t, a, b ::
        (t in Touched(p, op) && t in after && a in after && b in after && a != b
         && after[t].EgressKey? && Live(after[t], now)
         && Rivals(after[t], after[a]) && Rivals(after[t], after[b])
         && Live(after[a], now)) ==> !Live(after[b], now)
  }

  /** No live hands entry the op touches has a live rival. */
  predicate HandsUnique(p: Policy, op: Op, now: int) {
    var after := Considered(p, op);
    forall t, o ::
      (t in Touched(p, op) && t in after && after[t].HandsMcp? && Live(after[t], now)
       && o in after && o != t && Rivals(after[t], after[o])) ==> !Live(after[o], now)
  }

  /** No two live grants of a seat kind when the op touches a live one of it. */
  predicate SeatsUnique(p: Policy, op: Op, now: int) {
    var after := Considered(p, op);
    forall t, a, b ::
      (t in Touched(p, op) && t in after && (after[t].SeatLease? || after[t].SeatEgress?) && Live(after[t], now)
       && a in after && b in after && a != b && Rivals(after[t], after[a]) && Rivals(after[t], after[b])
       && Live(after[a], now)) ==> !Live(after[b], now)
  }

  /** What a create or a loosen may bring in or change: no unknown kind, no graduation policy without a guard. */
  predicate AppendableGrant(g: Grant) {
    !g.Inert? && (g.Graduation? ==> g.guard.Some?)
  }

  predicate GrantsAppendable(p: Policy, op: Op) {
    op.CreateGrant? || op.Loosen? ==>
      forall gid :: gid in Touched(p, op) ==> AppendableGrant(Considered(p, op)[gid])
  }

  function Abs(x: int): int {
    if x < 0 then -x else x
  }

  /** A renew's clock rules, by the appender's clock. */
  predicate RenewTimely(g: Grant, expiresAt: int, signedAt: int, now: int) {
    && Abs(now - signedAt) <= RENEW_SKEW
    && Live(g, now)
    && expiresAt - now <= RENEW_MAX
    && (RenewCap(g).Some? ==> expiresAt - now <= RenewCap(g).value)
  }

  function AppendOnlyChecks(p: Policy, op: Op, now: int): Result<(), Error> {
    if !SetupRecordsKeepMeaning(p, op) || !SetupRecordsUnique(p, op, now) || !HandsUnique(p, op, now)
       || !SeatsUnique(p, op, now) then Err(NotUnique)
    else if !GrantsAppendable(p, op) then Err(AppendGrantRefused)
    else if !op.Renew? then Ok(())
    else if op.gid !in p.grants then Err(NoGrant)
    else if !Expires(p.grants[op.gid]) then Err(NotRenewable)
    else if p.grants[op.gid].Graduation? && p.grants[op.gid].guard.None? then Err(AppendGrantRefused)
    else if !RenewTimely(p.grants[op.gid], op.expiresAt, op.signedAt, now) then Err(RenewClock)
    else Ok(())
  }

  function LocalChecks(state: Option<Snapshot>, op: Op, now: int): Result<(), Error> {
    if state.None? then Ok(()) else AppendOnlyChecks(state.value.core.policy, op, now)
  }

  // ----- the anchor's check

  datatype Anchor = Anchor(storeId: Name, seqNo: nat, headHash: Hash)

  function CheckAnchor(s: Snapshot, anchor: Option<Anchor>): Result<(), Error> {
    if anchor.None? then Ok(())
    else if anchor.value.storeId != s.storeId then Err(ForeignAnchor)
    else if s.seqNo < anchor.value.seqNo || s.HashAt(anchor.value.seqNo) != Some(anchor.value.headHash)
    then Err(AnchorRefused)
    else Ok(())
  }

  /** An empty log beside an anchor is refused; a log is checked against it. */
  function AnchorAllows(state: Option<Snapshot>, anchor: Option<Anchor>): Result<(), Error> {
    if state.None? then if anchor.Some? then Err(AnchorRefused) else Ok(())
    else CheckAnchor(state.value, anchor)
  }

  // ----- prepare and append

  datatype UnsignedLink = UnsignedLink(seqNo: nat, prevHash: Hash, text: RecordText, signer: Fingerprint)

  function SignedRow(link: UnsignedLink, signature: Signature): Row {
    Row(link.seqNo, link.prevHash, link.text, link.signer, signature, LinkHash(link.prevHash, link.text))
  }

  /** The record a prepared op is written as. `storeId` names the store of a genesis link. */
  function PreparedRecord(state: Option<Snapshot>, op: Op, signer: Fingerprint, now: int, storeId: Name): Record {
    match state
    case None => Record(V1, storeId, 1, now, op)
    case Some(s) =>
      var format := if signer in s.core.keys then LinkFormat(s.core.policy, op, s.core.keys[signer].custody) else V1;
      Record(format, s.storeId, s.seqNo + 1, now, op)
  }

  /** The next link, checked by every rule but the signature. */
  function Prepare(state: Option<Snapshot>, op: Op, signer: Fingerprint, now: int, storeId: Name)
    : Result<UnsignedLink, Error>
  {
    var rec := PreparedRecord(state, op, signer, now, storeId);
    var link := UnsignedLink(NextSeq(state), HeadHash(state), Canonical(rec), signer);
    var _ :- Step(state, SignedRow(link, NoSignature), false, true);
    var _ :- LocalChecks(state, op, now);
    Ok(link)
  }

  /** The log with the signed link appended, or why it is refused. */
  function Appended(rows: seq<Row>, link: UnsignedLink, signature: Signature, now: int, anchor: Option<Anchor>)
    : Result<seq<Row>, Error>
  {
    var state :- Replay(rows);
    var _ :- AnchorAllows(state, anchor);
    if link.seqNo != NextSeq(state) || link.prevHash != HeadHash(state) then Err(StaleHead)
    else
      var row := SignedRow(link, signature);
      var _ :- Step(state, row, true, true);
      var _ :- LocalChecks(state, row.text.rec.op, now);
      Ok(rows + [row])
  }

  // ----- append against replay

  lemma NewJudgementIsHistory(core: Core, rec: Record, fp: Fingerprint)
    requires Judge(core, rec, fp, true).Ok?
    ensures Judge(core, rec, fp, false) == Judge(core, rec, fp, true)
  {
    hide JudgePolicyOp, LinkFormat, PasskeyActAllowed;
    if rec.op.RevokeKey? && LaptopSurvives(core.keys, rec.op.target, true) {
      var k :| k in core.keys && k != rec.op.target && SigningLaptop(core.keys[k]);
      assert LaptopSurvives(core.keys, rec.op.target, false);
    }
  }

  /** Any link the step takes as new it takes as history, with an identical state. */
  lemma NewLinkIsHistory(state: Option<Snapshot>, row: Row)
    requires Step(state, row, true, true).Ok?
    ensures Step(state, row, true, false) == Step(state, row, true, true)
  {
    var rec := row.text.rec;
    if state.Some? {
      NewJudgementIsHistory(state.value.core, rec, row.signer);
    }
    hide Judge;
  }

  lemma NewStepFacts(state: Option<Snapshot>, row: Row)
    requires Step(state, row, true, true).Ok?
    ensures row.text.Canonical?
    ensures JudgeLink(state, row.text.rec, row.signer, true) == Ok(Step(state, row, true, true).value.core)
  {
    hide JudgeLink;
  }

  /** So the log an append leaves always replays: to the state the append computed. */
  lemma AppendedReplays(rows: seq<Row>, link: UnsignedLink, signature: Signature, now: int, anchor: Option<Anchor>)
    requires Appended(rows, link, signature, now, anchor).Ok?
    ensures var after := Appended(rows, link, signature, now, anchor).value;
            && Accepted(rows) && Accepted(after) && after == rows + [SignedRow(link, signature)]
            && Step(Replay(rows).value, SignedRow(link, signature), true, true) == Ok(At(after, |after|))
  {
    hide Judge, JudgeLink, LocalChecks;
    var row := SignedRow(link, signature);
    NewLinkIsHistory(Replay(rows).value, row);
    hide Step;
    var after := rows + [row];
    assert after[..|after| - 1] == rows;
    assert after[..|after|] == after;
  }

  // ----- a prepared link

  lemma SignatureIsLast(state: Option<Snapshot>, row: Row, signature: Signature, newLink: bool)
    requires Step(state, row, false, newLink).Ok?
    ensures var signed := row.(signature := signature);
            Step(state, signed, true, newLink) in {Step(state, row, false, newLink), Err(SignatureRefused)}
  {
    hide JudgeLink;
  }

  /** The signature is the signer's over the link, as its key's custody needs it: the enrolled key's, or for a first link
      that of the key it enrols. */
  predicate SignerSigns(state: Option<Snapshot>, op: Op, signer: Fingerprint, link: UnsignedLink, signature: Signature) {
    var row := SignedRow(link, signature);
    if state.Some? then signer in state.value.core.keys && SignatureHolds(state.value.core.keys[signer], row, op)
    else op.Enrol? && signer == op.fingerprint && SignatureHolds(SelfEnrolled(op), row, op)
  }

  /** The key a first link enrols. */
  function SelfEnrolled(op: Op): Key
    requires op.Enrol?
  {
    Key(op.fingerprint, op.publicKey, op.keyClass, 1, None, None, op.legacy, op.custody)
  }

  lemma SignatureOfSigner(state: Option<Snapshot>, row: Row, op: Op)
    requires Step(state, row.(signature := NoSignature), false, true).Ok? && row.text.Canonical? && row.text.rec.op == op
    ensures Step(state, row, true, true).Ok? <==>
              SignerSigns(state, op, row.signer, UnsignedLink(row.seqNo, row.prevHash, row.text, row.signer), row.signature)
  {
    var rec := row.text.rec;
    if state.Some? {
      VerifyingKeyIsSigner(state.value.core, rec, row.signer, true);
      SameKeySameSignature(state.value.core.keys[row.signer], Judge(state.value.core, rec, row.signer, true).value.keys[row.signer],
                           row, op);
    }
    assert SignedRow(UnsignedLink(row.seqNo, row.prevHash, row.text, row.signer), row.signature).(hash := row.hash) == row;
    hide Judge, Quarantinable, CustodyAllowed;
  }

  lemma SameKeySameSignature(a: Key, b: Key, row: Row, op: Op)
    requires a.publicKey == b.publicKey && a.custody == b.custody
    ensures SignatureHolds(a, row, op) == SignatureHolds(b, row, op)
  {
  }

  /** With the head unmoved, append refuses a prepared link only on its signature, on its clock or local append rules, or
      on the anchor; and at the clock it was prepared by, only on its signature or the anchor. */
  lemma PreparedLinkRefusals(rows: seq<Row>, op: Op, signer: Fingerprint, preparedAt: int, storeId: Name,
                             signature: Signature, now: int, anchor: Option<Anchor>)
    requires Accepted(rows) && Prepare(Replay(rows).value, op, signer, preparedAt, storeId).Ok?
    ensures var state, link := Replay(rows).value, Prepare(Replay(rows).value, op, signer, preparedAt, storeId).value;
            var r := Appended(rows, link, signature, now, anchor);
            && (r.Ok? <==>
                  && AnchorAllows(state, anchor).Ok?
                  && SignerSigns(state, op, signer, link, signature)
                  && LocalChecks(state, op, now).Ok?)
            && (r.Err? ==> r.error in {SignatureRefused, NotUnique, AppendGrantRefused, RenewClock,
                                       AnchorRefused, ForeignAnchor})
            && (r.Err? && now == preparedAt ==> r.error in {SignatureRefused, AnchorRefused, ForeignAnchor})
  {
    hide Step, AnchorAllows, LocalChecks, SignerSigns, LinkFormat, Replay;
    var state := Replay(rows).value;
    PreparedStep(state, op, signer, preparedAt, storeId);
    var link := Prepare(state, op, signer, preparedAt, storeId).value;
    hide Prepare, NextSeq, HeadHash;
    SignatureIsLast(state, SignedRow(link, NoSignature), signature, true);
    SignatureOfSigner(state, SignedRow(link, signature), op);
    assert SignedRow(link, NoSignature).(signature := signature) == SignedRow(link, signature);
    LocalRefusals(state, op, now, preparedAt);
    AnchorRefusals(state, anchor);
  }

  lemma PreparedStep(state: Option<Snapshot>, op: Op, signer: Fingerprint, preparedAt: int, storeId: Name)
    requires Prepare(state, op, signer, preparedAt, storeId).Ok?
    ensures var link := Prepare(state, op, signer, preparedAt, storeId).value;
            && link.seqNo == NextSeq(state) && link.prevHash == HeadHash(state) && link.signer == signer
            && link.text.Canonical? && link.text.rec.op == op
            && Step(state, SignedRow(link, NoSignature), false, true).Ok? && LocalChecks(state, op, preparedAt).Ok?
  {
    hide Step, LocalChecks, LinkFormat;
  }

  /** What is prepared is the next link of the log, saying the op at this time, by this signer, of the log's store. */
  lemma PreparedSays(state: Option<Snapshot>, op: Op, signer: Fingerprint, now: int, storeId: Name)
    requires Prepare(state, op, signer, now, storeId).Ok?
    ensures var link := Prepare(state, op, signer, now, storeId).value;
            && link.signer == signer && link.text.Canonical?
            && link.text.rec.op == op && link.text.rec.at == now && link.text.rec.seqNo == link.seqNo
            && (state.Some? ==> link.seqNo == state.value.seqNo + 1 && link.prevHash == state.value.headHash
                                && link.text.rec.storeId == state.value.storeId)
            && (state.None? ==> link.seqNo == 1 && link.prevHash == NoHash && link.text.rec.storeId == storeId)
  {
    hide Step, LocalChecks, LinkFormat;
  }

  /** A link appended at its own time is the one that preparing its op then gives: nothing else of that op, time and signer
      can be appended, and what can be is never refused when prepared. */
  lemma AppendedIsPrepared(rows: seq<Row>, link: UnsignedLink, signature: Signature, anchor: Option<Anchor>)
    requires link.text.Canonical? && Appended(rows, link, signature, link.text.rec.at, anchor).Ok?
    ensures Replay(rows).Ok?
    ensures var rec := link.text.rec; Prepare(Replay(rows).value, rec.op, link.signer, rec.at, rec.storeId) == Ok(link)
  {
    hide Replay, LocalChecks, AnchorAllows;
    var state, rec := Replay(rows).value, link.text.rec;
    UnsignedStep(state, SignedRow(link, signature));
    StepRecord(state, SignedRow(link, signature));
    assert SignedRow(link, signature).(signature := NoSignature) == SignedRow(link, NoSignature);
    hide Step;
  }

  lemma UnsignedStep(state: Option<Snapshot>, row: Row)
    requires Step(state, row, true, true).Ok?
    ensures Step(state, row.(signature := NoSignature), false, true).Ok?
  {
    hide JudgeLink;
  }

  /** The record of a link taken as new is the one prepared of its op, time, signer and store. */
  lemma StepRecord(state: Option<Snapshot>, row: Row)
    requires Step(state, row, true, true).Ok?
    ensures row.text.Canonical? && row.seqNo == NextSeq(state) && row.prevHash == HeadHash(state)
    ensures var rec := row.text.rec; PreparedRecord(state, rec.op, row.signer, rec.at, rec.storeId) == rec
  {
    hide LinkFormat, JudgePolicyOp, JudgeKeyOp, PasskeyActAllowed, SignatureHolds, VerifyingKey, EnrolledKey;
  }

  lemma AnchorRefusals(state: Option<Snapshot>, anchor: Option<Anchor>)
    ensures AnchorAllows(state, anchor).Err? ==> AnchorAllows(state, anchor).error in {AnchorRefused, ForeignAnchor}
  {
  }

  lemma LocalRefusals(state: Option<Snapshot>, op: Op, now: int, preparedAt: int)
    requires LocalChecks(state, op, preparedAt).Ok?
    ensures LocalChecks(state, op, now).Err? ==>
              LocalChecks(state, op, now).error in {NotUnique, AppendGrantRefused, RenewClock}
  {
    hide SetupRecordsKeepMeaning, SetupRecordsUnique, HandsUnique, SeatsUnique, GrantsAppendable;
  }
}
