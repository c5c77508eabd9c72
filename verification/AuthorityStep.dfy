/** One link judged against the state at its predecessor (levain/authority.py, `_step`). */
module AuthorityStep {
  import opened Wrappers
  import opened AuthorityModel
  import opened Classifier

  // ----- key ops

  /** The key an enrol record adds. A link already in the log may bring in a quarantined key; a new one may not. */
  function EnrolledKey(op: Op, seqNo: nat, keys: map<Fingerprint, Key>, newLink: bool): Result<Key, Error>
    requires op.Enrol?
  {
    if op.fingerprint != Fingerprint(op.publicKey) then Err(EnrolRefused)
    else if !CustodyAllowed(op.keyClass, op.custody, op.publicKey, op.legacy)
            && (newLink || !Quarantinable(op.keyClass, op.custody, op.publicKey, op.legacy)) then Err(EnrolRefused)
    else if op.fingerprint in keys then Err(EnrolRefused)
    else Ok(Key(op.fingerprint, op.publicKey, op.keyClass, seqNo, None, None, op.legacy, op.custody))
  }

  /** A laptop-presence key other than `fp` is left: one that can sign, for a new link; any unrevoked one, for a link
      already in the log. */
  predicate LaptopSurvives(keys: map<Fingerprint, Key>, fp: Fingerprint, newLink: bool) {
    exists k :: k in keys && k != fp
      && (if newLink then SigningLaptop(keys[k]) else keys[k].Active() && keys[k].keyClass.LaptopPresence?)
  }

  function RevokedKey(op: Op, seqNo: nat, keys: map<Fingerprint, Key>, newLink: bool): Result<Key, Error>
    requires op.RevokeKey?
  {
    if op.target !in keys then Err(KeyRevokeRefused)
    else
      var target := keys[op.target];
      if !target.Active() then Err(KeyRevokeRefused)
      else if op.since.Some? && !(target.enrolledSeq <= op.since.value < seqNo) then Err(KeyRevokeRefused)
      else if target.keyClass.LaptopPresence? && op.since.None? && !LaptopSurvives(keys, op.target, newLink)
      then Err(KeyRevokeRefused)
      else Ok(target.(revokedSeq := Some(seqNo), compromisedSince := op.since))
  }

  // ----- policy ops

  predicate GrantValid(g: Grant, at: int) {
    WellDeclared(g) && (CreateCap(g).Some? ==> g.expiresAt - at <= CreateCap(g).value)
  }

  predicate PolicyValid(p: Policy, at: int) {
    forall gid :: gid in p.grants ==> GrantValid(p.grants[gid], at) && p.grants[gid].id == gid
  }

  predicate LinkOfAgent(g: Grant, agentId: Name, storeId: Name) {
    g.AgentLink? && g.agentId == agentId && g.storeId == storeId
  }

  /** The grant after a renew, or why it is refused. */
  function Renewed(g: Grant, expiresAt: int, signedAt: int, at: int): Result<Grant, Error> {
    if !Expires(g) then Err(NotRenewable)
    else if signedAt != at then Err(Malformed)
    else if g.expiresAt <= signedAt then Err(GrantLapsed)
    else if expiresAt <= g.expiresAt then Err(ExpiryNotLater)
    else if expiresAt - signedAt > RENEW_MAX then Err(RenewTooLong)
    else if RenewCap(g).Some? && expiresAt - signedAt > RenewCap(g).value then Err(RenewTooLong)
    else Ok(WithExpiry(g, expiresAt))
  }

  predicate PolicyOp(op: Op) {
    !op.Enrol? && !op.RevokeKey?
  }

  /** The policy after the declared op, refusing an impossible one; the delta's kind is not judged here. */
  function ApplyPolicyOp(p: Policy, op: Op, at: int): Result<Policy, Error>
    requires PolicyOp(op)
  {
    match op
    case Raise(verb, tier) => Ok(p.(raiseTo := p.raiseTo[verb := tier]))
    case Loosen(policy) => if PolicyValid(policy, at) then Ok(policy) else Err(GrantInvalid)
    case Timeouts(timeouts) => Ok(p.(timeouts := timeouts))
    case CreateGrant(g) =>
      if !GrantValid(g, at) || g.id in p.grants then Err(GrantInvalid)
      else if !g.Egress? && Expires(g) && g.expiresAt <= at then Err(GrantInvalid)
      else Ok(p.(grants := p.grants[g.id := g]))
    case RevokeAgent(agentId, storeId) =>
      Ok(p.(grants := map gid | gid in p.grants && !LinkOfAgent(p.grants[gid], agentId, storeId) :: p.grants[gid]))
    case RevokeGrant(gid) =>
      if gid !in p.grants then Err(NoGrant) else Ok(p.(grants := p.grants - {gid}))
    case Renew(gid, expiresAt, signedAt) =>
      if gid !in p.grants then Err(NoGrant)
      else
        var g :- Renewed(p.grants[gid], expiresAt, signedAt, at);
        Ok(p.(grants := p.grants[gid := g]))
  }

  /** What each declared op must compute to. */
  predicate OpAllows(op: Op, d: Delta)
    requires PolicyOp(op)
  {
    match op
    case Raise(_, _) => d.Tighten?
    case RevokeGrant(_) => d.GrantRevoke?
    case Renew(_, _, _) => d.RenewDelta?
    case Loosen(_) => d.LoosenDelta?
    case CreateGrant(_) => d.LoosenDelta?
    case Timeouts(_) => d.Tighten? || d.LoosenDelta?
    case RevokeAgent(_, _) => d.GrantRevoke? || d.Tighten?
  }

  function DeltaRank(d: Delta): int
    requires !d.Noop?
  {
    match d
    case GrantRevoke => 1
    case Tighten => 2
    case RenewDelta => 2
    case LoosenDelta => 3
  }

  /** The one opt-in the policy holds. */
  function OptIn(p: Policy): Option<Grant> {
    if exists gid :: gid in p.grants && p.grants[gid].GraduationPhone? then
      if exists a, b :: a in p.grants && b in p.grants && a != b
                        && p.grants[a].GraduationPhone? && p.grants[b].GraduationPhone? then None
      else
        OptInIsUnique(p);
        var gid :| gid in p.grants && p.grants[gid].GraduationPhone?;
        Some(p.grants[gid])
    else None
  }

  lemma OptInIsUnique(p: Policy)
    requires !exists a, b :: a in p.grants && b in p.grants && a != b
                             && p.grants[a].GraduationPhone? && p.grants[b].GraduationPhone?
    ensures forall a, b ::
              a in p.grants && b in p.grants && p.grants[a].GraduationPhone? && p.grants[b].GraduationPhone? ==> a == b
  {
  }

  /** The one act a passkey may sign in this log. */
  predicate PasskeyActAllowed(op: Op, p: Policy, signer: Fingerprint) {
    match op
    case RevokeGrant(gid) => gid in p.grants && PasskeyRevocable(p.grants[gid])
    case Renew(gid, _, _) => gid in p.grants && p.grants[gid].Graduation?
    case RevokeAgent(agentId, storeId) =>
      exists gid :: gid in p.grants && LinkOfAgent(p.grants[gid], agentId, storeId)
    case CreateGrant(g) =>
      g.Graduation? && OptIn(p).Some? && OptIn(p).value.GraduationPhone? && signer in OptIn(p).value.passkeys
    case _ => false
  }

  /** A graduation policy's expiry moves only in a renew; one opt-in; a new one names active passkeys only. */
  predicate GraduationRules(before: Policy, after: Policy, keys: map<Fingerprint, Key>, op: Op) {
    && (!op.Renew? ==>
          forall gid :: gid in before.grants && gid in after.grants && before.grants[gid].Graduation? ==>
            Expires(after.grants[gid]) && after.grants[gid].expiresAt == before.grants[gid].expiresAt)
    && (forall a, b ::
          (a in after.grants && b in after.grants && after.grants[a].GraduationPhone?
           && after.grants[b].GraduationPhone?) ==> a == b)
    && forall gid :: gid in after.grants && after.grants[gid].GraduationPhone? && gid !in before.grants ==>
         forall fp :: fp in after.grants[gid].passkeys ==>
           fp in keys && keys[fp].Active() && keys[fp].custody.Passkey? && !CustodyMismatch(keys[fp])
  }

  /** An agent link changes only in a renew, and outlives the link that brings it in. */
  predicate AgentLinkRules(before: Policy, after: Policy, op: Op, at: int) {
    && (!op.Renew? ==>
          forall gid :: gid in before.grants && gid in after.grants && before.grants[gid].AgentLink? ==>
            after.grants[gid] == before.grants[gid])
    && forall gid :: gid in after.grants && gid !in before.grants && after.grants[gid].AgentLink? ==>
         after.grants[gid].expiresAt > at
  }

  /** One voice key per provider. */
  predicate VoiceKeyRules(p: Policy) {
    forall a, b ::
      (a in p.grants && b in p.grants && p.grants[a].VoiceKey? && p.grants[b].VoiceKey?
       && p.grants[a].provider == p.grants[b].provider) ==> a == b
  }

  /** The grants an op brings into the policy. */
  function Brought(p: Policy, op: Op): set<Grant> {
    match op
    case CreateGrant(g) => {g}
    case Loosen(policy) => set gid | gid in policy.grants && gid !in p.grants :: policy.grants[gid]
    case _ => {}
  }

  /** The one format a link is written in. */
  function LinkFormat(p: Policy, op: Op, signerCustody: Custody): Format {
    var brought := Brought(p, op);
    if exists g :: g in brought && g.VoiceKey? then V5
    else if op.RevokeAgent? || exists g :: g in brought && g.AgentLink? then V4
    else if exists g :: g in brought && g.Graduation? && g.guard.Some? then V3
    else if signerCustody.Passkey? && (op.Renew? || op.CreateGrant?) then V2
    else if exists g :: g in brought && g.GraduationPhone? then V2
    else V1
  }

  // ----- the step

  /** The signer of a link after genesis: an active key, its custody the one its material shows. A quarantined key's
      link already in the log stands. */
  function SignerOf(core: Core, fp: Fingerprint, newLink: bool): Result<Key, Error> {
    if fp !in core.keys then Err(SignerUnknown)
    else
      var k := core.keys[fp];
      if !k.Active() then Err(SignerRevoked)
      else if CustodyMismatch(k) && (newLink || !IsPasskeyMaterial(k.publicKey)) then Err(SignerQuarantined)
      else Ok(k)
  }

  function JudgeKeyOp(core: Core, op: Op, seqNo: nat, newLink: bool): Result<(map<Fingerprint, Key>, int), Error>
    requires !PolicyOp(op)
  {
    match op
    case Enrol(fp, _, _, _, _) =>
      var k :- EnrolledKey(op, seqNo, core.keys, newLink);
      Ok((core.keys[fp := k], Rank(LaptopPresence)))
    case RevokeKey(fp, _) =>
      var k :- RevokedKey(op, seqNo, core.keys, newLink);
      Ok((core.keys[fp := k], Rank(k.keyClass)))
  }

  /** The rank a policy link needs of its signer. */
  function NeededRank(op: Op, d: Delta, signer: Key): int
    requires PolicyOp(op) && !d.Noop?
  {
    if signer.custody.Passkey? && op.CreateGrant? then 2
    else if op.RevokeAgent? then 1
    else DeltaRank(d)
  }

  /** The bookkeeping of a policy link: per grant, the link that last changed it and the one that brought it in. */
  function Stamped(core: Core, after: Policy, op: Op, seqNo: nat): Core {
    core.(policy := after,
    grantSeqs := map gid | gid in after.grants ::
      if gid in core.policy.grants && core.policy.grants[gid] == after.grants[gid] && gid in core.grantSeqs
      then core.grantSeqs[gid] else seqNo,
    grantBorn := map gid | gid in after.grants ::
      if gid in core.policy.grants && gid in core.grantBorn then core.grantBorn[gid] else seqNo,
    agentRevoked := if op.RevokeAgent? then core.agentRevoked[(op.agentId, op.agentStoreId) := seqNo]
                    else core.agentRevoked)
  }

  function JudgePolicyOp(core: Core, op: Op, at: int, seqNo: nat, signer: Key): Result<Core, Error>
    requires PolicyOp(op)
  {
    var after :- ApplyPolicyOp(core.policy, op, at);
    var delta :- Classify(core.policy, after);
    if delta.Noop? then Err(ChangesNothing)
    else if !OpAllows(op, delta) then Err(OpDeltaMismatch)
    else if Rank(signer.keyClass) < NeededRank(op, delta, signer) then Err(RankTooLow)
    else if op.Renew? && op.gid in core.policy.grants && RenewNeedsLaptop(core.policy.grants[op.gid])
            && Rank(signer.keyClass) < Rank(LaptopPresence) then Err(RankTooLow)
    else if !GraduationRules(core.policy, after, core.keys, op) then Err(StateRule)
    else if !AgentLinkRules(core.policy, after, op, at) then Err(StateRule)
    else if !VoiceKeyRules(after) then Err(StateRule)
    else Ok(Stamped(core, after, op, seqNo))
  }

  /** Every op rule of a link after genesis, its signature aside. */
  function Judge(core: Core, rec: Record, fp: Fingerprint, newLink: bool): Result<Core, Error> {
    var signer :- SignerOf(core, fp, newLink);
    if signer.custody.Passkey? && !PasskeyActAllowed(rec.op, core.policy, fp) then Err(PasskeyActRefused)
    else
      var core' :-
        if PolicyOp(rec.op) then JudgePolicyOp(core, rec.op, rec.at, rec.seqNo, signer)
        else
          var (keys, rank) :- JudgeKeyOp(core, rec.op, rec.seqNo, newLink);
          if Rank(signer.keyClass) < rank then Err(RankTooLow) else Ok(core.(keys := keys));
      if rec.format != LinkFormat(core.policy, rec.op, signer.custody) then Err(WrongFormat) else Ok(core')
  }

  /** The first link: a laptop-presence key that enrols itself. */
  function JudgeGenesis(rec: Record, fp: Fingerprint, newLink: bool): Result<Core, Error> {
    if !rec.op.Enrol? || !rec.op.keyClass.LaptopPresence? || fp != rec.op.fingerprint || rec.format != V1
    then Err(BadGenesis)
    else
      var k :- EnrolledKey(rec.op, rec.seqNo, map[], newLink);
      Ok(Core(map[fp := k], GENESIS_POLICY, map[], map[], map[]))
  }

  function JudgeLink(state: Option<Snapshot>, rec: Record, fp: Fingerprint, newLink: bool): Result<Core, Error> {
    match state
    case None => JudgeGenesis(rec, fp, newLink)
    case Some(s) => Judge(s.core, rec, fp, newLink)
  }

  /** The place a link must take: after every link of `state`. */
  function NextSeq(state: Option<Snapshot>): nat {
    if state.None? then 1 else state.value.seqNo + 1
  }

  function HeadHash(state: Option<Snapshot>): Hash {
    if state.None? then NoHash else state.value.headHash
  }

  /** The chain, the record's envelope, the time order and the store. */
  function Envelope(state: Option<Snapshot>, row: Row): Result<Record, Error> {
    if row.seqNo != NextSeq(state) then Err(OutOfOrder)
    else if row.prevHash != HeadHash(state) || row.hash != LinkHash(HeadHash(state), row.text) then Err(BrokenChain)
    else match row.text
      case Unreadable(_) => Err(Malformed)
      case Canonical(rec) =>
        if rec.seqNo != row.seqNo then Err(Malformed)
        else if state.Some? && rec.at < state.value.headAt then Err(TimeWentBack)
        else if state.Some? && rec.storeId != state.value.storeId then Err(OtherStore)
        else Ok(rec)
  }

  /** The key that verifies the link: the enrolled signer. */
  function VerifyingKey(core': Core, fp: Fingerprint): Option<Key> {
    if fp in core'.keys then Some(core'.keys[fp]) else None
  }

  /** The signature verifies, and a passkey's (or a quarantined key's) passes the checks beside the verifier. */
  predicate SignatureHolds(signer: Key, row: Row, op: Op) {
    && Verifies(row.signature, signer.publicKey, Message(row.prevHash, row.text))
    && (signer.custody.Passkey? || CustodyMismatch(signer) ==>
          PasskeySignatureHolds(row.signature, op.RevokeGrant? || op.RevokeAgent?))
  }

  /** The state after `row`, or why it is refused. `newLink`: the row is being prepared or appended now. */
  function Step(state: Option<Snapshot>, row: Row, checkSignature: bool, newLink: bool): Result<Snapshot, Error> {
    var rec :- Envelope(state, row);
    var core :- JudgeLink(state, rec, row.signer, newLink);
    var signer := VerifyingKey(core, row.signer);
    if checkSignature && (signer.None? || !SignatureHolds(signer.value, row, rec.op)) then Err(SignatureRefused)
    else
      var hashes := if state.None? then [] else state.value.hashes;
      var signers := if state.None? then [] else state.value.signers;
      Ok(Snapshot(rec.storeId, row.seqNo, row.hash, core, hashes + [row.hash], rec.at, signers + [row.signer]))
  }

  /** The signer a link is verified with is the key it was judged by: a link that revokes its own signer changes
      neither that key's material nor its class nor its custody. */
  lemma VerifyingKeyIsSigner(core: Core, rec: Record, fp: Fingerprint, newLink: bool)
    requires Judge(core, rec, fp, newLink).Ok?
    ensures var after := Judge(core, rec, fp, newLink).value;
            && fp in core.keys && fp in after.keys
            && after.keys[fp].publicKey == core.keys[fp].publicKey
            && after.keys[fp].keyClass == core.keys[fp].keyClass
            && after.keys[fp].custody == core.keys[fp].custody
  {
  }

  /** What acceptance says of a policy link, unfolded once. */
  lemma PolicyLinkFacts(core: Core, rec: Record, fp: Fingerprint, newLink: bool)
    requires Judge(core, rec, fp, newLink).Ok? && PolicyOp(rec.op)
    ensures SignerOf(core, fp, newLink) == Ok(core.keys[fp])
    ensures var after, signer, op := Judge(core, rec, fp, newLink).value, core.keys[fp], rec.op;
            && ApplyPolicyOp(core.policy, op, rec.at) == Ok(after.policy)
            && Classify(core.policy, after.policy).Ok?
            && (var delta := Classify(core.policy, after.policy).value;
                !delta.Noop? && OpAllows(op, delta) && NeededRank(op, delta, signer) <= Rank(signer.keyClass))
            && (signer.custody.Passkey? ==> PasskeyActAllowed(op, core.policy, fp))
            && (op.Renew? && op.gid in core.policy.grants && RenewNeedsLaptop(core.policy.grants[op.gid]) ==>
                  signer.keyClass.LaptopPresence?)
            && GraduationRules(core.policy, after.policy, core.keys, op)
            && AgentLinkRules(core.policy, after.policy, op, rec.at)
            && VoiceKeyRules(after.policy)
            && after == Stamped(core, after.policy, op, rec.seqNo)
            && rec.format == LinkFormat(core.policy, op, signer.custody)
  {
    hide ApplyPolicyOp, Classify, GraduationRules, AgentLinkRules, VoiceKeyRules, LinkFormat, PasskeyActAllowed, OpAllows;
  }

  /** The state after a policy link is the stamped one. */
  lemma PolicyLinkStamped(core: Core, rec: Record, fp: Fingerprint, newLink: bool)
    requires Judge(core, rec, fp, newLink).Ok? && PolicyOp(rec.op)
    ensures var after := Judge(core, rec, fp, newLink).value;
            after == Stamped(core, after.policy, rec.op, rec.seqNo)
  {
    PolicyLinkFacts(core, rec, fp, newLink);
  }

  /** A key link touches nothing but keys. */
  lemma KeyLinkOnlyKeys(core: Core, rec: Record, fp: Fingerprint, newLink: bool)
    requires Judge(core, rec, fp, newLink).Ok? && !PolicyOp(rec.op)
    ensures var after := Judge(core, rec, fp, newLink).value;
            after == core.(keys := after.keys)
  {
    KeyLinkFacts(core, rec, fp, newLink);
  }

  /** What acceptance says of a key link, unfolded once. */
  lemma KeyLinkFacts(core: Core, rec: Record, fp: Fingerprint, newLink: bool)
    requires Judge(core, rec, fp, newLink).Ok? && !PolicyOp(rec.op)
    ensures SignerOf(core, fp, newLink) == Ok(core.keys[fp])
    ensures var after := Judge(core, rec, fp, newLink).value;
            && JudgeKeyOp(core, rec.op, rec.seqNo, newLink).Ok?
            && JudgeKeyOp(core, rec.op, rec.seqNo, newLink).value.1 <= Rank(core.keys[fp].keyClass)
            && after == core.(keys := JudgeKeyOp(core, rec.op, rec.seqNo, newLink).value.0)
            && !core.keys[fp].custody.Passkey?
            && rec.format == LinkFormat(core.policy, rec.op, core.keys[fp].custody)
  {
    hide LinkFormat, JudgeKeyOp;
  }
}
