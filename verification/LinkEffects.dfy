/** What each link of an accepted log says and does, op by op, read off the two states beside it and its record
    (levain/authority.py, `_step`, `_apply_op`, `_apply_policy_op`). */
module LinkEffects {
  import opened Wrappers
  import opened AuthorityModel
  import opened Classifier
  import opened AuthorityStep
  import opened AuthorityReplay
  import opened AgentLinks
  import opened KeyLife

  // ----- the link, its signer and its signature

  /** The key of the link's signer, in the state before it; the first link's is the key it enrols. */
  ghost function SignerKey(rows: seq<Row>, k: nat): Key
    requires Accepted(rows) && k < |rows|
    requires rows[k].signer in At(rows, k + 1).core.keys
  {
    At(rows, k + 1).core.keys[rows[k].signer]
  }

  /** The row carries the key's own signature over the predecessor's hash and the record; a WebAuthn key's was made with user
      verification, from the key's own origin, or for a revoke of grants from any port of its name. */
  predicate SignedBy(key: Key, row: Row, op: Op) {
    && row.signature.Signature? && row.signature.signedBy == key.publicKey
    && row.signature.over == Message(row.prevHash, row.text)
    && (key.custody == Passkey || WebAuthn(key.publicKey) ==>
          && row.signature.userVerified
          && (row.signature.origin == ExactOrigin
              || (row.signature.origin == OwnNameOtherPort && (op.RevokeGrant? || op.RevokeAgent?))))
  }

  /** Every link carries the signature of its signer, enrolled and unrevoked before it; the first, of the key it enrols. */
  lemma LinksAreSigned(rows: seq<Row>, k: nat)
    requires Accepted(rows) && k < |rows|
    ensures rows[k].signer in At(rows, k + 1).core.keys
    ensures k > 0 ==> rows[k].signer in At(rows, k).core.keys
                      && At(rows, k).core.keys[rows[k].signer].revokedSeq.None?
                      && At(rows, k).core.keys[rows[k].signer].publicKey == SignerKey(rows, k).publicKey
    ensures SignedBy(SignerKey(rows, k), rows[k], RecordAt(rows, k).op)
  {
    LinkFacts(rows, k);
    StepAt(rows, k);
    SignedStep(StateAt(rows, k), rows[k]);
    hide Replay, Step, Judge, JudgeLink;
    if k > 0 {
      StateShape(rows, k);
    }
  }

  lemma SignedStep(state: Option<Snapshot>, row: Row)
    requires Step(state, row, true, false).Ok?
    ensures row.text.Canonical? && row.signer in Step(state, row, true, false).value.core.keys
    ensures state.Some? ==> row.signer in state.value.core.keys
                            && state.value.core.keys[row.signer].revokedSeq.None?
                            && state.value.core.keys[row.signer].publicKey
                               == Step(state, row, true, false).value.core.keys[row.signer].publicKey
    ensures SignedBy(Step(state, row, true, false).value.core.keys[row.signer], row, row.text.rec.op)
  {
    var rec := row.text.rec;
    if state.Some? {
      VerifyingKeyIsSigner(state.value.core, rec, row.signer, false);
      SignerIsHeld(state.value.core, rec, row.signer);
    }
    hide Judge, JudgeGenesis;
  }

  lemma SignerIsHeld(core: Core, rec: Record, fp: Fingerprint)
    requires Judge(core, rec, fp, false).Ok?
    ensures fp in core.keys && core.keys[fp].revokedSeq.None?
    ensures core.keys[fp].custody == Passkey ==> WebAuthn(core.keys[fp].publicKey)
  {
  }

  // ----- key links

  /** Some unrevoked laptop-presence key is left. */
  ghost predicate LaptopLeft(keys: map<Fingerprint, Key>) {
    exists fp :: fp in keys && keys[fp].revokedSeq.None? && keys[fp].keyClass == LaptopPresence
  }

  /** `target` of `before` is held and unrevoked; `after` has it revoked at seq `n` with the declared compromise, which lies
      between its enrolment and this link, and every other key as it was. Without one, a laptop key's revoke leaves another. */
  ghost predicate RevokedAlone(before: map<Fingerprint, Key>, target: Fingerprint, since: Option<int>, n: nat,
                               after: map<Fingerprint, Key>) {
    && target in before && before[target].revokedSeq.None?
    && after == before[target := before[target].(revokedSeq := Some(n), compromisedSince := since)]
    && (since.Some? ==> before[target].enrolledSeq <= since.value < n)
    && (since.None? && before[target].keyClass == LaptopPresence ==> LaptopLeft(after))
  }

  lemma RevokeMeans(core: Core, rec: Record, signer: Fingerprint)
    requires Judge(core, rec, signer, false).Ok? && rec.op.RevokeKey?
    ensures var after := Judge(core, rec, signer, false).value;
            && after == core.(keys := after.keys)
            && RevokedAlone(core.keys, rec.op.target, rec.op.since, rec.seqNo, after.keys)
            && signer in core.keys && core.keys[signer].custody != Passkey
            && (core.keys[rec.op.target].keyClass == LaptopPresence ==> core.keys[signer].keyClass == LaptopPresence)
            && (core.keys[rec.op.target].keyClass == DisplayPhone ==> core.keys[signer].keyClass != Presence)
  {
    KeyLinkFacts(core, rec, signer, false);
    var op, keys, after := rec.op, core.keys, Judge(core, rec, signer, false).value;
    hide Judge;
    assert after.keys == keys[op.target := keys[op.target].(revokedSeq := Some(rec.seqNo), compromisedSince := op.since)];
    if op.since.None? && keys[op.target].keyClass == LaptopPresence {
      var fp :| fp in keys && fp != op.target && keys[fp].Active() && keys[fp].keyClass.LaptopPresence?;
      assert after.keys[fp] == keys[fp];
    }
  }

  /** A link that revokes a key revokes that key at this link and moves nothing else; it is signed by a key of at least the
      target's class, and by no passkey. */
  lemma RevokeKeyEffect(rows: seq<Row>, k: nat)
    requires Accepted(rows) && 1 <= k < |rows| && RecordAt(rows, k).op.RevokeKey?
    ensures var op, before, after := RecordAt(rows, k).op, At(rows, k).core, At(rows, k + 1).core;
            && RevokedAlone(before.keys, op.target, op.since, k + 1, after.keys)
            && after == before.(keys := after.keys)
            && rows[k].signer in before.keys && before.keys[rows[k].signer].custody != Passkey
            && (before.keys[op.target].keyClass == LaptopPresence ==> before.keys[rows[k].signer].keyClass == LaptopPresence)
            && (before.keys[op.target].keyClass == DisplayPhone ==> before.keys[rows[k].signer].keyClass != Presence)
  {
    LinkFacts(rows, k);
    hide Replay, Step, Judge, RevokedAlone;
    RevokeMeans(At(rows, k).core, RecordAt(rows, k), rows[k].signer);
  }

  /** From that link on the key signs nothing and is never enrolled again. */
  lemma RevokedSignsNoMore(rows: seq<Row>, k: nat, j: nat)
    requires Accepted(rows) && 1 <= k < j < |rows| && RecordAt(rows, k).op.RevokeKey?
    ensures rows[j].signer != RecordAt(rows, k).op.target
    ensures RecordAt(rows, j).op.Enrol? ==> RecordAt(rows, j).op.fingerprint != RecordAt(rows, k).op.target
    ensures var fp := RecordAt(rows, k).op.target;
            fp in At(rows, j + 1).core.keys && At(rows, j + 1).core.keys[fp].revokedSeq == Some(k + 1)
  {
    hide Replay, Step, Judge, LaptopLeft, Accepted, RecordAt;
    RevokeKeyEffect(rows, k);
    var fp := RecordAt(rows, k).op.target;
    assert fp in At(rows, k + 1).core.keys && At(rows, k + 1).core.keys[fp].revokedSeq == Some(k + 1);
    hide RevokedAlone;
    RevokedKeyIsDead(rows, k + 1, fp, j);
  }

  /** What an enrolled key's custody says of its material, its class and its type. */
  predicate CustodyFits(op: Op)
    requires op.Enrol?
  {
    var t := op.publicKey.keyType;
    && op.custody != FidoAttested
    && (op.custody == Passkey ==> op.keyClass == DisplayPhone && t == SkEcdsaP256)
    && (op.custody == Passphrase ==> t == Ed25519 || t == EcdsaP256)
    && (op.custody == Tpm ==> t == EcdsaP256)
    && (op.custody in {TouchId, Fido, WindowsHello} ==> t == SkEd25519 || t == SkEcdsaP256)
    && (op.custody == Unstated && op.keyClass == LaptopPresence ==> op.legacy && t != OtherType)
  }

  /** `op` enrols the key it declares at seq `n`, one `before` does not hold, and every other key stays. */
  ghost predicate EnrolledAlone(before: map<Fingerprint, Key>, op: Op, n: nat, after: map<Fingerprint, Key>)
    requires op.Enrol?
  {
    && op.fingerprint == Fingerprint(op.publicKey) && op.fingerprint !in before && CustodyFits(op)
    && after == before[op.fingerprint :=
         Key(op.fingerprint, op.publicKey, op.keyClass, n, None, None, op.legacy, op.custody)]
  }

  lemma EnrolMeans(core: Core, rec: Record, signer: Fingerprint)
    requires Judge(core, rec, signer, false).Ok? && rec.op.Enrol?
    ensures var after := Judge(core, rec, signer, false).value;
            && after == core.(keys := after.keys)
            && EnrolledAlone(core.keys, rec.op, rec.seqNo, after.keys)
            && signer in core.keys && core.keys[signer].keyClass == LaptopPresence && core.keys[signer].custody != Passkey
  {
    KeyLinkFacts(core, rec, signer, false);
    hide Judge;
  }

  /** A link that enrols a key adds that key as declared and moves nothing else; a laptop-presence key signed it. */
  lemma EnrolEffect(rows: seq<Row>, k: nat)
    requires Accepted(rows) && 1 <= k < |rows| && RecordAt(rows, k).op.Enrol?
    ensures var op, before, after := RecordAt(rows, k).op, At(rows, k).core, At(rows, k + 1).core;
            && EnrolledAlone(before.keys, op, k + 1, after.keys)
            && after == before.(keys := after.keys)
            && rows[k].signer in before.keys
            && before.keys[rows[k].signer].keyClass == LaptopPresence && before.keys[rows[k].signer].custody != Passkey
  {
    LinkFacts(rows, k);
    hide Replay, Step, Judge, EnrolledAlone;
    EnrolMeans(At(rows, k).core, RecordAt(rows, k), rows[k].signer);
  }

  /** The first link: a laptop-presence key enrols itself into an empty policy. */
  lemma GenesisEffect(rows: seq<Row>)
    requires Accepted(rows) && rows != []
    ensures var op, after := RecordAt(rows, 0).op, At(rows, 1).core;
            && op.Enrol? && op.keyClass == LaptopPresence && rows[0].signer == op.fingerprint == Fingerprint(op.publicKey)
            && CustodyFits(op) && RecordAt(rows, 0).format == V1
            && after == Core(map[op.fingerprint := Key(op.fingerprint, op.publicKey, LaptopPresence, 1, None, None, op.legacy,
                                                       op.custody)],
                             Policy(map[], map[], map[]), map[], map[], map[])
  {
    LinkFacts(rows, 0);
    StateShape(rows, 0);
    hide Replay, Step, Judge, Accepted, RecordAt;
  }

  // ----- policy links

  predicate HasExpiry(g: Grant) {
    !g.VoiceKey? && !g.GraduationPhone?
  }

  /** `n` says what `o` says, but for its expiry. */
  predicate SameButExpiry(o: Grant, n: Grant) {
    HasExpiry(o) && HasExpiry(n) && n == o.(expiresAt := n.expiresAt)
  }

  /** Equal meaning is exactly equality but for the expiry. */
  lemma MeaningIsAllButExpiry(o: Grant, n: Grant)
    ensures Meaning(o) == Meaning(n) <==> o == n || SameButExpiry(o, n)
  {
    if HasExpiry(o) && HasExpiry(n) {
      assert o.(expiresAt := 0) == n.(expiresAt := 0) <==> n == o.(expiresAt := n.expiresAt);
    }
  }

  predicate IsLinkOf(g: Grant, agentId: Name, storeId: Name) {
    g.AgentLink? && g.agentId == agentId && g.storeId == storeId
  }

  predicate IsSeat(g: Grant) {
    g.SeatLease? || g.SeatEgress?
  }

  /** How long a grant brought in may last past its link. */
  predicate WithinItsCap(g: Grant, at: int) {
    && (HasExpiry(g) && !g.Egress? ==> g.expiresAt <= at + 30 * DAY)
    && (IsSeat(g) ==> g.expiresAt <= at + 14 * DAY)
  }

  /** A consent-mcp grant declares some field of some tool, of tools it names only, and no tool without one. */
  predicate SaysItsFields(g: Grant) {
    g.ConsentMcp? ==>
      && (exists t :: t in g.fields)
      && forall t :: t in g.fields ==> t in g.tools && exists f :: f in g.fields[t]
  }

  /** What a policy op makes of a policy. */
  ghost predicate OpEffect(before: Policy, op: Op, at: int, after: Policy) {
    match op
    case Raise(verb, tier) =>
      && after == before.(raiseTo := before.raiseTo[verb := tier])
      && tier != C1 && (verb in before.raiseTo ==> before.raiseTo[verb] == C1 || (before.raiseTo[verb] == T2 && tier == T3))
    case Loosen(policy) =>
      && after == policy
      && forall gid :: gid in policy.grants ==>
           var g := policy.grants[gid]; g.id == gid && SaysItsFields(g) && WithinItsCap(g, at)
    case Timeouts(timeouts) => after == before.(timeouts := timeouts) && timeouts != before.timeouts
    case CreateGrant(g) =>
      && g.id !in before.grants && after == before.(grants := before.grants[g.id := g])
      && SaysItsFields(g) && WithinItsCap(g, at) && (HasExpiry(g) && !g.Egress? ==> g.expiresAt > at)
    case RevokeGrant(gid) => gid in before.grants && after == before.(grants := before.grants - {gid})
    case RevokeAgent(agentId, storeId) =>
      && (exists gid :: gid in before.grants && IsLinkOf(before.grants[gid], agentId, storeId))
      && after == before.(grants := map gid | gid in before.grants && !IsLinkOf(before.grants[gid], agentId, storeId)
                                      :: before.grants[gid])
    case Renew(gid, expiresAt, signedAt) =>
      && gid in before.grants && signedAt == at && HasExpiry(before.grants[gid])
      && at < before.grants[gid].expiresAt < expiresAt <= at + 30 * DAY
      && (IsSeat(before.grants[gid]) ==> expiresAt <= at + 14 * DAY)
      && after == before.(grants := before.grants[gid := before.grants[gid].(expiresAt := expiresAt)])
    case Enrol(_, _, _, _, _) => false
    case RevokeKey(_, _) => false
  }

  /** Which class of key signs which op. */
  ghost predicate SignerMay(before: Policy, op: Op, signer: Key) {
    && (op.Raise? ==> signer.keyClass != Presence)
    && (op.Loosen? || op.Timeouts? ==> signer.keyClass == LaptopPresence)
    && (op.CreateGrant? ==> signer.keyClass == LaptopPresence || (signer.custody == Passkey && signer.keyClass != Presence))
    && (op.Renew? && op.gid in before.grants ==>
          && signer.keyClass != Presence
          && (IsSeat(before.grants[op.gid]) || before.grants[op.gid].AgentLink? ==> signer.keyClass == LaptopPresence))
    && (signer.custody == Passkey ==>
          || (op.RevokeGrant? && op.gid in before.grants
              && !before.grants[op.gid].Egress? && !before.grants[op.gid].EgressKey?)
          || op.RevokeAgent?
          || (op.Renew? && op.gid in before.grants && before.grants[op.gid].Graduation?)
          || (op.CreateGrant? && op.grant.Graduation?
              && exists gid :: gid in before.grants && before.grants[gid].GraduationPhone?
                               && signer.fingerprint in before.grants[gid].passkeys))
  }

  /** The stamps after a policy link at seq `n`: changed grants are stamped, new ones born, the agent's revoke marked. */
  ghost predicate StampEffect(before: Core, op: Op, n: nat, after: Core) {
    && after.grantSeqs.Keys == after.policy.grants.Keys && after.grantBorn.Keys == after.policy.grants.Keys
    && (forall gid :: gid in after.policy.grants ==>
          if gid in before.policy.grants then
            && gid in before.grantBorn && gid in before.grantSeqs && after.grantBorn[gid] == before.grantBorn[gid]
            && after.grantSeqs[gid] == (if before.policy.grants[gid] == after.policy.grants[gid] then before.grantSeqs[gid] else n)
          else after.grantBorn[gid] == n && after.grantSeqs[gid] == n)
    && after.agentRevoked == (if op.RevokeAgent? then before.agentRevoked[(op.agentId, op.agentStoreId) := n]
                              else before.agentRevoked)
  }

  predicate IsKeyOp(op: Op) {
    op.Enrol? || op.RevokeKey?
  }

  /** What a policy link does, whole. */
  ghost predicate PolicyLinkDone(before: Core, rec: Record, signer: Fingerprint, after: Core) {
    && signer in before.keys
    && OpEffect(before.policy, rec.op, rec.at, after.policy)
    && SignerMay(before.policy, rec.op, before.keys[signer])
    && StampEffect(before, rec.op, rec.seqNo, after)
    && after.keys == before.keys
  }

  lemma PolicyLinkMeans(core: Core, rec: Record, fp: Fingerprint)
    requires Judge(core, rec, fp, false).Ok? && PolicyOp(rec.op)
    requires fp in core.keys ==> core.keys[fp].fingerprint == fp
    requires core.grantSeqs.Keys == core.grantBorn.Keys == core.policy.grants.Keys
    ensures PolicyLinkDone(core, rec, fp, Judge(core, rec, fp, false).value)
  {
    hide Judge, OpEffect, SignerMay, StampEffect, GraduationRules, AgentLinkRules, VoiceKeyRules, PasskeyActAllowed, LinkFormat;
    PolicyLinkFacts(core, rec, fp, false);
    SignerIsHeld(core, rec, fp);
    OpMeans(core.policy, rec.op, rec.at);
    SignerMeans(core, rec, fp);
    StampsMean(core, Judge(core, rec, fp, false).value.policy, rec.op, rec.seqNo);
  }

  /** A policy link does to the policy just what its op says, is signed by a key that may, stamps what it changed, and moves
      no key. */
  lemma PolicyLinkEffect(rows: seq<Row>, k: nat)
    requires Accepted(rows) && 1 <= k < |rows| && !IsKeyOp(RecordAt(rows, k).op)
    ensures RecordAt(rows, k).seqNo == k + 1
    ensures PolicyLinkDone(At(rows, k).core, RecordAt(rows, k), rows[k].signer, At(rows, k + 1).core)
  {
    LinkFacts(rows, k);
    KeysComeFromLaptops(rows, k);
    StampsThrough(rows, k);
    hide Replay, Step, Judge, PolicyLinkDone;
    PolicyLinkMeans(At(rows, k).core, RecordAt(rows, k), rows[k].signer);
  }

  lemma OpMeans(before: Policy, op: Op, at: int)
    requires PolicyOp(op) && ApplyPolicyOp(before, op, at).Ok?
    requires Classify(before, ApplyPolicyOp(before, op, at).value).Ok?
    requires !Classify(before, ApplyPolicyOp(before, op, at).value).value.Noop?
    requires OpAllows(op, Classify(before, ApplyPolicyOp(before, op, at).value).value)
    ensures OpEffect(before, op, at, ApplyPolicyOp(before, op, at).value)
  {
    var after := ApplyPolicyOp(before, op, at).value;
    hide Classify, GrantValid, SaysItsFields, WithinItsCap;
    forall g ensures GrantValid(g, at) <==> SaysItsFields(g) && WithinItsCap(g, at) {
      ValidMeans(g, at);
    }
    if op.Raise? {
      RaiseMeans(before, op.verb, op.tier);
    }
    EqualPoliciesNoop(before);
    assert op.Timeouts? && op.timeouts == before.timeouts ==> after == before;
    assert (op.RevokeAgent? && forall gid :: gid in before.grants ==> !LinkOfAgent(before.grants[gid], op.agentId, op.agentStoreId))
           ==> after.grants == before.grants;
  }

  lemma ValidMeans(g: Grant, at: int)
    ensures GrantValid(g, at) <==> SaysItsFields(g) && WithinItsCap(g, at)
  {
    DeclaredMeans(g);
    hide SaysItsFields, WellDeclared;
  }

  lemma DeclaredMeans(g: Grant)
    ensures WellDeclared(g) <==> SaysItsFields(g)
  {
    if g.ConsentMcp? {
      assert g.fields != map[] <==> exists t :: t in g.fields;
      forall t | t in g.fields ensures g.fields[t] != map[] <==> exists f :: f in g.fields[t] {}
    }
  }

  /** A raise that tightens sets the floor it declares, above the one it finds. */
  lemma RaiseMeans(before: Policy, verb: Name, tier: Tier)
    requires Classify(before, before.(raiseTo := before.raiseTo[verb := tier])) == Ok(Tighten)
    ensures tier != C1 && (verb in before.raiseTo ==> before.raiseTo[verb] == C1 || (before.raiseTo[verb] == T2 && tier == T3))
  {
    var after := before.(raiseTo := before.raiseTo[verb := tier]);
    assert forall g :: g in Gids(before, after) ==> GrantDelta(before, after, g) == Ok(Same);
    assert ChangedGrants(before, after) == {};
    assert verb in Verbs(before, after) && Floor(after, verb) == tier;
    assert forall v :: v in Verbs(before, after) && v != verb ==> Floor(after, v) == Floor(before, v);
    assert Floor(before, verb) == tier ==> MovedVerbs(before, after) == {};
    assert Floor(before, verb) != tier ==> verb in MovedVerbs(before, after);
  }

  lemma SignerMeans(core: Core, rec: Record, fp: Fingerprint)
    requires Judge(core, rec, fp, false).Ok? && PolicyOp(rec.op)
    requires fp in core.keys && core.keys[fp].fingerprint == fp
    ensures SignerMay(core.policy, rec.op, core.keys[fp])
  {
    PolicyLinkFacts(core, rec, fp, false);
    var signer, op := core.keys[fp], rec.op;
    hide Judge, Classify, GraduationRules, AgentLinkRules, VoiceKeyRules, LinkFormat, Stamped;
    if op.CreateGrant? && signer.custody == Passkey {
      assert OptIn(core.policy).Some?;
    }
    if op.Timeouts? {
      TimeoutsLoosen(core.policy, op.timeouts);
    }
  }

  /** A change of the timeouts is never provably stricter. */
  lemma TimeoutsLoosen(p: Policy, timeouts: map<Name, Name>)
    ensures Classify(p, p.(timeouts := timeouts)) == Ok(if timeouts == p.timeouts then Noop else LoosenDelta)
  {
    var after := p.(timeouts := timeouts);
    if timeouts == p.timeouts {
      assert after == p;
      EqualPoliciesNoop(p);
    } else {
      assert forall g :: g in Gids(p, after) ==> GrantDelta(p, after, g) == Ok(Same);
    }
  }

  lemma StampsMean(before: Core, after: Policy, op: Op, n: nat)
    requires before.grantSeqs.Keys == before.grantBorn.Keys == before.policy.grants.Keys
    ensures StampEffect(before, op, n, Stamped(before, after, op, n))
  {
  }

  // ----- what a link may leave standing

  /** The rules on the whole policy: one grant of each kind that takes one, and none changed out of turn. */
  ghost predicate KeptInTurn(before: Core, op: Op, at: int, after: Policy) {
    forall gid :: gid in after.grants ==>
      var g := after.grants[gid];
      if gid in before.policy.grants then
        && (before.policy.grants[gid].AgentLink? && !op.Renew? ==> g == before.policy.grants[gid])
        && (before.policy.grants[gid].Graduation? && !op.Renew? ==>
              HasExpiry(g) && g.expiresAt == before.policy.grants[gid].expiresAt)
      else
        && (g.AgentLink? ==> g.expiresAt > at)
        && (g.GraduationPhone? ==>
              forall fp :: fp in g.passkeys ==>
                fp in before.keys && before.keys[fp].revokedSeq.None? && before.keys[fp].custody == Passkey
                && WebAuthn(before.keys[fp].publicKey))
  }

  lemma RulesMean(before: Core, op: Op, at: int, after: Policy)
    requires GraduationRules(before.policy, after, before.keys, op) && AgentLinkRules(before.policy, after, op, at)
    ensures KeptInTurn(before, op, at, after)
  {
  }

  /** A policy link changes a standing agent link or a graduation policy's expiry only in a renew; an opt-in it brings in
      names unrevoked passkeys only. */
  lemma PolicyLinkKeepsTurn(rows: seq<Row>, k: nat)
    requires Accepted(rows) && 1 <= k < |rows| && !IsKeyOp(RecordAt(rows, k).op)
    ensures KeptInTurn(At(rows, k).core, RecordAt(rows, k).op, RecordAt(rows, k).at, At(rows, k + 1).core.policy)
  {
    LinkFacts(rows, k);
    hide Replay, Step, Judge, KeptInTurn;
    hide ApplyPolicyOp, Classify, GraduationRules, AgentLinkRules, VoiceKeyRules, PasskeyActAllowed, LinkFormat;
    PolicyLinkFacts(At(rows, k).core, RecordAt(rows, k), rows[k].signer, false);
    RulesMean(At(rows, k).core, RecordAt(rows, k).op, RecordAt(rows, k).at, At(rows, k + 1).core.policy);
  }

  /** At most one opt-in, at most one voice key per provider, and every grant under its own id. */
  ghost predicate OneOfEach(p: Policy) {
    && (forall gid :: gid in p.grants ==> p.grants[gid].id == gid)
    && forall a, b :: a in p.grants && b in p.grants ==>
         && (p.grants[a].GraduationPhone? && p.grants[b].GraduationPhone? ==> a == b)
         && (p.grants[a].VoiceKey? && p.grants[b].VoiceKey? && p.grants[a].provider == p.grants[b].provider ==> a == b)
  }

  lemma OpKeepsIds(p: Policy, op: Op, at: int)
    requires PolicyOp(op) && ApplyPolicyOp(p, op, at).Ok?
    requires forall gid :: gid in p.grants ==> p.grants[gid].id == gid
    ensures forall gid :: gid in ApplyPolicyOp(p, op, at).value.grants ==> ApplyPolicyOp(p, op, at).value.grants[gid].id == gid
  {
  }

  lemma RulesLeaveOne(before: Policy, op: Op, keys: map<Fingerprint, Key>, after: Policy)
    requires GraduationRules(before, after, keys, op) && VoiceKeyRules(after)
    requires forall gid :: gid in after.grants ==> after.grants[gid].id == gid
    ensures OneOfEach(after)
  {
  }

  /** In every state of an accepted log. */
  lemma {:induction false} OneOfEachHolds(rows: seq<Row>, k: nat)
    requires Accepted(rows) && 1 <= k <= |rows|
    ensures OneOfEach(At(rows, k).core.policy)
    decreases k
  {
    hide Replay, Step, Judge;
    if k == 1 {
      GenesisEffect(rows);
    } else {
      OneOfEachHolds(rows, k - 1);
      LinkFacts(rows, k - 1);
      var core, rec, fp := At(rows, k - 1).core, RecordAt(rows, k - 1), rows[k - 1].signer;
      if PolicyOp(rec.op) {
        hide ApplyPolicyOp, Classify, GraduationRules, AgentLinkRules, VoiceKeyRules, PasskeyActAllowed, LinkFormat;
        PolicyLinkFacts(core, rec, fp, false);
        OpKeepsIds(core.policy, rec.op, rec.at);
        RulesLeaveOne(core.policy, rec.op, core.keys, At(rows, k).core.policy);
      } else {
        KeyLinkOnlyKeys(core, rec, fp, false);
      }
    }
  }

  // ----- the format of a link

  /** A grant new in `after` of the kind `VoiceKey`, `AgentLink`, guarded `Graduation` or `GraduationPhone`. */
  ghost predicate Brings(before: Policy, after: Policy, format: Format) {
    exists gid :: gid in after.grants && gid !in before.grants &&
      var g := after.grants[gid];
      match format
      case V1 => true
      case V2 => g.GraduationPhone?
      case V3 => g.Graduation? && g.guard.Some?
      case V4 => g.AgentLink?
      case V5 => g.VoiceKey?
  }

  /** The format a policy link is written in, exactly: the highest one that what it brings in, or who signs it, asks for. */
  ghost predicate FormatFits(before: Policy, op: Op, signer: Key, after: Policy, format: Format) {
    && (format == V5 <==> Brings(before, after, V5))
    && (format == V4 <==> !Brings(before, after, V5) && (op.RevokeAgent? || Brings(before, after, V4)))
    && (format == V3 <==> !Brings(before, after, V5) && !Brings(before, after, V4) && Brings(before, after, V3))
    && (format == V2 <==> !Brings(before, after, V5) && !Brings(before, after, V4) && !Brings(before, after, V3)
                          && (Brings(before, after, V2)
                              || (signer.custody == Passkey && (op.Renew? || op.CreateGrant?))))
  }

  lemma FormatMeans(p: Policy, op: Op, at: int, signer: Key)
    requires PolicyOp(op) && ApplyPolicyOp(p, op, at).Ok?
    ensures FormatFits(p, op, signer, ApplyPolicyOp(p, op, at).value, LinkFormat(p, op, signer.custody))
  {
    var after := ApplyPolicyOp(p, op, at).value;
    forall gid | gid in after.grants && gid !in p.grants ensures after.grants[gid] in Brought(p, op) {}
    forall g | g in Brought(p, op) ensures exists gid :: gid in after.grants && gid !in p.grants && after.grants[gid] == g {
      if op.CreateGrant? {
        assert after.grants[g.id] == g;
      }
    }
  }

  /** Every link is written in exactly the format it needs; a key link in the first. */
  lemma FormatExact(rows: seq<Row>, k: nat)
    requires Accepted(rows) && 1 <= k < |rows|
    ensures var rec, before, after := RecordAt(rows, k), At(rows, k).core, At(rows, k + 1).core;
            && rows[k].signer in before.keys
            && (if IsKeyOp(rec.op) then rec.format == V1
                else FormatFits(before.policy, rec.op, before.keys[rows[k].signer], after.policy, rec.format))
  {
    LinkFacts(rows, k);
    hide Replay, Step, Judge, FormatFits;
    var core, rec, fp := At(rows, k).core, RecordAt(rows, k), rows[k].signer;
    SignerIsHeld(core, rec, fp);
    if PolicyOp(rec.op) {
      hide ApplyPolicyOp, Classify, GraduationRules, AgentLinkRules, VoiceKeyRules, PasskeyActAllowed, LinkFormat;
      PolicyLinkFacts(core, rec, fp, false);
      FormatMeans(core.policy, rec.op, rec.at, core.keys[fp]);
    } else {
      KeyLinkFacts(core, rec, fp, false);
    }
  }
}
