/** Exactly which links a log takes (levain/authority.py, `_step`, `_apply_op`, `_apply_policy_op`, `classify`). */
module LinkVerdicts {
  import opened Wrappers
  import opened AuthorityModel
  import opened Classifier
  import opened AuthorityStep
  import opened AuthorityReplay
  import opened KeyLife
  import opened AgentLinks
  import opened LinkEffects

  // ----- the verdict on each op

  /** One grant moved, and nothing else: the verdict is its change's. */
  lemma OneGrantVerdict(before: Policy, after: Policy, gid: Name, c: Change)
    requires after.raiseTo == before.raiseTo && after.timeouts == before.timeouts
    requires gid in Gids(before, after) && GrantDelta(before, after, gid) == Ok(c) && c != Same
    requires forall g :: g in Gids(before, after) && g != gid ==> GrantDelta(before, after, g) == Ok(Same)
    ensures Classify(before, after) == Ok(match c
                                          case Same => Noop
                                          case Extended => RenewDelta
                                          case Tighter => Tighten
                                          case Looser => LoosenDelta
                                          case Removed => GrantRevoke)
  {
    hide GrantDelta;
    assert MovedVerbs(before, after) == {};
    assert ChangedGrants(before, after) == {gid};
    assert SomeGrant(before, after, c);
    assert forall d :: d != Same && d != c ==> !SomeGrant(before, after, d);
  }

  lemma RevokeVerdict(p: Policy, gid: Name)
    requires gid in p.grants
    ensures Classify(p, p.(grants := p.grants - {gid})) == Ok(GrantRevoke)
  {
    OneGrantVerdict(p, p.(grants := p.grants - {gid}), gid, Removed);
  }

  lemma CreateVerdict(p: Policy, g: Grant)
    requires g.id !in p.grants
    ensures Classify(p, p.(grants := p.grants[g.id := g])) == Ok(LoosenDelta)
  {
    OneGrantVerdict(p, p.(grants := p.grants[g.id := g]), g.id, Looser);
  }

  lemma LongerIsExtended(g: Grant, expiresAt: int)
    requires HasExpiry(g) && g.expiresAt < expiresAt
    ensures GrantChange(g, g.(expiresAt := expiresAt)) == Ok(Extended)
  {
  }

  lemma RenewVerdict(p: Policy, gid: Name, expiresAt: int)
    requires gid in p.grants && HasExpiry(p.grants[gid]) && p.grants[gid].expiresAt < expiresAt
    ensures Classify(p, p.(grants := p.grants[gid := p.grants[gid].(expiresAt := expiresAt)])) == Ok(RenewDelta)
  {
    LongerIsExtended(p.grants[gid], expiresAt);
    hide GrantChange;
    var after := p.(grants := p.grants[gid := p.grants[gid].(expiresAt := expiresAt)]);
    assert forall g :: g in p.grants && g != gid ==> GrantDelta(p, after, g) == Ok(Same) by { SameIsSame(p, after, gid); }
    OneGrantVerdict(p, after, gid, Extended);
  }

  lemma SameIsSame(before: Policy, after: Policy, gid: Name)
    ensures forall g :: g in before.grants && g in after.grants && before.grants[g] == after.grants[g] ==>
              GrantDelta(before, after, g) == Ok(Same)
  {
  }

  /** Raising a floor above the one found tightens. */
  lemma RaiseVerdict(p: Policy, verb: Name, tier: Tier)
    requires tier != C1 && (verb in p.raiseTo ==> p.raiseTo[verb] == C1 || (p.raiseTo[verb] == T2 && tier == T3))
    ensures Classify(p, p.(raiseTo := p.raiseTo[verb := tier])) == Ok(Tighten)
  {
    var after := p.(raiseTo := p.raiseTo[verb := tier]);
    assert forall g :: g in Gids(p, after) ==> GrantDelta(p, after, g) == Ok(Same);
    assert ChangedGrants(p, after) == {};
    assert forall v :: v in Verbs(p, after) && v != verb ==> Floor(after, v) == Floor(p, v);
    assert verb in MovedVerbs(p, after);
  }

  /** Taking an agent's links away is a revoke of one, or tightens. */
  lemma RevokeAgentVerdict(p: Policy, after: Policy, agentId: Name, storeId: Name)
    requires exists gid :: gid in p.grants && IsLinkOf(p.grants[gid], agentId, storeId)
    requires after == p.(grants := map gid | gid in p.grants && !IsLinkOf(p.grants[gid], agentId, storeId) :: p.grants[gid])
    ensures Classify(p, after) in {Ok(GrantRevoke), Ok(Tighten)}
  {
    var gid :| gid in p.grants && IsLinkOf(p.grants[gid], agentId, storeId);
    assert MovedVerbs(p, after) == {};
    assert forall g :: g in Gids(p, after) ==> GrantDelta(p, after, g) in {Ok(Same), Ok(Removed)};
    assert gid in ChangedGrants(p, after);
  }

  // ----- a policy link

  /** The signer is held and unrevoked, and WebAuthn where its custody is passkey. */
  ghost predicate SignerStands(core: Core, fp: Fingerprint) {
    fp in core.keys && core.keys[fp].revokedSeq.None? && (core.keys[fp].custody == Passkey ==> WebAuthn(core.keys[fp].publicKey))
  }

  /** A policy op takes `before` to `after`: what it does, who signs it, what it leaves, and the format it is written in. A
      loosening is one by the classifier's verdict. */
  ghost predicate PolicyLinkFits(before: Core, rec: Record, fp: Fingerprint, after: Policy)
    requires fp in before.keys
  {
    && OpEffect(before.policy, rec.op, rec.at, after)
    && SignerMay(before.policy, rec.op, before.keys[fp])
    && KeptInTurn(before, rec.op, rec.at, after) && OneOfEach(after)
    && FormatFits(before.policy, rec.op, before.keys[fp], after, rec.format)
    && (rec.op.Loosen? ==> Classify(before.policy, after) == Ok(LoosenDelta))
  }

  /** Keys stand under their own fingerprints, grants under their own ids, one of each kind that takes one. */
  ghost predicate WellKept(core: Core) {
    && (forall fp :: fp in core.keys ==> core.keys[fp].fingerprint == fp)
    && OneOfEach(core.policy)
    && core.grantSeqs.Keys == core.grantBorn.Keys == core.policy.grants.Keys
  }

  lemma OpApplies(p: Policy, op: Op, at: int, after: Policy)
    requires PolicyOp(op) && OpEffect(p, op, at, after)
    ensures ApplyPolicyOp(p, op, at) == Ok(after)
  {
    forall g ensures GrantValid(g, at) <==> SaysItsFields(g) && WithinItsCap(g, at) {
      ValidMeans(g, at);
    }
    if op.RevokeAgent? {
      assert forall g :: LinkOfAgent(g, op.agentId, op.agentStoreId) == IsLinkOf(g, op.agentId, op.agentStoreId);
      assert after.grants == ApplyPolicyOp(p, op, at).value.grants;
    }
    hide GrantValid, SaysItsFields, WithinItsCap;
  }

  /** What is declared is what is computed. */
  lemma OpVerdict(p: Policy, op: Op, at: int, after: Policy)
    requires PolicyOp(op) && OpEffect(p, op, at, after)
    requires op.Loosen? ==> Classify(p, after) == Ok(LoosenDelta)
    ensures Classify(p, after).Ok? && !Classify(p, after).value.Noop? && OpAllows(op, Classify(p, after).value)
    ensures DeltaRank(Classify(p, after).value) == (if op.RevokeGrant? then 1 else if op.Raise? || op.Renew? then 2
                                                    else if op.RevokeAgent? then DeltaRank(Classify(p, after).value) else 3)
  {
    hide Classify;
    if op.Raise? {
      RaiseVerdict(p, op.verb, op.tier);
    } else if op.Timeouts? {
      TimeoutsLoosen(p, op.timeouts);
    } else if op.CreateGrant? {
      CreateVerdict(p, op.grant);
    } else if op.RevokeGrant? {
      RevokeVerdict(p, op.gid);
    } else if op.Renew? {
      RenewVerdict(p, op.gid, op.expiresAt);
    } else if op.RevokeAgent? {
      RevokeAgentVerdict(p, after, op.agentId, op.agentStoreId);
    }
  }

  lemma RulesKept(before: Core, op: Op, at: int, after: Policy)
    requires KeptInTurn(before, op, at, after) && OneOfEach(after)
    ensures GraduationRules(before.policy, after, before.keys, op) && AgentLinkRules(before.policy, after, op, at)
    ensures VoiceKeyRules(after)
  {
  }

  lemma OptInNames(p: Policy, fp: Fingerprint)
    requires OneOfEach(p) && exists gid :: gid in p.grants && p.grants[gid].GraduationPhone? && fp in p.grants[gid].passkeys
    ensures OptIn(p).Some? && OptIn(p).value.GraduationPhone? && fp in OptIn(p).value.passkeys
  {
  }

  /** The one format is the fitting one. */
  lemma FormatIsOne(p: Policy, op: Op, signer: Key, after: Policy, a: Format, b: Format)
    requires FormatFits(p, op, signer, after, a) && FormatFits(p, op, signer, after, b)
    ensures a == b
  {
    hide Brings;
  }

  lemma PasskeyMay(core: Core, op: Op, fp: Fingerprint, at: int, after: Policy)
    requires fp in core.keys && core.keys[fp].fingerprint == fp && core.keys[fp].custody == Passkey
    requires OneOfEach(core.policy) && SignerMay(core.policy, op, core.keys[fp]) && OpEffect(core.policy, op, at, after)
    ensures PasskeyActAllowed(op, core.policy, fp)
  {
    if op.CreateGrant? {
      OptInNames(core.policy, fp);
    }
    hide OptIn, OneOfEach;
  }

  /** Its signer's class suffices. */
  lemma RankSuffices(p: Policy, op: Op, at: int, after: Policy, signer: Key)
    requires PolicyOp(op) && SignerMay(p, op, signer) && OpEffect(p, op, at, after)
    requires op.Loosen? ==> Classify(p, after) == Ok(LoosenDelta)
    ensures Classify(p, after).Ok? && !Classify(p, after).value.Noop?
    ensures NeededRank(op, Classify(p, after).value, signer) <= Rank(signer.keyClass)
    ensures op.Renew? && op.gid in p.grants && RenewNeedsLaptop(p.grants[op.gid]) ==> signer.keyClass == LaptopPresence
  {
    OpVerdict(p, op, at, after);
    hide Classify;
  }

  lemma FittingPolicyOp(core: Core, rec: Record, fp: Fingerprint, after: Policy)
    requires PolicyOp(rec.op) && fp in core.keys && PolicyLinkFits(core, rec, fp, after)
    ensures JudgePolicyOp(core, rec.op, rec.at, rec.seqNo, core.keys[fp]).Ok?
    ensures rec.format == LinkFormat(core.policy, rec.op, core.keys[fp].custody)
  {
    hide ApplyPolicyOp, Classify, OpAllows, NeededRank, GraduationRules, AgentLinkRules, VoiceKeyRules, LinkFormat,
         OpEffect, SignerMay, KeptInTurn, OneOfEach, FormatFits, Stamped;
    var signer, op := core.keys[fp], rec.op;
    OpApplies(core.policy, op, rec.at, after);
    OpVerdict(core.policy, op, rec.at, after);
    RankSuffices(core.policy, op, rec.at, after, signer);
    RulesKept(core, op, rec.at, after);
    FormatMeans(core.policy, op, rec.at, signer);
    FormatIsOne(core.policy, op, signer, after, rec.format, LinkFormat(core.policy, op, signer.custody));
  }

  lemma FittingPolicyLink(core: Core, rec: Record, fp: Fingerprint, after: Policy)
    requires WellKept(core) && PolicyOp(rec.op) && SignerStands(core, fp) && PolicyLinkFits(core, rec, fp, after)
    ensures Judge(core, rec, fp, false).Ok?
  {
    FittingPolicyOp(core, rec, fp, after);
    if core.keys[fp].custody == Passkey {
      PasskeyMay(core, rec.op, fp, rec.at, after);
    }
    hide JudgePolicyOp, LinkFormat, PasskeyActAllowed, PolicyLinkFits, OneOfEach;
  }

  lemma TakenPolicyLink(core: Core, rec: Record, fp: Fingerprint)
    requires WellKept(core) && PolicyOp(rec.op) && Judge(core, rec, fp, false).Ok?
    ensures SignerStands(core, fp)
    ensures PolicyLinkFits(core, rec, fp, Judge(core, rec, fp, false).value.policy)
  {
    var after := Judge(core, rec, fp, false).value.policy;
    SignerIsHeld(core, rec, fp);
    PolicyLinkFacts(core, rec, fp, false);
    PolicyLinkMeans(core, rec, fp);
    RulesMean(core, rec.op, rec.at, after);
    OpKeepsIds(core.policy, rec.op, rec.at);
    RulesLeaveOne(core.policy, rec.op, core.keys, after);
    FormatMeans(core.policy, rec.op, rec.at, core.keys[fp]);
    hide Judge, ApplyPolicyOp, Classify, GraduationRules, AgentLinkRules, VoiceKeyRules, LinkFormat, PasskeyActAllowed,
         OpEffect, SignerMay, KeptInTurn, FormatFits, StampEffect, Stamped;
  }

  /** A policy link is taken exactly when it fits. */
  lemma PolicyLinkIff(core: Core, rec: Record, fp: Fingerprint)
    requires WellKept(core) && PolicyOp(rec.op)
    ensures Judge(core, rec, fp, false).Ok? <==> SignerStands(core, fp) && exists after :: PolicyLinkFits(core, rec, fp, after)
  {
    hide Judge, PolicyLinkFits, WellKept, SignerStands;
    if Judge(core, rec, fp, false).Ok? {
      TakenPolicyLink(core, rec, fp);
    }
    if SignerStands(core, fp) {
      StandsIsHeld(core, fp);
      if after :| PolicyLinkFits(core, rec, fp, after) {
        FittingPolicyLink(core, rec, fp, after);
      }
    }
  }

  lemma StandsIsHeld(core: Core, fp: Fingerprint)
    requires SignerStands(core, fp)
    ensures fp in core.keys
  {
  }

  // ----- a key link

  /** A key link takes the keys `before` to `after`: an enrolment of a key not held, by a laptop-presence key; or a revoke,
      with what it declares, by a key of the target's class or above. No passkey signs one, and its format is the first. */
  ghost predicate KeyLinkFits(before: map<Fingerprint, Key>, rec: Record, fp: Fingerprint, after: map<Fingerprint, Key>)
    requires fp in before
  {
    && before[fp].custody != Passkey && rec.format == V1
    && (rec.op.Enrol? ==> before[fp].keyClass == LaptopPresence && EnrolledAlone(before, rec.op, rec.seqNo, after))
    && (rec.op.RevokeKey? ==>
          && RevokedAlone(before, rec.op.target, rec.op.since, rec.seqNo, after)
          && (before[rec.op.target].keyClass == LaptopPresence ==> before[fp].keyClass == LaptopPresence)
          && (before[rec.op.target].keyClass == DisplayPhone ==> before[fp].keyClass != Presence))
  }

  lemma CustodyIsRule(op: Op)
    requires op.Enrol?
    ensures CustodyFits(op) <==> CustodyRuleHolds(op.keyClass, op.custody, op.publicKey.keyType, op.legacy)
  {
  }

  lemma LeftSurvives(before: map<Fingerprint, Key>, target: Fingerprint, since: Option<int>, n: nat, after: map<Fingerprint, Key>)
    requires RevokedAlone(before, target, since, n, after) && since.None? && before[target].keyClass == LaptopPresence
    ensures LaptopSurvives(before, target, false)
  {
    var fp :| fp in after && after[fp].revokedSeq.None? && after[fp].keyClass == LaptopPresence;
    assert fp != target && before[fp] == after[fp];
  }

  lemma FittingKeyLink(core: Core, rec: Record, fp: Fingerprint, after: map<Fingerprint, Key>)
    requires !PolicyOp(rec.op) && SignerStands(core, fp) && KeyLinkFits(core.keys, rec, fp, after)
    ensures Judge(core, rec, fp, false).Ok?
  {
    if rec.op.Enrol? {
      CustodyIsRule(rec.op);
      hide CustodyFits, CustodyRuleHolds;
    } else if rec.op.since.None? && core.keys[rec.op.target].keyClass == LaptopPresence {
      LeftSurvives(core.keys, rec.op.target, rec.op.since, rec.seqNo, after);
    }
    hide LaptopSurvives, LaptopLeft;
  }

  lemma TakenKeyLink(core: Core, rec: Record, fp: Fingerprint)
    requires !PolicyOp(rec.op) && Judge(core, rec, fp, false).Ok?
    ensures SignerStands(core, fp)
    ensures KeyLinkFits(core.keys, rec, fp, Judge(core, rec, fp, false).value.keys)
  {
    SignerIsHeld(core, rec, fp);
    KeyLinkFacts(core, rec, fp, false);
    if rec.op.Enrol? {
      EnrolMeans(core, rec, fp);
    } else {
      RevokeMeans(core, rec, fp);
    }
    hide Judge, EnrolledAlone, RevokedAlone, JudgeKeyOp;
  }

  /** A key link is taken exactly when it fits. */
  lemma KeyLinkIff(core: Core, rec: Record, fp: Fingerprint)
    requires !PolicyOp(rec.op)
    ensures Judge(core, rec, fp, false).Ok? <==> SignerStands(core, fp) && exists after :: KeyLinkFits(core.keys, rec, fp, after)
  {
    hide Judge, KeyLinkFits, SignerStands;
    if Judge(core, rec, fp, false).Ok? {
      TakenKeyLink(core, rec, fp);
    }
    if SignerStands(core, fp) {
      StandsIsHeld(core, fp);
      if after :| KeyLinkFits(core.keys, rec, fp, after) {
        FittingKeyLink(core, rec, fp, after);
      }
    }
  }

  // ----- the next link of a log

  /** The row is the next link of a log whose last state is `s`: its place, its chain, its record, its time and its store. */
  predicate ChainsOn(s: Snapshot, row: Row) {
    && row.seqNo == s.seqNo + 1 && row.prevHash == s.headHash && row.hash == LinkHash(row.prevHash, row.text)
    && row.text.Canonical? && row.text.rec.seqNo == row.seqNo
    && s.headAt <= row.text.rec.at && row.text.rec.storeId == s.storeId
  }

  /** What the op rules ask of a link. */
  ghost predicate OpFits(core: Core, rec: Record, fp: Fingerprint) {
    && SignerStands(core, fp)
    && if IsKeyOp(rec.op) then exists after :: KeyLinkFits(core.keys, rec, fp, after)
       else exists after :: PolicyLinkFits(core, rec, fp, after)
  }

  lemma StateWellKept(rows: seq<Row>)
    requires Accepted(rows) && rows != []
    ensures WellKept(At(rows, |rows|).core)
  {
    KeysComeFromLaptops(rows, |rows|);
    OneOfEachHolds(rows, |rows|);
    StampsThrough(rows, |rows|);
    hide Replay, Step, OneOfEach;
  }

  lemma JudgedIff(core: Core, rec: Record, fp: Fingerprint)
    requires WellKept(core)
    ensures Judge(core, rec, fp, false).Ok? <==> OpFits(core, rec, fp)
  {
    hide Judge, SignerStands, KeyLinkFits, PolicyLinkFits, WellKept;
    if PolicyOp(rec.op) {
      PolicyLinkIff(core, rec, fp);
    } else {
      KeyLinkIff(core, rec, fp);
    }
    if SignerStands(core, fp) {
      StandsIsHeld(core, fp);
    }
  }

  lemma SignatureIff(core: Core, rec: Record, row: Row)
    requires Judge(core, rec, row.signer, false).Ok?
    ensures row.signer in core.keys
    ensures var signer := VerifyingKey(Judge(core, rec, row.signer, false).value, row.signer);
            signer.Some? && (SignatureHolds(signer.value, row, rec.op) <==> SignedBy(core.keys[row.signer], row, rec.op))
  {
    VerifyingKeyIsSigner(core, rec, row.signer, false);
    SignerIsHeld(core, rec, row.signer);
    hide Judge;
  }

  lemma StepIff(s: Snapshot, row: Row)
    requires WellKept(s.core)
    ensures Step(Some(s), row, true, false).Ok? <==>
              && ChainsOn(s, row) && OpFits(s.core, row.text.rec, row.signer)
              && row.signer in s.core.keys && SignedBy(s.core.keys[row.signer], row, row.text.rec.op)
  {
    if row.text.Canonical? {
      JudgedIff(s.core, row.text.rec, row.signer);
      if Judge(s.core, row.text.rec, row.signer, false).Ok? {
        SignatureIff(s.core, row.text.rec, row);
      }
    }
    hide Judge, OpFits, WellKept, SignatureHolds, VerifyingKey, SignedBy;
  }

  /** A log takes one more link exactly when the link chains on to it, its op is one the state lets that signer make, and the
      signer's own key signed it. */
  lemma NextLinkIff(rows: seq<Row>, row: Row)
    requires Accepted(rows) && rows != []
    ensures var s := At(rows, |rows|);
            Accepted(rows + [row]) <==>
              && ChainsOn(s, row) && OpFits(s.core, row.text.rec, row.signer)
              && row.signer in s.core.keys && SignedBy(s.core.keys[row.signer], row, row.text.rec.op)
  {
    StateWellKept(rows);
    StepIff(At(rows, |rows|), row);
    hide Step, OpFits, SignedBy, ChainsOn, WellKept;
    var more := rows + [row];
    assert more[..|more| - 1] == rows && rows[..|rows|] == rows;
    StateShape(rows, |rows|);
  }

  /** A log starts with exactly the links a laptop-presence key makes to enrol itself, in the first format, at the first
      place, signed by it. */
  lemma FirstLinkIff(row: Row)
    ensures Accepted([row]) <==>
              && row.seqNo == 1 && row.prevHash == NoHash && row.hash == LinkHash(NoHash, row.text)
              && row.text.Canonical? && row.text.rec.seqNo == 1 && row.text.rec.format == V1
              && var op := row.text.rec.op;
              && op.Enrol? && op.keyClass == LaptopPresence && row.signer == op.fingerprint == Fingerprint(op.publicKey)
              && CustodyFits(op)
              && SignedBy(Key(op.fingerprint, op.publicKey, op.keyClass, 1, None, None, op.legacy, op.custody), row, op)
  {
    assert [row][..0] == [] && Replay([]) == Ok(None);
    assert Accepted([row]) <==> Step(None, row, true, false).Ok?;
    hide Replay;
    if row.text.Canonical? && row.text.rec.op.Enrol? {
      CustodyIsRule(row.text.rec.op);
    }
    hide CustodyFits, CustodyRuleHolds;
  }
}
