/** What a link signed below laptop-presence can do (levain/authority.py, `_step`, `_passkey_act`, `_apply_op`). */
module SignerLimits {
  import opened AuthorityModel
  import opened Classifier
  import opened AuthorityStep
  import opened AuthorityReplay

  /** The op renews one unlapsed grant: its expiry moves later, within the caps, and nothing else moves. */
  ghost predicate OneUnlapsedRenew(before: Core, op: Op, at: int, after: Core) {
    && op.Renew? && op.gid in before.policy.grants
    && var g := before.policy.grants[op.gid];
    && Expires(g) && !RenewNeedsLaptop(g)
    && at < g.expiresAt < op.expiresAt <= at + RENEW_MAX
    && after.policy == before.policy.(grants := before.policy.grants[op.gid := WithExpiry(g, op.expiresAt)])
  }

  /** The op is a passkey's create of one graduation policy, the standing opt-in naming that passkey. */
  ghost predicate OptedInCreate(before: Core, op: Op, fp: Fingerprint, at: int, after: Core) {
    && op.CreateGrant? && op.grant.Graduation? && op.grant.id !in before.policy.grants
    && at < op.grant.expiresAt <= at + GRANT_MAX
    && fp in before.keys && before.keys[fp].custody.Passkey?
    && (exists gid :: gid in before.policy.grants && before.policy.grants[gid].GraduationPhone?
                      && fp in before.policy.grants[gid].passkeys)
    && after.policy == before.policy.(grants := before.policy.grants[op.grant.id := op.grant])
  }

  lemma SamePolicyNoWider(p: Policy)
    ensures NoWider(p, p)
  {
  }

  lemma OptInStands(p: Policy)
    requires OptIn(p).Some?
    ensures exists gid :: gid in p.grants && p.grants[gid].GraduationPhone? && p.grants[gid] == OptIn(p).value
  {
  }

  lemma RenewIsOneUnlapsed(core: Core, rec: Record, fp: Fingerprint, newLink: bool)
    requires Judge(core, rec, fp, newLink).Ok? && rec.op.Renew?
    requires !core.keys[fp].keyClass.LaptopPresence? || core.keys[fp].custody.Passkey?
    ensures OneUnlapsedRenew(core, rec.op, rec.at, Judge(core, rec, fp, newLink).value)
    ensures core.keys[fp].custody.Passkey? ==> core.policy.grants[rec.op.gid].Graduation?
  {
    hide Judge, Classify, GraduationRules, AgentLinkRules, VoiceKeyRules, LinkFormat, OptIn, Stamped;
    PolicyLinkFacts(core, rec, fp, newLink);
  }

  lemma PasskeyCreateIsOptedIn(core: Core, rec: Record, fp: Fingerprint, newLink: bool)
    requires Judge(core, rec, fp, newLink).Ok? && rec.op.CreateGrant? && core.keys[fp].custody.Passkey?
    ensures OptedInCreate(core, rec.op, fp, rec.at, Judge(core, rec, fp, newLink).value)
  {
    hide Judge, Classify, GraduationRules, AgentLinkRules, VoiceKeyRules, LinkFormat, OptIn, Stamped;
    PolicyLinkFacts(core, rec, fp, newLink);
    OptInStands(core.policy);
  }

  /** One link signed below laptop-presence. */
  lemma LowRankLink(core: Core, rec: Record, fp: Fingerprint, newLink: bool)
    requires Judge(core, rec, fp, newLink).Ok?
    requires Rank(core.keys[fp].keyClass) < Rank(LaptopPresence)
    ensures var after := Judge(core, rec, fp, newLink).value;
            && after.keys.Keys == core.keys.Keys
            && (|| NoWider(core.policy, after.policy)
                || OneUnlapsedRenew(core, rec.op, rec.at, after)
                || OptedInCreate(core, rec.op, fp, rec.at, after))
  {
    hide Judge, NoWider, Classify, GraduationRules, AgentLinkRules, VoiceKeyRules, LinkFormat, ApplyPolicyOp, Stamped;
    var after := Judge(core, rec, fp, newLink).value;
    if !PolicyOp(rec.op) {
      KeyLinkFacts(core, rec, fp, newLink);
      SamePolicyNoWider(core.policy);
    } else {
      PolicyLinkStamped(core, rec, fp, newLink);
      StampedKeepsKeys(core, after.policy, rec.op, rec.seqNo);
      PolicyLinkFacts(core, rec, fp, newLink);
      var delta := Classify(core.policy, after.policy).value;
      if delta.RenewDelta? {
        RenewIsOneUnlapsed(core, rec, fp, newLink);
      } else if delta.LoosenDelta? {
        PasskeyCreateIsOptedIn(core, rec, fp, newLink);
      } else {
        ClassifySound(core.policy, after.policy);
      }
    }
  }

  lemma StampedKeepsKeys(core: Core, after: Policy, op: Op, seqNo: nat)
    ensures Stamped(core, after, op, seqNo).keys == core.keys
  {
  }

  /** Over any accepted log: a link signed by a key below laptop-presence enrols no key, and widens the policy only as
      one unlapsed renew or one opted-in graduation create. */
  lemma LowRankLinksWidenNothing(rows: seq<Row>, k: nat)
    requires Accepted(rows) && 0 < k < |rows|
    requires rows[k].signer in At(rows, k).core.keys
    requires Rank(At(rows, k).core.keys[rows[k].signer].keyClass) < Rank(LaptopPresence)
    ensures var before, after, rec := At(rows, k).core, At(rows, k + 1).core, RecordAt(rows, k);
            && after.keys.Keys == before.keys.Keys
            && (|| NoWider(before.policy, after.policy)
                || OneUnlapsedRenew(before, rec.op, rec.at, after)
                || OptedInCreate(before, rec.op, rows[k].signer, rec.at, after))
  {
    LinkFacts(rows, k);
    LowRankLink(At(rows, k).core, RecordAt(rows, k), rows[k].signer, false);
  }

  /** A passkey, whatever its class's rank, never does more than one act: a revoke, a graduation renew, or the
      opted-in create; it never touches a key, a floor or a timeout. */
  lemma PasskeyLinkIsOneAct(core: Core, rec: Record, fp: Fingerprint, newLink: bool)
    requires Judge(core, rec, fp, newLink).Ok? && core.keys[fp].custody.Passkey?
    ensures var after := Judge(core, rec, fp, newLink).value;
            && after.keys == core.keys
            && after.policy.raiseTo == core.policy.raiseTo && after.policy.timeouts == core.policy.timeouts
            && (|| (after.policy.grants.Keys < core.policy.grants.Keys && NoWider(core.policy, after.policy))
                || (OneUnlapsedRenew(core, rec.op, rec.at, after) && core.policy.grants[rec.op.gid].Graduation?)
                || OptedInCreate(core, rec.op, fp, rec.at, after))
  {
    hide Judge, NoWider, Classify, GraduationRules, AgentLinkRules, VoiceKeyRules, LinkFormat, OptIn;
    var after := Judge(core, rec, fp, newLink).value;
    if PolicyOp(rec.op) {
      PolicyLinkFacts(core, rec, fp, newLink);
    } else {
      KeyLinkFacts(core, rec, fp, newLink);
    }
    match rec.op
    case RevokeGrant(gid) =>
      ShrunkNoWider(core.policy, after.policy);
    case RevokeAgent(agentId, storeId) =>
      var gid :| gid in core.policy.grants && LinkOfAgent(core.policy.grants[gid], agentId, storeId);
      assert gid !in after.policy.grants;
      ShrunkNoWider(core.policy, after.policy);
    case Renew(gid, _, _) =>
      RenewIsOneUnlapsed(core, rec, fp, newLink);
    case CreateGrant(g) =>
      PasskeyCreateIsOptedIn(core, rec, fp, newLink);
    case _ =>
  }

  lemma ShrunkNoWider(before: Policy, after: Policy)
    requires after.raiseTo == before.raiseTo && after.timeouts == before.timeouts
    requires forall gid :: gid in after.grants ==> gid in before.grants && after.grants[gid] == before.grants[gid]
    ensures NoWider(before, after)
  {
  }
}
