/** What a replay that stops at a format it does not know can never hold (levain/authority.py, `_link_format`). */
module Formats {
  import opened AuthorityModel
  import opened Classifier
  import opened AuthorityStep
  import opened AuthorityReplay

  /** The format a grant needs the link that brings it in to carry, at least. */
  function Gate(g: Grant): nat {
    if g.VoiceKey? then 5
    else if g.AgentLink? then 4
    else if g.Graduation? && g.guard.Some? then 3
    else if g.GraduationPhone? then 2
    else 1
  }

  lemma FormatCoversBrought(p: Policy, op: Op, custody: Custody, g: Grant)
    requires g in Brought(p, op)
    ensures Gate(g) <= FormatIndex(LinkFormat(p, op, custody))
  {
  }

  /** Meaning carries the gate: a renew never moves it. */
  lemma GateOfMeaning(a: Grant, b: Grant)
    requires SameKind(a, b) && Meaning(a) == Meaning(b)
    ensures Gate(a) == Gate(b)
  {
    if a.Graduation? {
      assert Meaning(a) == Graduation(a.id, a.terms, a.guard, 0) && Meaning(b) == Graduation(b.id, b.terms, b.guard, 0);
    }
  }

  lemma AddedIsBrought(core: Core, op: Op, at: int, id: Name)
    requires PolicyOp(op) && ApplyPolicyOp(core.policy, op, at).Ok?
    requires id in ApplyPolicyOp(core.policy, op, at).value.grants && id !in core.policy.grants
    ensures ApplyPolicyOp(core.policy, op, at).value.grants[id] in Brought(core.policy, op)
  {
  }

  /** A link of a lower format turns no id into a gated grant: one whose gate is above the link's format was already
      standing, of the same kind and meaning. */
  lemma LowerFormatBringsNone(core: Core, rec: Record, fp: Fingerprint, newLink: bool, id: Name)
    requires Judge(core, rec, fp, newLink).Ok?
    requires id in Judge(core, rec, fp, newLink).value.policy.grants
    requires FormatIndex(rec.format) < Gate(Judge(core, rec, fp, newLink).value.policy.grants[id])
    ensures id in core.policy.grants
    ensures var before, after := core.policy.grants[id], Judge(core, rec, fp, newLink).value.policy.grants[id];
            SameKind(before, after) && Meaning(before) == Meaning(after) && Gate(before) == Gate(after)
  {
    hide Judge, GraduationRules, VoiceKeyRules, AgentLinkRules, PasskeyActAllowed, Stamped;
    if !PolicyOp(rec.op) {
      KeyLinkOnlyKeys(core, rec, fp, newLink);
    } else {
      PolicyLinkFacts(core, rec, fp, newLink);
      var after := Judge(core, rec, fp, newLink).value;
      hide Classify, ApplyPolicyOp, LinkFormat, Brought;
      if id !in core.policy.grants {
        AddedIsBrought(core, rec.op, rec.at, id);
        FormatCoversBrought(core.policy, rec.op, core.keys[fp].custody, after.policy.grants[id]);
      } else {
        FixedTermsStay(core.policy, after.policy, id);
        GateOfMeaning(core.policy.grants[id], after.policy.grants[id]);
      }
    }
  }

  /** The links before the first whose format is above /k build a policy with no voice key (k < 5), no agent link
      (k < 4), no guarded graduation policy (k < 3) and no opt-in (k < 2). */
  lemma {:induction false} PolicyWithinFormats(rows: seq<Row>, n: nat, k: nat, id: Name)
    requires Accepted(rows) && 1 <= n <= |rows|
    requires forall i :: 0 <= i < n ==> FormatIndex(RecordAt(rows, i).format) <= k
    requires id in At(rows, n).core.policy.grants
    ensures Gate(At(rows, n).core.policy.grants[id]) <= k
    ensures var g := At(rows, n).core.policy.grants[id];
            && (k < 5 ==> !g.VoiceKey?) && (k < 4 ==> !g.AgentLink?)
            && (k < 3 && g.Graduation? ==> g.guard.None?) && (k < 2 ==> !g.GraduationPhone?)
    decreases n
  {
    hide Replay, Step, Judge;
    LinkFacts(rows, n - 1);
    if n == 1 {
      StateShape(rows, 0);
    } else {
      var rec := RecordAt(rows, n - 1);
      if FormatIndex(rec.format) < Gate(At(rows, n).core.policy.grants[id]) {
        LowerFormatBringsNone(At(rows, n - 1).core, rec, rows[n - 1].signer, false, id);
        PolicyWithinFormats(rows, n - 1, k, id);
      }
    }
  }
}
