/** The recompute classifier and what its verdicts mean (levain/authority.py, `_grant_change` and `classify`). */
module Classifier {
  import opened Wrappers
  import opened AuthorityModel
  import opened Paths

  datatype Change = Same | Extended | Tighter | Looser | Removed

  // ----- one grant

  /** The fields a consent-mcp grant declares for `tool`, if it declares any. */
  function Declaration(fields: McpFields, tool: Name): Option<map<Name, FieldKind>> {
    if tool in fields && fields[tool] != map[] then Some(fields[tool]) else None
  }

  function EgressChange(o: Grant, n: Grant): Change
    requires o.Egress? && n.Egress?
  {
    if o.id != n.id || o.entity != n.entity || o.remote != n.remote || o.deployKey != n.deployKey then Looser
    else if n.refspecs == o.refspecs && n.verbs == o.verbs && n.expiresAt > o.expiresAt then Extended
    else if n.refspecs <= o.refspecs && n.verbs <= o.verbs && n.expiresAt <= o.expiresAt then Tighter
    else Looser
  }

  function ConsentChange(o: Grant, n: Grant): Change
    requires (o.Consent? && n.Consent?) || (o.ConsentMcp? && n.ConsentMcp?)
  {
    if o.id != n.id || o.agent != n.agent then Looser
    else if n.tools == o.tools && n.postures == o.postures && n.workspace == o.workspace
            && n.expiresAt > o.expiresAt then Extended
    else if n.tools <= o.tools && n.postures <= o.postures && Within(n.workspace, o.workspace)
            && n.expiresAt <= o.expiresAt then Tighter
    else Looser
  }

  function ConsentMcpChange(o: Grant, n: Grant): Change
    requires o.ConsentMcp? && n.ConsentMcp?
  {
    if exists t :: t in n.tools && Declaration(n.fields, t) != Declaration(o.fields, t) then Looser
    else ConsentChange(o, n)
  }

  function ContainedShellChange(o: Grant, n: Grant): Change
    requires o.ContainedShell? && n.ContainedShell?
  {
    if o.id != n.id || o.digest != n.digest then Looser
    else if n.workspace == o.workspace && n.expiresAt > o.expiresAt then Extended
    else if Within(n.workspace, o.workspace) && n.expiresAt <= o.expiresAt then Tighter
    else Looser
  }

  /** The rule of every kind without a narrower form: only a later expiry is less than a new grant. */
  predicate OnlyExtended(o: Grant, n: Grant) {
    Expires(o) && Expires(n) && Meaning(o) == Meaning(n) && n.expiresAt > o.expiresAt
  }

  function GrantChange(o: Grant, n: Grant): Result<Change, Error> {
    if o == n then Ok(Same)
    else if !SameKind(o, n) then
      if Fixed(o) || Fixed(n) then Err(FixedTerms) else Ok(Looser)
    else match n
      case Egress(_, _, _, _, _, _, _) => Ok(EgressChange(o, n))
      case Consent(_, _, _, _, _, _) => Ok(ConsentChange(o, n))
      case ConsentMcp(_, _, _, _, _, _, _) => Ok(ConsentMcpChange(o, n))
      case ContainedShell(_, _, _, _) => Ok(ContainedShellChange(o, n))
      case EgressKey(_, _, _, _, _) => Ok(if OnlyExtended(o, n) then Extended else Looser)
      case Inert(_, _, _, _) => Ok(if OnlyExtended(o, n) then Extended else Looser)
      case VoiceKey(_, _, _) => Err(FixedTerms)
      case GraduationPhone(_, _) => Err(FixedTerms)
      case _ => if OnlyExtended(o, n) then Ok(Extended) else Err(FixedTerms)
  }

  // ----- the whole policy

  /** The kind of the difference between two policies. */
  datatype Delta = Noop | Tighten | LoosenDelta | RenewDelta | GrantRevoke

  function GrantDelta(before: Policy, after: Policy, gid: Name): Result<Change, Error>
    requires gid in before.grants || gid in after.grants
  {
    if gid !in after.grants then Ok(Removed)
    else if gid !in before.grants then Ok(Looser)
    else GrantChange(before.grants[gid], after.grants[gid])
  }

  function Verbs(before: Policy, after: Policy): set<Name> {
    before.raiseTo.Keys + after.raiseTo.Keys
  }

  function Gids(before: Policy, after: Policy): set<Name> {
    before.grants.Keys + after.grants.Keys
  }

  /** The verbs whose floor moved. */
  function MovedVerbs(before: Policy, after: Policy): set<Name> {
    set v | v in Verbs(before, after) && Floor(before, v) != Floor(after, v)
  }

  /** The grants that differ, removed and added ones included. */
  function ChangedGrants(before: Policy, after: Policy): set<Name> {
    set g | g in Gids(before, after) && GrantDelta(before, after, g) != Ok(Same)
  }

  predicate FloorLowered(before: Policy, after: Policy) {
    exists v :: v in MovedVerbs(before, after) && TierIndex(Floor(after, v)) < TierIndex(Floor(before, v))
  }

  predicate SomeGrant(before: Policy, after: Policy, c: Change) {
    exists g :: g in Gids(before, after) && GrantDelta(before, after, g) == Ok(c)
  }

  predicate SomeFixedChange(before: Policy, after: Policy) {
    exists g :: g in Gids(before, after) && GrantDelta(before, after, g).Err?
  }

  function ChangeCount(before: Policy, after: Policy): nat {
    |MovedVerbs(before, after)| + (if before.timeouts != after.timeouts then 1 else 0) + |ChangedGrants(before, after)|
  }

  /** The verdict, read off the two policies. A change to a fixed term has none. */
  function Classify(before: Policy, after: Policy): Result<Delta, Error> {
    if SomeFixedChange(before, after) then Err(FixedTerms)
    else if FloorLowered(before, after) || before.timeouts != after.timeouts || SomeGrant(before, after, Looser) then Ok(LoosenDelta)
    else if SomeGrant(before, after, Extended) then
      if ChangeCount(before, after) == 1 then Ok(RenewDelta) else Ok(LoosenDelta)
    else if ChangeCount(before, after) == 1 && SomeGrant(before, after, Removed) then Ok(GrantRevoke)
    else if ChangeCount(before, after) > 0 then Ok(Tighten)
    else Ok(Noop)
  }

  // ----- the program's form: one pass that collects a list of changes

  /** The changes the verbs in `verbs` put on the list. */
  ghost predicate FromVerbs(changes: seq<Change>, before: Policy, after: Policy, verbs: set<Name>) {
    var moved := MovedVerbs(before, after) * verbs;
    && |changes| == |moved|
    && (forall c :: c in changes ==> c == Tighter || c == Looser)
    && (Looser in changes <==> exists v :: v in moved && TierIndex(Floor(after, v)) < TierIndex(Floor(before, v)))
  }

  /** The deltas found at the grants in `gids`. */
  ghost function Deltas(before: Policy, after: Policy, gids: set<Name>): set<Result<Change, Error>>
    requires gids <= Gids(before, after)
  {
    set g | g in gids :: GrantDelta(before, after, g)
  }

  /** The changes the grants in `gids` put on the list. */
  ghost predicate FromGrants(changes: seq<Change>, before: Policy, after: Policy, gids: set<Name>)
    requires gids <= Gids(before, after)
  {
    && |changes| == |ChangedGrants(before, after) * gids|
    && Same !in changes
    && (forall c :: c in changes <==> c != Same && Ok(c) in Deltas(before, after, gids))
    && Err(FixedTerms) !in Deltas(before, after, gids)
  }

  lemma NothingCollected(before: Policy, after: Policy)
    ensures FromVerbs([], before, after, {}) && FromGrants([], before, after, {})
  {
  }

  lemma OneMore(s: set<Name>, seen: set<Name>, x: Name)
    requires x !in seen
    ensures x in s ==> s * (seen + {x}) == s * seen + {x} && |s * (seen + {x})| == |s * seen| + 1
    ensures x !in s ==> s * (seen + {x}) == s * seen
  {
    if x in s {
      assert s * (seen + {x}) == s * seen + {x};
    } else {
      assert s * (seen + {x}) == s * seen;
    }
  }

  lemma VerbCollected(changes: seq<Change>, before: Policy, after: Policy, verbs: set<Name>, verb: Name)
    requires FromVerbs(changes, before, after, verbs)
    requires verb in Verbs(before, after) && verb !in verbs
    ensures Floor(before, verb) == Floor(after, verb) ==> FromVerbs(changes, before, after, verbs + {verb})
    ensures Floor(before, verb) != Floor(after, verb) ==>
              var c := if TierIndex(Floor(after, verb)) > TierIndex(Floor(before, verb)) then Tighter else Looser;
              FromVerbs(changes + [c], before, after, verbs + {verb})
  {
    OneMore(MovedVerbs(before, after), verbs, verb);
    assert verb in MovedVerbs(before, after) <==> Floor(before, verb) != Floor(after, verb);
  }

  lemma ListMore(changes: seq<Change>, found: set<Result<Change, Error>>, c: Change)
    requires forall d :: d in changes <==> d != Same && Ok(d) in found
    ensures var more := if c == Same then changes else changes + [c];
            forall d :: d in more <==> d != Same && Ok(d) in found + {Ok(c)}
  {
    var more := if c == Same then changes else changes + [c];
    forall d ensures d in more <==> d in changes || (c != Same && d == c) { }
  }

  lemma GrantCollected(changes: seq<Change>, before: Policy, after: Policy, gids: set<Name>, gid: Name)
    requires gids <= Gids(before, after) && FromGrants(changes, before, after, gids)
    requires gid in Gids(before, after) && gid !in gids
    requires GrantDelta(before, after, gid).Ok?
    ensures var c := GrantDelta(before, after, gid).value;
            FromGrants(if c == Same then changes else changes + [c], before, after, gids + {gid})
  {
    hide GrantDelta;
    var c := GrantDelta(before, after, gid).value;
    assert Deltas(before, after, gids + {gid}) == Deltas(before, after, gids) + {Ok(c)};
    OneMore(ChangedGrants(before, after), gids, gid);
    assert gid in ChangedGrants(before, after) <==> c != Same;
    hide ChangedGrants, Deltas;
    ListMore(changes, Deltas(before, after, gids), c);
  }

  /** The verdict the program reads off its list. */
  function VerdictOf(changes: seq<Change>): Delta {
    if Looser in changes then LoosenDelta
    else if Extended in changes then if |changes| == 1 then RenewDelta else LoosenDelta
    else if changes == [Removed] then GrantRevoke
    else if changes != [] then Tighten else Noop
  }

  lemma VerbPart(changes: seq<Change>, before: Policy, after: Policy)
    requires FromVerbs(changes, before, after, Verbs(before, after))
    ensures |changes| == |MovedVerbs(before, after)|
    ensures Looser in changes <==> FloorLowered(before, after)
    ensures Extended !in changes && Removed !in changes
  {
    assert MovedVerbs(before, after) * Verbs(before, after) == MovedVerbs(before, after);
  }

  lemma GrantDeltaErrors(before: Policy, after: Policy, g: Name)
    requires g in Gids(before, after)
    ensures GrantDelta(before, after, g).Ok? || GrantDelta(before, after, g) == Err(FixedTerms)
  {
  }

  lemma GrantPart(changes: seq<Change>, before: Policy, after: Policy)
    requires FromGrants(changes, before, after, Gids(before, after))
    ensures |changes| == |ChangedGrants(before, after)|
    ensures forall c :: c != Same ==> (c in changes <==> SomeGrant(before, after, c))
    ensures !SomeFixedChange(before, after)
  {
    assert ChangedGrants(before, after) * Gids(before, after) == ChangedGrants(before, after);
    hide ChangedGrants, GrantDelta;
    forall g | g in Gids(before, after) ensures GrantDelta(before, after, g).Ok? {
      assert GrantDelta(before, after, g) in Deltas(before, after, Gids(before, after));
      GrantDeltaErrors(before, after, g);
    }
  }

  lemma InParts(a: seq<Change>, b: seq<Change>, c: seq<Change>, x: Change)
    ensures x in a + b + c <==> x in a || x in b || x in c
  {
  }

  /** The verdict read off the program's list is the one read off the policies. */
  lemma VerdictOfList(verbs: seq<Change>, timeouts: seq<Change>, grants: seq<Change>, before: Policy, after: Policy)
    requires FromVerbs(verbs, before, after, Verbs(before, after))
    requires timeouts == if before.timeouts != after.timeouts then [Looser] else []
    requires FromGrants(grants, before, after, Gids(before, after))
    ensures Classify(before, after) == Ok(VerdictOf(verbs + timeouts + grants))
  {
    hide FromVerbs, FromGrants, GrantDelta, SomeGrant, SomeFixedChange, FloorLowered, MovedVerbs, ChangedGrants;
    VerbPart(verbs, before, after);
    GrantPart(grants, before, after);
    var changes := verbs + timeouts + grants;
    assert |changes| == ChangeCount(before, after);
    InParts(verbs, timeouts, grants, Looser);
    InParts(verbs, timeouts, grants, Extended);
    InParts(verbs, timeouts, grants, Removed);
    if |changes| == 1 && Removed in changes {
      assert changes[0] == Removed;
    }
  }

  /** The classifier's pass over the verbs. */
  method CollectVerbs(before: Policy, after: Policy) returns (changes: seq<Change>)
    ensures FromVerbs(changes, before, after, Verbs(before, after))
  {
    NothingCollected(before, after);
    hide FromVerbs, Verbs, Floor;
    changes := [];
    var verbs := Verbs(before, after);
    ghost var all := verbs;
    assert all - verbs == {};
    while verbs != {}
      invariant verbs <= all
      invariant FromVerbs(changes, before, after, all - verbs)
      decreases verbs
    {
      var verb :| verb in verbs;
      VerbCollected(changes, before, after, all - verbs, verb);
      assert (all - verbs) + {verb} == all - (verbs - {verb});
      verbs := verbs - {verb};
      var rankO, rankN := TierIndex(Floor(before, verb)), TierIndex(Floor(after, verb));
      if rankO != rankN {
        changes := changes + [if rankN > rankO then Tighter else Looser];
      }
    }
    assert all - {} == Verbs(before, after);
  }

  /** The classifier's pass over the grants: refused at the first change to fixed terms. */
  method CollectGrants(before: Policy, after: Policy) returns (r: Result<seq<Change>, Error>)
    ensures r.Ok? ==> FromGrants(r.value, before, after, Gids(before, after))
    ensures r.Err? ==> r.error == FixedTerms && SomeFixedChange(before, after)
  {
    NothingCollected(before, after);
    hide FromGrants, GrantDelta;
    var changes: seq<Change> := [];
    var gids := Gids(before, after);
    ghost var all := gids;
    assert all - gids == {};
    while gids != {}
      invariant gids <= all
      invariant FromGrants(changes, before, after, all - gids)
      decreases gids
    {
      var gid :| gid in gids;
      var change := GrantDelta(before, after, gid);
      if change.Err? {
        return Err(FixedTerms);
      }
      GrantCollected(changes, before, after, all - gids, gid);
      assert (all - gids) + {gid} == all - (gids - {gid});
      gids := gids - {gid};
      if change.value != Same {
        changes := changes + [change.value];
      }
    }
    assert all - {} == Gids(before, after);
    r := Ok(changes);
  }

  /** The program's classifier computes the verdict above. */
  method ClassifyPolicies(before: Policy, after: Policy) returns (r: Result<Delta, Error>)
    ensures r == Classify(before, after)
  {
    if before == after {
      EqualPoliciesNoop(before);
      return Ok(Noop);
    }
    var fromVerbs := CollectVerbs(before, after);
    var fromTimeouts: seq<Change> := if before.timeouts != after.timeouts then [Looser] else [];
    var fromGrants := CollectGrants(before, after);
    if fromGrants.Err? {
      return Err(FixedTerms);
    }
    VerdictOfList(fromVerbs, fromTimeouts, fromGrants.value, before, after);
    r := Ok(VerdictOf(fromVerbs + fromTimeouts + fromGrants.value));
  }

  lemma EqualPoliciesNoop(p: Policy)
    ensures Classify(p, p) == Ok(Noop)
  {
    assert forall g :: g in Gids(p, p) ==> GrantDelta(p, p, g) == Ok(Same);
    assert MovedVerbs(p, p) == {} && ChangedGrants(p, p) == {};
  }

  // ----- what a verdict means

  /** A value of one input field of an MCP tool: its kind, and the paths it names. */
  datatype FieldValue = FieldValue(kind: FieldKind, paths: set<string>)

  /** Something a grant may answer, at a time. `matching` are the refspec patterns the pushed branch matches. */
  datatype Request =
    | Push(entity: Name, remote: Name, deployKey: Name, verb: Name, matching: set<Name>, now: int)
    | ToolCall(agent: Name, tool: Name, posture: Name, cwd: string, targets: set<string>,
               input: map<Name, FieldValue>, now: int)
    | ContainedCall(digest: Name, directory: string, now: int)
    | TermsUse(meaning: Grant, now: int)

  predicate InputFits(declared: map<Name, FieldKind>, input: map<Name, FieldValue>, workspace: string) {
    && input.Keys <= declared.Keys
    && forall f :: f in input ==>
         && input[f].kind == declared[f]
         && (declared[f] in {PathField, PathsField} ==> forall p :: p in input[f].paths ==> Within(p, workspace))
  }

  predicate ToolCallCovered(agent: Name, tools: set<Name>, postures: set<Name>, workspace: string,
                            expiresAt: int, r: Request)
    requires r.ToolCall?
  {
    && agent == r.agent && r.tool in tools && r.posture in postures && r.now < expiresAt
    && Within(r.cwd, workspace)
    && forall t :: t in r.targets ==> Within(t, workspace)
  }

  /** The grant answers the request, by its own terms. */
  predicate Covers(g: Grant, r: Request) {
    match g
    case Egress(_, entity, remote, key, refspecs, verbs, expiresAt) =>
      && r.Push? && r.entity == entity && r.remote == remote && r.deployKey == key
      && r.verb in verbs && refspecs * r.matching != {} && r.now < expiresAt
    case Consent(_, agent, tools, postures, workspace, expiresAt) =>
      r.ToolCall? && ToolCallCovered(agent, tools, postures, workspace, expiresAt, r)
    case ConsentMcp(_, agent, tools, postures, workspace, fields, expiresAt) =>
      && r.ToolCall? && ToolCallCovered(agent, tools, postures, workspace, expiresAt, r)
      && (Declaration(fields, r.tool).Some? ==>
            InputFits(Declaration(fields, r.tool).value, r.input, workspace))
    case ContainedShell(_, digest, workspace, expiresAt) =>
      r.ContainedCall? && r.digest == digest && Within(r.directory, workspace) && r.now < expiresAt
    case _ =>
      r.TermsUse? && r.meaning == Meaning(g) && (Expires(g) ==> r.now < g.expiresAt)
  }

  /** The new policy lets through nothing the old one did not: no verb at a lower tier, the same timeouts, and every
      request a grant answers was answered by the grant of the same id. */
  ghost predicate NoWider(before: Policy, after: Policy) {
    && (forall verb, tier :: TierIndex(ApplyTier(after, verb, tier)) >= TierIndex(ApplyTier(before, verb, tier)))
    && after.timeouts == before.timeouts
    && after.grants.Keys <= before.grants.Keys
    && forall gid, r :: gid in after.grants && Covers(after.grants[gid], r) ==> Covers(before.grants[gid], r)
  }

  /** The two policies act alike. */
  ghost predicate EqualInEffect(before: Policy, after: Policy) {
    && (forall verb, tier :: ApplyTier(after, verb, tier) == ApplyTier(before, verb, tier))
    && after.timeouts == before.timeouts
    && after.grants == before.grants
  }

  lemma TargetsStayWithin(paths: set<string>, inner: string, outer: string)
    requires Within(inner, outer)
    requires forall p :: p in paths ==> Within(p, inner)
    ensures forall p :: p in paths ==> Within(p, outer)
  {
    forall p | p in paths ensures Within(p, outer) { WithinTransitive(p, inner, outer); }
  }

  /** A grant called tighter answers nothing the old one did not. */
  lemma TighterCoversLess(o: Grant, n: Grant, r: Request)
    requires GrantChange(o, n) in {Ok(Same), Ok(Tighter)}
    requires Covers(n, r)
    ensures Covers(o, r)
  {
    if o != n {
      match n
      case Egress(_, _, _, _, _, _, _) =>
        var p :| p in n.refspecs * r.matching;
        assert p in o.refspecs * r.matching;
      case Consent(_, _, _, _, _, _) =>
        WithinTransitive(r.cwd, n.workspace, o.workspace);
        TargetsStayWithin(r.targets, n.workspace, o.workspace);
      case ConsentMcp(_, _, _, _, _, _, _) =>
        WithinTransitive(r.cwd, n.workspace, o.workspace);
        TargetsStayWithin(r.targets, n.workspace, o.workspace);
        assert Declaration(n.fields, r.tool) == Declaration(o.fields, r.tool);
        forall f | f in r.input && Declaration(n.fields, r.tool).Some?
                   && Declaration(n.fields, r.tool).value[f] in {PathField, PathsField}
          ensures forall p :: p in r.input[f].paths ==> Within(p, o.workspace)
        {
          TargetsStayWithin(r.input[f].paths, n.workspace, o.workspace);
        }
      case ContainedShell(_, _, _, _) =>
        WithinTransitive(r.directory, n.workspace, o.workspace);
      case _ =>
    }
  }

  /** Well declared grants that declare alike for every tool they name have the same declarations. */
  lemma SameDeclarations(o: Grant, n: Grant)
    requires o.ConsentMcp? && n.ConsentMcp? && WellDeclared(o) && WellDeclared(n) && o.tools == n.tools
    requires forall t :: t in n.tools ==> Declaration(n.fields, t) == Declaration(o.fields, t)
    ensures o.fields == n.fields
  {
    forall t ensures t in o.fields <==> t in n.fields {
      assert t in n.tools ==> Declaration(n.fields, t) == Declaration(o.fields, t);
    }
    forall t | t in n.fields ensures o.fields[t] == n.fields[t] {
      assert Declaration(n.fields, t) == Declaration(o.fields, t);
    }
  }

  /** A grant called extended says what it said, and for longer: at any time before the old expiry they cover alike. */
  lemma ExtendedCoversLonger(o: Grant, n: Grant)
    requires GrantChange(o, n) == Ok(Extended)
    ensures Expires(o) && Expires(n) && o.expiresAt < n.expiresAt && SameKind(o, n)
    ensures WellDeclared(o) && WellDeclared(n) ==> Meaning(o) == Meaning(n)
    ensures forall r: Request :: r.now < o.expiresAt ==> (Covers(n, r) <==> Covers(o, r))
  {
    match n
    case Egress(_, _, _, _, _, _, _) =>
    case Consent(_, _, _, _, _, _) =>
    case ConsentMcp(_, _, _, _, _, _, _) =>
      forall r: Request | r.now < o.expiresAt && r.ToolCall? ensures Covers(n, r) <==> Covers(o, r) {
        assert r.tool in n.tools ==> Declaration(n.fields, r.tool) == Declaration(o.fields, r.tool);
      }
      if WellDeclared(o) && WellDeclared(n) {
        SameDeclarations(o, n);
      }
    case ContainedShell(_, _, _, _) =>
    case _ =>
  }

  lemma FloorsDecideTiers(before: Policy, after: Policy, verb: Name, tier: Tier)
    requires TierIndex(Floor(after, verb)) >= TierIndex(Floor(before, verb))
    ensures TierIndex(ApplyTier(after, verb, tier)) >= TierIndex(ApplyTier(before, verb, tier))
    ensures Floor(after, verb) == Floor(before, verb) ==> ApplyTier(after, verb, tier) == ApplyTier(before, verb, tier)
  {
  }

  lemma AddedIsLooser(before: Policy, after: Policy, gid: Name)
    requires gid in after.grants
    ensures gid in before.grants || SomeGrant(before, after, Looser)
  {
    assert gid in Gids(before, after);
    if gid !in before.grants {
      assert GrantDelta(before, after, gid) == Ok(Looser);
    }
  }

  /** Soundness of a verdict that needs no laptop: it widens nothing. */
  lemma ClassifySound(before: Policy, after: Policy)
    requires Classify(before, after) in {Ok(Noop), Ok(Tighten), Ok(GrantRevoke)}
    ensures NoWider(before, after)
  {
    forall verb, tier
      ensures TierIndex(ApplyTier(after, verb, tier)) >= TierIndex(ApplyTier(before, verb, tier))
    {
      if verb in MovedVerbs(before, after) {
      } else {
        assert Floor(after, verb) == Floor(before, verb);
      }
      FloorsDecideTiers(before, after, verb, tier);
    }
    forall gid | gid in after.grants ensures gid in before.grants {
      AddedIsLooser(before, after, gid);
    }
    forall gid, r | gid in after.grants && Covers(after.grants[gid], r) ensures Covers(before.grants[gid], r) {
      assert gid in Gids(before, after);
      assert GrantDelta(before, after, gid) == GrantChange(before.grants[gid], after.grants[gid]);
      TighterCoversLess(before.grants[gid], after.grants[gid], r);
    }
  }

  /** A link that "changes nothing" is exactly one that changes nothing in effect. */
  lemma NoopIsEqualInEffect(before: Policy, after: Policy)
    ensures Classify(before, after) == Ok(Noop) <==> EqualInEffect(before, after)
  {
    if Classify(before, after) == Ok(Noop) {
      assert MovedVerbs(before, after) == {} && ChangedGrants(before, after) == {};
      forall verb, tier ensures ApplyTier(after, verb, tier) == ApplyTier(before, verb, tier) {
        assert verb !in MovedVerbs(before, after);
        FloorsDecideTiers(before, after, verb, tier);
      }
      forall gid | gid in Gids(before, after)
        ensures gid in before.grants && gid in after.grants && after.grants[gid] == before.grants[gid]
      {
        assert gid !in ChangedGrants(before, after);
      }
      assert after.grants == before.grants;
    }
    if EqualInEffect(before, after) {
      forall verb ensures Floor(before, verb) == Floor(after, verb) {
        assert ApplyTier(after, verb, C1) == Floor(after, verb) && ApplyTier(before, verb, C1) == Floor(before, verb);
      }
      assert MovedVerbs(before, after) == {};
      assert forall g :: g in Gids(before, after) ==> GrantDelta(before, after, g) == Ok(Same);
      assert ChangedGrants(before, after) == {};
    }
  }

  /** The single changed grant of a verdict that counts one change, and nothing else moved. */
  ghost predicate OnlyGrantChanged(before: Policy, after: Policy, gid: Name) {
    && (forall verb, tier :: ApplyTier(after, verb, tier) == ApplyTier(before, verb, tier))
    && after.timeouts == before.timeouts
    && gid in before.grants
    && after.grants - {gid} == before.grants - {gid}
  }

  lemma SingletonOf(s: set<Name>, x: Name)
    requires x in s && |s| == 1
    ensures s == {x}
  {
    assert |s - {x}| == 0;
  }

  lemma OneChange(before: Policy, after: Policy, gid: Name)
    requires Classify(before, after) in {Ok(RenewDelta), Ok(GrantRevoke)}
    requires gid in Gids(before, after) && GrantDelta(before, after, gid) in {Ok(Extended), Ok(Removed)}
    requires ChangeCount(before, after) == 1
    ensures OnlyGrantChanged(before, after, gid)
  {
    assert gid in ChangedGrants(before, after);
    assert ChangedGrants(before, after) != {};
    SingletonOf(ChangedGrants(before, after), gid);
    assert MovedVerbs(before, after) == {};
    forall verb, tier ensures ApplyTier(after, verb, tier) == ApplyTier(before, verb, tier) {
      assert verb !in MovedVerbs(before, after);
      FloorsDecideTiers(before, after, verb, tier);
    }
    forall g | g in Gids(before, after) && g != gid
      ensures g in before.grants && g in after.grants && after.grants[g] == before.grants[g]
    {
      assert g !in ChangedGrants(before, after);
    }
    assert after.grants - {gid} == before.grants - {gid};
  }

  /** A renew verdict: one grant, and only its expiry, later. */
  lemma RenewIsOneExtension(before: Policy, after: Policy) returns (gid: Name)
    requires Classify(before, after) == Ok(RenewDelta)
    ensures OnlyGrantChanged(before, after, gid)
    ensures gid in before.grants && gid in after.grants
    ensures GrantChange(before.grants[gid], after.grants[gid]) == Ok(Extended)
    ensures var o, n := before.grants[gid], after.grants[gid];
            && Expires(o) && Expires(n) && SameKind(o, n) && o.expiresAt < n.expiresAt
            && (WellDeclared(o) && WellDeclared(n) ==> Meaning(o) == Meaning(n))
  {
    gid :| gid in Gids(before, after) && GrantDelta(before, after, gid) == Ok(Extended);
    OneChange(before, after, gid);
    hide GrantChange;
    ExtendedCoversLonger(before.grants[gid], after.grants[gid]);
  }

  /** A revoke verdict: one grant removed, nothing else touched. */
  lemma RevokeIsOneRemoval(before: Policy, after: Policy) returns (gid: Name)
    requires Classify(before, after) == Ok(GrantRevoke)
    ensures OnlyGrantChanged(before, after, gid)
    ensures gid !in after.grants
  {
    gid :| gid in Gids(before, after) && GrantDelta(before, after, gid) == Ok(Removed);
    OneChange(before, after, gid);
  }

  /** A change to a fixed kind's terms, or into or out of such a kind, has no verdict: whatever else the policies do,
      a grant of a fixed kind that both hold is the same but for a later expiry. */
  lemma FixedTermsStay(before: Policy, after: Policy, gid: Name)
    requires Classify(before, after).Ok?
    requires gid in before.grants && gid in after.grants
    requires Fixed(before.grants[gid]) || Fixed(after.grants[gid])
    ensures SameKind(before.grants[gid], after.grants[gid])
    ensures Meaning(after.grants[gid]) == Meaning(before.grants[gid])
    ensures after.grants[gid] != before.grants[gid] ==> OnlyExtended(before.grants[gid], after.grants[gid])
  {
    assert gid in Gids(before, after);
    assert GrantDelta(before, after, gid) == GrantChange(before.grants[gid], after.grants[gid]);
    assert GrantDelta(before, after, gid).Ok?;
  }
}
