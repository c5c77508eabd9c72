/** Exactly what change the classifier calls a grant's (levain/authority.py, `_grant_change`). */
module ChangeKinds {
  import opened Wrappers
  import opened AuthorityModel
  import opened Classifier
  import opened LinkEffects
  import opened Paths

  /** A kind with a narrower form. */
  predicate Narrowable(g: Grant) {
    g.Egress? || g.Consent? || g.ConsentMcp? || g.ContainedShell?
  }

  /** The grant lets something through. */
  predicate Reaches(g: Grant) {
    && (g.Egress? ==> g.refspecs != {} && g.verbs != {})
    && (g.Consent? || g.ConsentMcp? ==> g.tools != {} && g.postures != {})
  }

  /** Every request the new grant answers, the old one answered. */
  ghost predicate AnswersLess(o: Grant, n: Grant) {
    forall r :: Covers(n, r) ==> Covers(o, r)
  }

  predicate DeclaresAlike(o: Grant, n: Grant)
    requires o.ConsentMcp? && n.ConsentMcp?
  {
    forall t :: t in n.tools ==> Declaration(n.fields, t) == Declaration(o.fields, t)
  }

  lemma SelfWithin(s: string)
    ensures Within(s, s)
  {
  }

  lemma LessEgress(o: Grant, n: Grant)
    requires o.Egress? && n.Egress? && Reaches(n) && AnswersLess(o, n)
    ensures o.entity == n.entity && o.remote == n.remote && o.deployKey == n.deployKey
    ensures n.refspecs <= o.refspecs && n.verbs <= o.verbs && n.expiresAt <= o.expiresAt
  {
    var last := n.expiresAt - 1;
    forall v, p | v in n.verbs && p in n.refspecs
      ensures v in o.verbs && p in o.refspecs && last < o.expiresAt
      ensures o.entity == n.entity && o.remote == n.remote && o.deployKey == n.deployKey
    {
      var r := Push(n.entity, n.remote, n.deployKey, v, {p}, last);
      assert p in n.refspecs * r.matching;
      assert Covers(n, r);
      assert Covers(o, r);
      var q :| q in o.refspecs * r.matching;
    }
    var v, p :| v in n.verbs && p in n.refspecs;
    assert v in o.verbs;
  }

  lemma LessConsent(o: Grant, n: Grant)
    requires (o.Consent? && n.Consent?) || (o.ConsentMcp? && n.ConsentMcp?)
    requires Reaches(n) && AnswersLess(o, n)
    ensures o.agent == n.agent && n.tools <= o.tools && n.postures <= o.postures
    ensures Within(n.workspace, o.workspace) && n.expiresAt <= o.expiresAt
  {
    SelfWithin(n.workspace);
    forall t, p | t in n.tools && p in n.postures
      ensures t in o.tools && p in o.postures && n.expiresAt <= o.expiresAt && o.agent == n.agent
      ensures Within(n.workspace, o.workspace)
    {
      var r := ToolCall(n.agent, t, p, n.workspace, {}, map[], n.expiresAt - 1);
      assert Covers(n, r);
      assert Covers(o, r);
    }
    hide Within;
    var t, p :| t in n.tools && p in n.postures;
    assert t in o.tools;
  }

  lemma LessShell(o: Grant, n: Grant)
    requires o.ContainedShell? && n.ContainedShell? && AnswersLess(o, n)
    ensures o.digest == n.digest && Within(n.workspace, o.workspace) && n.expiresAt <= o.expiresAt
  {
    SelfWithin(n.workspace);
    var r := ContainedCall(n.digest, n.workspace, n.expiresAt - 1);
    assert Covers(n, r);
    assert Covers(o, r);
  }

  /** A changed grant that lets something through is called tighter exactly when it keeps its id, answers nothing the old one
      did not, and (for MCP tools) declares the same inputs for every tool it still names. */
  lemma TighterIff(o: Grant, n: Grant)
    requires o != n && SameKind(o, n) && Narrowable(n) && Reaches(n)
    ensures GrantChange(o, n) == Ok(Tighter) <==>
              o.id == n.id && AnswersLess(o, n) && (n.ConsentMcp? ==> DeclaresAlike(o, n))
  {
    if GrantChange(o, n) == Ok(Tighter) {
      forall r | Covers(n, r) ensures Covers(o, r) {
        TighterCoversLess(o, n, r);
      }
    }
    if AnswersLess(o, n) {
      if n.Egress? {
        LessEgress(o, n);
      } else if n.ContainedShell? {
        LessShell(o, n);
      } else {
        LessConsent(o, n);
      }
    }
    hide AnswersLess, Within, Covers;
  }

  /** It is called extended exactly when it says what it said, but for a later expiry. */
  lemma ExtendedIff(o: Grant, n: Grant)
    requires SaysItsFields(o) && SaysItsFields(n)
    ensures GrantChange(o, n) == Ok(Extended) <==> SameButExpiry(o, n) && o.expiresAt < n.expiresAt
  {
    DeclaredMeans(o);
    DeclaredMeans(n);
    hide SaysItsFields;
    if GrantChange(o, n) == Ok(Extended) {
      ExtendedCoversLonger(o, n);
      MeaningIsAllButExpiry(o, n);
    }
    hide WellDeclared, Covers;
  }

  /** A kind whose terms are fixed under the id. */
  predicate FixedKind(g: Grant) {
    || g.VoiceKey? || g.Graduation? || g.GraduationPhone? || g.HandsMcp? || g.SeatEgress? || g.SeatLease? || g.AgentLink?
  }

  /** A change is refused exactly when a fixed kind is in it and it is no extension; and what is neither refused, nor equal,
      nor extended, nor tighter is looser. A kind without a narrower form has none. */
  lemma RefusedIff(o: Grant, n: Grant)
    ensures GrantChange(o, n).Err? <==>
              o != n && (FixedKind(o) || FixedKind(n)) && !(SameButExpiry(o, n) && o.expiresAt < n.expiresAt)
    ensures GrantChange(o, n) == Ok(Same) <==> o == n
    ensures GrantChange(o, n).Ok? ==> GrantChange(o, n).value in {Same, Extended, Tighter, Looser}
    ensures GrantChange(o, n) == Ok(Tighter) ==> SameKind(o, n) && Narrowable(n)
  {
    OnlyExtendedIs(o, n);
    hide Within, Declaration, OnlyExtended, SameButExpiry, ConsentChange, EgressChange, ConsentMcpChange, ContainedShellChange;
  }

  lemma OnlyExtendedIs(o: Grant, n: Grant)
    ensures OnlyExtended(o, n) <==> SameButExpiry(o, n) && o.expiresAt < n.expiresAt
    ensures SameButExpiry(o, n) ==> SameKind(o, n) && HasExpiry(o) && HasExpiry(n)
    ensures o.Egress? && n.Egress? ==> EgressChange(o, n) in {Extended, Tighter, Looser}
    ensures o.Consent? && n.Consent? ==> ConsentChange(o, n) in {Extended, Tighter, Looser}
    ensures o.ConsentMcp? && n.ConsentMcp? ==> ConsentMcpChange(o, n) in {Extended, Tighter, Looser}
    ensures o.ContainedShell? && n.ContainedShell? ==> ContainedShellChange(o, n) in {Extended, Tighter, Looser}
  {
    MeaningIsAllButExpiry(o, n);
    hide Within, Declaration, Meaning;
  }
}
