/** What holds of a log built only by append (levain/authority.py, the unique-live checks and the revoke guard). */
module AppendedLogs {
  import opened Wrappers
  import opened AuthorityModel
  import opened AuthorityStep
  import opened AuthorityReplay
  import opened AppendRules
  import opened KeyLife
  import opened LinkEffects

  function LinkOf(row: Row): UnsignedLink {
    UnsignedLink(row.seqNo, row.prevHash, row.text, row.signer)
  }

  /** The log was built link by link by append, at clocks that never go back. */
  ghost predicate Built(rows: seq<Row>, clocks: seq<int>) {
    && |rows| == |clocks|
    && (rows != [] ==>
          var n := |rows| - 1;
          && Built(rows[..n], clocks[..n])
          && (n > 0 ==> clocks[n - 1] <= clocks[n])
          && Appended(rows[..n], LinkOf(rows[n]), rows[n].signature, clocks[n], None) == Ok(rows))
  }

  /** An append the anchor lets through is one an unanchored store would take. */
  lemma AnchorOnlyRestricts(rows: seq<Row>, link: UnsignedLink, signature: Signature, now: int, anchor: Option<Anchor>)
    requires Appended(rows, link, signature, now, anchor).Ok?
    ensures Appended(rows, link, signature, now, None) == Appended(rows, link, signature, now, anchor)
  {
    hide Step, LocalChecks;
  }

  /** The last link of a built log: taken as new by the step, and by the append rules at its clock. */
  lemma LastAppend(rows: seq<Row>, clocks: seq<int>)
    requires Built(rows, clocks) && |rows| >= 1
    ensures var n := |rows| - 1;
            && Built(rows[..n], clocks[..n]) && Accepted(rows) && Accepted(rows[..n])
            && (n == 0 ==> JudgeGenesis(RecordAt(rows, n), rows[n].signer, true) == Ok(At(rows, n + 1).core))
            && (n > 0 ==>
                  && rows[..n] != [] && At(rows[..n], n) == At(rows, n)
                  && Judge(At(rows, n).core, RecordAt(rows, n), rows[n].signer, true) == Ok(At(rows, n + 1).core)
                  && AppendOnlyChecks(At(rows, n).core.policy, RecordAt(rows, n).op, clocks[n]).Ok?)
  {
    var n := |rows| - 1;
    hide Step, AppendOnlyChecks, Judge, JudgeGenesis;
    AppendedReplays(rows[..n], LinkOf(rows[n]), rows[n].signature, clocks[n], None);
    StateShape(rows, n);
    LinkFacts(rows, n);
    assert rows[..n][..n] == rows[..n];
    NewStepFacts(Replay(rows[..n]).value, rows[n]);
  }

  /** A log built by append always replays. */
  lemma BuiltReplays(rows: seq<Row>, clocks: seq<int>)
    requires Built(rows, clocks)
    ensures Accepted(rows)
  {
    if rows != [] {
      LastAppend(rows, clocks);
    }
  }

  // ----- what an append brings in

  /** No kind this build does not know, and no graduation policy without a guard. */
  predicate KnownAndGuarded(g: Grant) {
    !g.Inert? && (g.Graduation? ==> g.guard.Some?)
  }

  /** What a link appended at `now` may bring in, change or extend. */
  ghost predicate AppendFits(before: Policy, op: Op, now: int) {
    && (op.CreateGrant? ==> KnownAndGuarded(op.grant))
    && (op.Loosen? ==> forall gid :: gid in op.policy.grants ==>
          var g := op.policy.grants[gid];
          if gid !in before.grants then KnownAndGuarded(g)
          else
            && (g != before.grants[gid] ==> KnownAndGuarded(g))
            && (g.EgressKey? || before.grants[gid].EgressKey? ==> g == before.grants[gid] || SameButExpiry(before.grants[gid], g)))
    && (op.Renew? ==>
          && op.gid in before.grants
          && var g := before.grants[op.gid];
          && HasExpiry(g) && (g.Graduation? ==> g.guard.Some?)
          && -600_000_000 <= now - op.signedAt <= 600_000_000
          && now < g.expiresAt && op.expiresAt <= now + 30 * DAY && (IsSeat(g) ==> op.expiresAt <= now + 14 * DAY))
  }

  /** A key whose custody is the one its material shows signs it, and none comes in at another custody than passkey with
      WebAuthn material. */
  ghost predicate NewKeysFit(before: map<Fingerprint, Key>, signer: Fingerprint, op: Op) {
    && signer in before && before[signer].revokedSeq.None?
    && (before[signer].custody == Passkey <==> WebAuthn(before[signer].publicKey))
    && (op.Enrol? ==> CustodyFits(op) && (WebAuthn(op.publicKey) ==> op.custody == Passkey))
  }

  lemma ChecksMean(before: Policy, op: Op, now: int)
    requires AppendOnlyChecks(before, op, now).Ok?
    ensures AppendFits(before, op, now)
  {
    hide SetupRecordsUnique, HandsUnique, SeatsUnique;
    if op.CreateGrant? {
      assert op.grant.id in Touched(before, op);
    } else if op.Loosen? {
      forall gid | gid in op.policy.grants && (gid !in before.grants || op.policy.grants[gid] != before.grants[gid])
        ensures KnownAndGuarded(op.policy.grants[gid])
      {
        assert gid in Touched(before, op);
      }
      forall gid | gid in op.policy.grants && gid in before.grants
                   && (op.policy.grants[gid].EgressKey? || before.grants[gid].EgressKey?)
        ensures op.policy.grants[gid] == before.grants[gid] || SameButExpiry(before.grants[gid], op.policy.grants[gid])
      {
        MeaningIsAllButExpiry(before.grants[gid], op.policy.grants[gid]);
      }
    }
    hide SameButExpiry, Meaning;
  }

  lemma NewJudgeMeans(core: Core, rec: Record, signer: Fingerprint)
    requires Judge(core, rec, signer, true).Ok?
    ensures NewKeysFit(core.keys, signer, rec.op)
  {
    if PolicyOp(rec.op) {
      PolicyLinkFacts(core, rec, signer, true);
    } else {
      KeyLinkFacts(core, rec, signer, true);
    }
    hide Judge;
  }

  /** Every link of a log built by append after its first fits what append takes at its clock, and its keys fit. */
  lemma BuiltLinksFit(rows: seq<Row>, clocks: seq<int>)
    requires Built(rows, clocks) && |rows| > 1
    ensures var n := |rows| - 1;
            && Accepted(rows)
            && AppendFits(At(rows, n).core.policy, RecordAt(rows, n).op, clocks[n])
            && NewKeysFit(At(rows, n).core.keys, rows[n].signer, RecordAt(rows, n).op)
  {
    LastAppend(rows, clocks);
    var n := |rows| - 1;
    hide Judge, AppendOnlyChecks, Appended, Replay, Step;
    ChecksMean(At(rows, n).core.policy, RecordAt(rows, n).op, clocks[n]);
    NewJudgeMeans(At(rows, n).core, RecordAt(rows, n), rows[n].signer);
  }

  // ----- at most one live

  /** Of the grants that have not expired at `now`: one setup record an entity and host, one seat lease, one seat-egress
      grant, one hands entry a name and a remote port. */
  ghost predicate OneOfEachLive(grants: map<Name, Grant>, now: int) {
    forall a, b :: a in grants && b in grants && a != b ==>
      var g, h := grants[a], grants[b];
      && (g.EgressKey? && h.EgressKey? && g.entity == h.entity && g.host == h.host ==> g.expiresAt <= now || h.expiresAt <= now)
      && (g.SeatLease? && h.SeatLease? ==> g.expiresAt <= now || h.expiresAt <= now)
      && (g.SeatEgress? && h.SeatEgress? ==> g.expiresAt <= now || h.expiresAt <= now)
      && (g.HandsMcp? && h.HandsMcp? && (g.name == h.name || (g.remoteEntry && h.remoteEntry && g.port == h.port)) ==>
            g.expiresAt <= now || h.expiresAt <= now)
  }

  lemma NoneIsUnique(now: int)
    ensures NoTwoLive(map[], now)
  {
  }

  lemma NoTwoIsOneOfEach(grants: map<Name, Grant>, now: int)
    ensures NoTwoLive(grants, now) <==> OneOfEachLive(grants, now)
  {
    forall a, b | a in grants && b in grants && a != b
      ensures Rivals(grants[a], grants[b]) && Live(grants[a], now) ==> OneOfEachLive(grants, now) ==> !Live(grants[b], now)
    {
    }
  }

  ghost predicate NoTwoLive(grants: map<Name, Grant>, now: int) {
    forall a, b ::
      (a in grants && b in grants && a != b && Rivals(grants[a], grants[b]) && Live(grants[a], now)) ==>
        !Live(grants[b], now)
  }

  /** Time alone breaks no uniqueness. */
  lemma LaterStillUnique(grants: map<Name, Grant>, t: int, u: int)
    requires NoTwoLive(grants, t) && t <= u
    ensures NoTwoLive(grants, u)
  {
  }

  /** What a policy op leaves: each grant as the checks considered it, but for the one a renew extends. */
  lemma AfterIsConsidered(p: Policy, op: Op, at: int, id: Name)
    requires PolicyOp(op) && ApplyPolicyOp(p, op, at).Ok? && id in ApplyPolicyOp(p, op, at).value.grants
    ensures var after := ApplyPolicyOp(p, op, at).value.grants[id];
            && id in Considered(p, op)
            && (!(op.Renew? && op.gid == id) ==> after == Considered(p, op)[id])
            && (op.Renew? && op.gid == id ==>
                  id in p.grants && Considered(p, op)[id] == p.grants[id] && Expires(p.grants[id])
                  && after == WithExpiry(p.grants[id], op.expiresAt))
            && (id !in Touched(p, op) ==> id in p.grants && after == p.grants[id])
  {
  }

  /** Rivals stay rivals when an expiry moves. */
  lemma RivalsByMeaning(a: Grant, b: Grant, e: int)
    requires Expires(a)
    ensures Rivals(WithExpiry(a, e), b) == Rivals(a, b) && Rivals(b, WithExpiry(a, e)) == Rivals(b, a)
  {
  }

  lemma RivalsSymmetric(a: Grant, b: Grant)
    ensures Rivals(a, b) == Rivals(b, a)
    ensures Rivals(a, b) ==> SameKind(a, b) && (a.EgressKey? || a.SeatLease? || a.SeatEgress? || a.HandsMcp?)
    ensures Rivals(a, b) ==> Rivals(a, a)
  {
  }

  /** If the considered grants hold two live rivals, neither was touched: the append rules see any pair they could
      blame on the op. */
  lemma TouchedPairRefused(p: Policy, op: Op, now: int, a: Name, b: Name)
    requires AppendOnlyChecks(p, op, now).Ok?
    requires var after := Considered(p, op);
             && a in after && b in after && a != b && Rivals(after[a], after[b])
             && Live(after[a], now) && Live(after[b], now)
    requires op.Renew? && Considered(p, op)[a].EgressKey? ==> NoTwoLive(p.grants, now)
    ensures a !in Touched(p, op) && b !in Touched(p, op)
  {
    var after := Considered(p, op);
    RivalsSymmetric(after[a], after[b]);
    RivalsSymmetric(after[b], after[a]);
    hide Considered, Touched, SetupRecordsKeepMeaning, GrantsAppendable, RenewTimely;
    ConsideredInRenew(p, op);
  }

  lemma ConsideredInRenew(p: Policy, op: Op)
    ensures op.Renew? ==> Considered(p, op) == p.grants
    ensures Touched(p, op) != {} ==> op.CreateGrant? || op.Loosen? || op.Renew?
  {
  }

  /** One appended link keeps it so: no two live rivals at its clock. */
  lemma AppendKeepsUnique(p: Policy, op: Op, at: int, now: int)
    requires PolicyOp(op) && ApplyPolicyOp(p, op, at).Ok? && AppendOnlyChecks(p, op, now).Ok?
    requires NoTwoLive(p.grants, now)
    ensures NoTwoLive(ApplyPolicyOp(p, op, at).value.grants, now)
  {
    var after := ApplyPolicyOp(p, op, at).value.grants;
    forall a, b | a in after && b in after && a != b && Rivals(after[a], after[b]) && Live(after[a], now)
      ensures !Live(after[b], now)
    {
      if Live(after[b], now) {
        AfterIsConsidered(p, op, at, a);
        AfterIsConsidered(p, op, at, b);
        RenewedWasLive(p, op, now);
        hide ApplyPolicyOp, AppendOnlyChecks, Considered, Touched;
        if op.Renew? && op.gid == a {
          RivalsByMeaning(p.grants[a], after[b], op.expiresAt);
        } else if op.Renew? && op.gid == b {
          RivalsByMeaning(p.grants[b], after[a], op.expiresAt);
        }
        TouchedPairRefused(p, op, now, a, b);
      }
    }
  }

  /** The converse of the append's checks, where no two rivals were live: it takes what fits and leaves no two live. */
  lemma ChecksIff(p: Policy, op: Op, at: int, now: int)
    requires PolicyOp(op) && ApplyPolicyOp(p, op, at).Ok? && OneOfEachLive(p.grants, now)
    ensures AppendOnlyChecks(p, op, now).Ok? <==>
              AppendFits(p, op, now) && OneOfEachLive(ApplyPolicyOp(p, op, at).value.grants, now)
  {
    var after := ApplyPolicyOp(p, op, at).value.grants;
    NoTwoIsOneOfEach(p.grants, now);
    NoTwoIsOneOfEach(after, now);
    ConsideredInRenew(p, op);
    hide NoTwoLive, OneOfEachLive, AppendFits;
    if AppendOnlyChecks(p, op, now).Ok? {
      ChecksMean(p, op, now);
      AppendKeepsUnique(p, op, at, now);
    }
    if AppendFits(p, op, now) && NoTwoLive(after, now) {
      assert op.CreateGrant? || op.Loosen? ==> Considered(p, op) == after;
      UniqueChecks(p, op, now);
      FitChecks(p, op, now);
      hide SetupRecordsKeepMeaning, SetupRecordsUnique, HandsUnique, SeatsUnique, GrantsAppendable, RenewTimely;
    }
    hide ApplyPolicyOp, AppendOnlyChecks;
  }

  lemma UniqueChecks(p: Policy, op: Op, now: int)
    requires Touched(p, op) != {} ==> NoTwoLive(Considered(p, op), now)
    ensures SetupRecordsUnique(p, op, now) && HandsUnique(p, op, now) && SeatsUnique(p, op, now)
  {
  }

  lemma FitChecks(p: Policy, op: Op, now: int)
    requires AppendFits(p, op, now)
    ensures SetupRecordsKeepMeaning(p, op) && GrantsAppendable(p, op)
    ensures op.Renew? ==>
              && op.gid in p.grants && Expires(p.grants[op.gid])
              && !(p.grants[op.gid].Graduation? && p.grants[op.gid].guard.None?)
              && RenewTimely(p.grants[op.gid], op.expiresAt, op.signedAt, now)
  {
    if op.Loosen? {
      forall gid | gid in op.policy.grants && gid in p.grants
        ensures op.policy.grants[gid] == p.grants[gid] || SameButExpiry(p.grants[gid], op.policy.grants[gid]) ==>
                  Meaning(p.grants[gid]) == Meaning(op.policy.grants[gid])
      {
        MeaningIsAllButExpiry(p.grants[gid], op.policy.grants[gid]);
      }
    }
    hide Meaning, SameButExpiry;
  }

  lemma RenewedWasLive(p: Policy, op: Op, now: int)
    requires AppendOnlyChecks(p, op, now).Ok? && op.Renew?
    ensures op.gid in p.grants && Live(p.grants[op.gid], now)
  {
    hide SetupRecordsKeepMeaning, SetupRecordsUnique, HandsUnique, SeatsUnique, GrantsAppendable;
  }

  /** A log built by append has, at every time from its last append on, at most one live setup record per entity and
      host, one live seat lease, one live seat-egress grant, and one live hands entry per name and remote port. */
  lemma {:induction false} BuiltHasOneLive(rows: seq<Row>, clocks: seq<int>, now: int)
    requires Built(rows, clocks) && rows != [] && clocks[|rows| - 1] <= now
    ensures Accepted(rows) && NoTwoLive(At(rows, |rows|).core.policy.grants, now)
    ensures OneOfEachLive(At(rows, |rows|).core.policy.grants, now)
    decreases |rows|
  {
    var n := |rows| - 1;
    hide NoTwoLive, OneOfEachLive;
    hide Appended, Replay, Step, Judge, JudgeGenesis, AppendOnlyChecks, ApplyPolicyOp;
    LastAppend(rows, clocks);
    if n == 0 {
      GenesisPolicyEmpty(RecordAt(rows, 0), rows[0].signer);
      NoneIsUnique(now);
    } else {
      BuiltHasOneLive(rows[..n], clocks[..n], clocks[n]);
      var core, rec := At(rows, n).core, RecordAt(rows, n);
      if PolicyOp(rec.op) {
        PolicyLinkApplies(core, rec, rows[n].signer, true);
        AppendKeepsUnique(core.policy, rec.op, rec.at, clocks[n]);
      } else {
        KeyLinkOnlyKeys(core, rec, rows[n].signer, true);
      }
      LaterStillUnique(At(rows, n + 1).core.policy.grants, clocks[n], now);
    }
    NoTwoIsOneOfEach(At(rows, |rows|).core.policy.grants, now);
  }

  lemma GenesisPolicyEmpty(rec: Record, fp: Fingerprint)
    requires JudgeGenesis(rec, fp, true).Ok?
    ensures JudgeGenesis(rec, fp, true).value.policy.grants == map[]
  {
  }

  lemma PolicyLinkApplies(core: Core, rec: Record, fp: Fingerprint, newLink: bool)
    requires Judge(core, rec, fp, newLink).Ok? && PolicyOp(rec.op)
    ensures ApplyPolicyOp(core.policy, rec.op, rec.at) == Ok(Judge(core, rec, fp, newLink).value.policy)
  {
    PolicyLinkFacts(core, rec, fp, newLink);
  }

  // ----- a laptop that can sign

  /** No link of the log revokes a key as compromised. */
  ghost predicate NoCompromise(rows: seq<Row>)
    requires Accepted(rows)
  {
    forall k :: 0 <= k < |rows| ==> !(RecordAt(rows, k).op.RevokeKey? && RecordAt(rows, k).op.since.Some?)
  }

  /** A log built by append in which no revoke declares a compromise always keeps an active, unquarantined
      laptop-presence key. */
  lemma {:induction false} BuiltKeepsSigner(rows: seq<Row>, clocks: seq<int>)
    requires Built(rows, clocks) && rows != [] && Accepted(rows) && NoCompromise(rows)
    ensures CanSign(At(rows, |rows|).core.keys)
    decreases |rows|
  {
    var n := |rows| - 1;
    hide Appended, Replay, Step, Judge, JudgeGenesis, AppendOnlyChecks;
    LastAppend(rows, clocks);
    if n == 0 {
      NewGenesisCanSign(RecordAt(rows, 0), rows[0].signer);
    } else {
      PrefixNoCompromise(rows, n);
      BuiltKeepsSigner(rows[..n], clocks[..n]);
      NewLinkKeepsSigner(At(rows, n).core, RecordAt(rows, n), rows[n].signer);
    }
  }

  lemma PrefixNoCompromise(rows: seq<Row>, n: nat)
    requires Accepted(rows) && n <= |rows| && NoCompromise(rows)
    ensures Accepted(rows[..n]) && NoCompromise(rows[..n])
  {
    PrefixAccepted(rows, n);
    forall k | 0 <= k < n ensures RecordAt(rows[..n], k) == RecordAt(rows, k) {
      LinkFacts(rows, k);
      LinkFacts(rows[..n], k);
    }
  }
}
