/** What every replayed state holds of its agent links (levain/authority.py, `_agent_link_step_checks`,
    `agent_link_unrevoked`, `agent_link_arms`, `agent_link_incarnation`). */
module AgentLinks {
  import opened Wrappers
  import opened AuthorityModel
  import opened Classifier
  import opened AuthorityStep
  import opened AuthorityReplay

  predicate StandingLink(core: Core, id: Name) {
    id in core.policy.grants && core.policy.grants[id].AgentLink?
  }

  /** An agent link's incarnation: where its id came into the policy, and everything it says but its expiry. */
  datatype Incarnation = Incarnation(born: nat, meaning: Grant)

  function LinkIncarnation(core: Core, id: Name): Option<Incarnation> {
    if StandingLink(core, id) && id in core.grantBorn
    then Some(Incarnation(core.grantBorn[id], Meaning(core.policy.grants[id]))) else None
  }

  /** The link was born after its agent's last revoke and after the agent's closed bars. */
  predicate Unrevoked(core: Core, id: Name, closedBarSeq: int) {
    && StandingLink(core, id) && id in core.grantBorn && closedBarSeq >= 0
    && var g := core.policy.grants[id];
    core.grantBorn[id] > AgentLastRevoke(core, g.agentId, g.storeId) && core.grantBorn[id] > closedBarSeq
  }

  /** The link is unrevoked and unexpired, at a time no earlier than the log's head. */
  predicate Arms(s: Snapshot, id: Name, now: int, closedBarSeq: int) {
    Unrevoked(s.core, id, closedBarSeq) && s.headAt <= now && now < s.core.policy.grants[id].expiresAt
  }

  // ----- the bookkeeping of every grant

  /** Each standing grant has a born seq and a last-change seq, in order, inside the log. */
  ghost predicate StampsInOrder(core: Core, n: nat) {
    && core.grantSeqs.Keys == core.grantBorn.Keys == core.policy.grants.Keys
    && (forall id :: id in core.policy.grants ==> 1 <= core.grantBorn[id] <= core.grantSeqs[id] <= n)
    && forall a :: a in core.agentRevoked ==> 1 <= core.agentRevoked[a] <= n
  }

  lemma LinkKeepsStamps(core: Core, rec: Record, fp: Fingerprint)
    requires Judge(core, rec, fp, false).Ok? && rec.seqNo >= 1 && StampsInOrder(core, rec.seqNo - 1)
    ensures StampsInOrder(Judge(core, rec, fp, false).value, rec.seqNo)
  {
    hide Judge;
    if PolicyOp(rec.op) {
      PolicyLinkStamped(core, rec, fp, false);
    } else {
      KeyLinkOnlyKeys(core, rec, fp, false);
    }
  }

  lemma {:induction false} StampsThrough(rows: seq<Row>, n: nat)
    requires Accepted(rows) && 1 <= n <= |rows|
    ensures StampsInOrder(At(rows, n).core, n)
  {
    hide Replay, Step, Judge;
    LinkFacts(rows, n - 1);
    if n == 1 {
      StateShape(rows, 0);
    } else {
      StampsThrough(rows, n - 1);
      LinkKeepsStamps(At(rows, n - 1).core, RecordAt(rows, n - 1), rows[n - 1].signer);
    }
  }

  // ----- one link of the log, seen from one agent link

  /** How a link of the log may leave the agent link `id` that it leaves standing: as it was, brought in, or renewed
      while unlapsed. */
  ghost predicate Evolved(before: Core, rec: Record, after: Core, id: Name)
    requires StandingLink(after, id) && id in after.grantBorn && id in after.grantSeqs
  {
    var g := after.policy.grants[id];
    || (&& StandingLink(before, id) && before.policy.grants[id] == g
        && id in before.grantBorn && after.grantBorn[id] == before.grantBorn[id]
        && id in before.grantSeqs && after.grantSeqs[id] == before.grantSeqs[id]
        && AgentLastRevoke(after, g.agentId, g.storeId) == AgentLastRevoke(before, g.agentId, g.storeId))
    || (&& id !in before.policy.grants && rec.at < g.expiresAt <= rec.at + GRANT_MAX
        && after.grantBorn[id] == after.grantSeqs[id] == rec.seqNo
        && !rec.op.RevokeAgent? && after.agentRevoked == before.agentRevoked)
    || (&& StandingLink(before, id) && rec.op.Renew? && rec.op.gid == id
        && rec.at < before.policy.grants[id].expiresAt < g.expiresAt <= rec.at + GRANT_MAX
        && g == WithExpiry(before.policy.grants[id], g.expiresAt)
        && id in before.grantBorn && after.grantBorn[id] == before.grantBorn[id] && after.grantSeqs[id] == rec.seqNo
        && after.agentRevoked == before.agentRevoked)
  }

  /** A renew extends the grant it names, and leaves the policy's other grants alone. */
  lemma RenewEvolves(core: Core, rec: Record, fp: Fingerprint, id: Name)
    requires Judge(core, rec, fp, false).Ok? && rec.op.Renew?
    ensures var before, after := core.policy.grants, Judge(core, rec, fp, false).value.policy.grants;
            && after.Keys == before.Keys
            && (id in before && id != rec.op.gid ==> after[id] == before[id])
            && (id in before && id == rec.op.gid ==>
                  && Expires(before[id]) && rec.at < before[id].expiresAt < rec.op.expiresAt <= rec.at + GRANT_MAX
                  && after[id] == WithExpiry(before[id], rec.op.expiresAt))
  {
    hide Judge, Classify, GraduationRules, AgentLinkRules, VoiceKeyRules, LinkFormat, PasskeyActAllowed, Stamped;
    PolicyLinkFacts(core, rec, fp, false);
  }

  /** Any other op leaves a standing agent link as it is, or brings it in with a bounded life. */
  lemma OtherOpEvolves(core: Core, rec: Record, fp: Fingerprint, id: Name)
    requires Judge(core, rec, fp, false).Ok? && PolicyOp(rec.op) && !rec.op.Renew?
    requires StandingLink(Judge(core, rec, fp, false).value, id)
    ensures var before, after := core.policy.grants, Judge(core, rec, fp, false).value.policy.grants;
            && (id in before ==> after[id] == before[id])
            && (id !in before ==> rec.at < after[id].expiresAt <= rec.at + GRANT_MAX)
            && (rec.op.RevokeAgent? ==> id in before && !LinkOfAgent(after[id], rec.op.agentId, rec.op.agentStoreId))
  {
    hide Judge, GraduationRules, VoiceKeyRules, LinkFormat, PasskeyActAllowed, Stamped;
    PolicyLinkFacts(core, rec, fp, false);
    if id in core.policy.grants {
      FixedTermsStay(core.policy, Judge(core, rec, fp, false).value.policy, id);
    }
    hide Classify;
  }

  lemma StampedAt(core: Core, policy: Policy, op: Op, seqNo: nat, id: Name)
    requires id in policy.grants && seqNo >= 1 && StampsInOrder(core, seqNo - 1)
    ensures var after := Stamped(core, policy, op, seqNo);
            && after.policy == policy && id in after.grantSeqs && id in after.grantBorn
            && (id in core.policy.grants ==>
                  id in core.grantBorn && id in core.grantSeqs && after.grantBorn[id] == core.grantBorn[id])
            && (id !in core.policy.grants ==> after.grantBorn[id] == after.grantSeqs[id] == seqNo)
            && (id in core.policy.grants && core.policy.grants[id] == policy.grants[id] ==>
                  after.grantSeqs[id] == core.grantSeqs[id])
            && (id in core.policy.grants && core.policy.grants[id] != policy.grants[id] ==>
                  after.grantSeqs[id] == seqNo)
            && (!op.RevokeAgent? ==> after.agentRevoked == core.agentRevoked)
            && (op.RevokeAgent? ==>
                  forall a: Name, st: Name :: (a, st) != (op.agentId, op.agentStoreId) ==>
                    AgentLastRevoke(after, a, st) == AgentLastRevoke(core, a, st))
  {
  }

  lemma LinkEvolves(core: Core, rec: Record, fp: Fingerprint, id: Name)
    requires Judge(core, rec, fp, false).Ok? && rec.seqNo >= 1 && StampsInOrder(core, rec.seqNo - 1)
    requires StandingLink(Judge(core, rec, fp, false).value, id)
    ensures StampsInOrder(Judge(core, rec, fp, false).value, rec.seqNo)
    ensures Evolved(core, rec, Judge(core, rec, fp, false).value, id)
  {
    hide Judge, Stamped, StampsInOrder;
    LinkKeepsStamps(core, rec, fp);
    if !PolicyOp(rec.op) {
      KeyLinkOnlyKeys(core, rec, fp, false);
      StampsOf(core, rec.seqNo - 1, id);
    } else {
      PolicyLinkStamped(core, rec, fp, false);
      StampedAt(core, Judge(core, rec, fp, false).value.policy, rec.op, rec.seqNo, id);
      if rec.op.Renew? {
        RenewEvolves(core, rec, fp, id);
      } else {
        OtherOpEvolves(core, rec, fp, id);
      }
    }
  }

  lemma StampsOf(core: Core, n: nat, id: Name)
    requires StampsInOrder(core, n) && id in core.policy.grants
    ensures id in core.grantBorn && id in core.grantSeqs
  {
  }

  /** What a standing agent link's stamps and expiry say, against the log. */
  ghost predicate LinkInOrder(rows: seq<Row>, core: Core, id: Name)
    requires Accepted(rows) && StandingLink(core, id)
  {
    && id in core.grantBorn && id in core.grantSeqs
    && 1 <= core.grantSeqs[id] <= |rows|
    && var g, changed := core.policy.grants[id], RecordAt(rows, core.grantSeqs[id] - 1).at;
    && core.grantBorn[id] > AgentLastRevoke(core, g.agentId, g.storeId)
    && changed < g.expiresAt <= changed + GRANT_MAX
  }

  /** In every replayed state, each standing agent link was born after its agent's last revoke; its expiry is later than
      the time of the link that last brought it in or renewed it, and at most 30 days past it. */
  lemma {:induction false} LinksInOrder(rows: seq<Row>, n: nat, id: Name)
    requires Accepted(rows) && 1 <= n <= |rows| && StandingLink(At(rows, n).core, id)
    ensures LinkInOrder(rows, At(rows, n).core, id)
    ensures StampsInOrder(At(rows, n).core, n)
    decreases n
  {
    hide Replay, Step, Judge;
    StampsThrough(rows, n);
    LinkFacts(rows, n - 1);
    if n == 1 {
      StateShape(rows, 0);
    } else {
      StampsThrough(rows, n - 1);
      LinkEvolves(At(rows, n - 1).core, RecordAt(rows, n - 1), rows[n - 1].signer, id);
      if StandingLink(At(rows, n - 1).core, id) {
        LinksInOrder(rows, n - 1, id);
      }
    }
  }

  /** So the expiry is later than the time of every link up to the last renew. */
  lemma ExpiryAfterEveryLinkToRenew(rows: seq<Row>, n: nat, id: Name, j: nat)
    requires Accepted(rows) && 1 <= n <= |rows| && StandingLink(At(rows, n).core, id)
    requires id in At(rows, n).core.grantSeqs && j < At(rows, n).core.grantSeqs[id]
    ensures j < |rows| && RecordAt(rows, j).at < At(rows, n).core.policy.grants[id].expiresAt
  {
    hide Replay, Step, Judge, At, RecordAt;
    LinksInOrder(rows, n, id);
    TimesMonotone(rows, j, At(rows, n).core.grantSeqs[id] - 1);
  }

  // ----- incarnations

  /** The log holds the agent link from `i` links on to `j` links on. */
  ghost predicate HeldThroughout(rows: seq<Row>, i: nat, j: nat, id: Name)
    requires Accepted(rows) && 1 <= i <= j <= |rows|
  {
    forall k :: i <= k <= j ==> StandingLink(At(rows, k).core, id)
  }

  /** While the id stands, its incarnation is constant and its expiry only moves later, never over a lapse. */
  lemma {:induction false} IncarnationConstant(rows: seq<Row>, i: nat, j: nat, id: Name)
    requires Accepted(rows) && 1 <= i <= j <= |rows| && HeldThroughout(rows, i, j, id)
    ensures LinkIncarnation(At(rows, j).core, id) == LinkIncarnation(At(rows, i).core, id)
    ensures LinkIncarnation(At(rows, i).core, id).Some?
    ensures At(rows, i).core.policy.grants[id].expiresAt <= At(rows, j).core.policy.grants[id].expiresAt
    decreases j
  {
    hide Replay, Step, Judge;
    StampsThrough(rows, i);
    if i < j {
      IncarnationConstant(rows, i, j - 1, id);
      StampsThrough(rows, j - 1);
      LinkFacts(rows, j - 1);
      LinkEvolves(At(rows, j - 1).core, RecordAt(rows, j - 1), rows[j - 1].signer, id);
    }
  }

  /** A lapse is never bridged: a link of the log that changes a standing agent link found it unlapsed. */
  lemma NoLapseBridged(rows: seq<Row>, k: nat, id: Name)
    requires Accepted(rows) && 1 <= k < |rows|
    requires StandingLink(At(rows, k).core, id) && StandingLink(At(rows, k + 1).core, id)
    requires At(rows, k + 1).core.policy.grants[id] != At(rows, k).core.policy.grants[id]
    ensures RecordAt(rows, k).op.Renew? && RecordAt(rows, k).op.gid == id
    ensures RecordAt(rows, k).at < At(rows, k).core.policy.grants[id].expiresAt
  {
    hide Replay, Step, Judge;
    StampsThrough(rows, k);
    LinkFacts(rows, k);
    LinkEvolves(At(rows, k).core, RecordAt(rows, k), rows[k].signer, id);
  }

  /** The born seq of a standing link is the last time the id came in: after every state that did not hold it. */
  lemma {:induction false} BornAfterAbsence(rows: seq<Row>, m: nat, j: nat, id: Name)
    requires Accepted(rows) && 1 <= m < j <= |rows|
    requires !StandingLink(At(rows, m).core, id) && StandingLink(At(rows, j).core, id)
    ensures id in At(rows, j).core.grantBorn && At(rows, j).core.grantBorn[id] > m
    decreases j
  {
    hide Replay, Step, Judge;
    StampsThrough(rows, j - 1);
    StampsThrough(rows, j);
    LinkFacts(rows, j - 1);
    LinkEvolves(At(rows, j - 1).core, RecordAt(rows, j - 1), rows[j - 1].signer, id);
    if m < j - 1 && StandingLink(At(rows, j - 1).core, id) {
      BornAfterAbsence(rows, m, j - 1, id);
    }
  }

  /** Two states that both hold the id hold the same incarnation of it exactly when every state between does: a revoke
      and a later create of the same id, even with the same terms, is another incarnation. */
  lemma SameIncarnationIffHeld(rows: seq<Row>, i: nat, j: nat, id: Name)
    requires Accepted(rows) && 1 <= i <= j <= |rows|
    requires StandingLink(At(rows, i).core, id) && StandingLink(At(rows, j).core, id)
    ensures LinkIncarnation(At(rows, i).core, id) == LinkIncarnation(At(rows, j).core, id)
            <==> HeldThroughout(rows, i, j, id)
  {
    hide Replay, Step, Judge;
    if HeldThroughout(rows, i, j, id) {
      IncarnationConstant(rows, i, j, id);
    } else {
      var m :| i <= m <= j && !StandingLink(At(rows, m).core, id);
      BornAfterAbsence(rows, m, j, id);
      StampsThrough(rows, i);
    }
  }

  /** A revoke of the agent leaves none of its links, and nothing born before it ever arms again. */
  lemma RevokeAgentIsFinal(rows: seq<Row>, k: nat, j: nat, id: Name)
    requires Accepted(rows) && 1 <= k < j <= |rows|
    requires RecordAt(rows, k).op.RevokeAgent? && StandingLink(At(rows, j).core, id)
    requires LinkOfAgent(At(rows, j).core.policy.grants[id], RecordAt(rows, k).op.agentId, RecordAt(rows, k).op.agentStoreId)
    ensures At(rows, j).core.grantBorn.Keys >= {id} && At(rows, j).core.grantBorn[id] > k + 1
  {
    hide Replay, Step, Judge;
    StampsThrough(rows, j);
    if HeldThroughout(rows, k + 1, j, id) {
      HeldIsAnotherAgents(rows, k, j, id);
    } else {
      var m :| k + 1 <= m <= j && !StandingLink(At(rows, m).core, id);
      BornAfterAbsence(rows, m, j, id);
    }
  }

  lemma HeldIsAnotherAgents(rows: seq<Row>, k: nat, j: nat, id: Name)
    requires Accepted(rows) && 1 <= k < j <= |rows|
    requires RecordAt(rows, k).op.RevokeAgent? && HeldThroughout(rows, k + 1, j, id)
    ensures !LinkOfAgent(At(rows, j).core.policy.grants[id], RecordAt(rows, k).op.agentId, RecordAt(rows, k).op.agentStoreId)
  {
    hide Replay, Step, Judge;
    IncarnationConstant(rows, k + 1, j, id);
    RevokeRemoves(rows, k, id);
    MeaningNamesAgent(At(rows, k + 1).core.policy.grants[id], At(rows, j).core.policy.grants[id]);
  }

  lemma MeaningNamesAgent(a: Grant, b: Grant)
    requires Meaning(a) == Meaning(b) && a.AgentLink? && b.AgentLink?
    ensures a.agentId == b.agentId && a.storeId == b.storeId
  {
    assert Meaning(a) == AgentLink(a.id, a.agentId, a.storeId, a.terms, 0);
    assert Meaning(b) == AgentLink(b.id, b.agentId, b.storeId, b.terms, 0);
  }

  lemma RevokeRemoves(rows: seq<Row>, k: nat, id: Name)
    requires Accepted(rows) && 1 <= k < |rows|
    requires RecordAt(rows, k).op.RevokeAgent? && StandingLink(At(rows, k + 1).core, id)
    ensures !LinkOfAgent(At(rows, k + 1).core.policy.grants[id], RecordAt(rows, k).op.agentId, RecordAt(rows, k).op.agentStoreId)
  {
    hide Replay, Step, Judge;
    LinkFacts(rows, k);
    PolicyLinkFacts(At(rows, k).core, RecordAt(rows, k), rows[k].signer, false);
  }
}
