/** The held replay an agent's liveness is judged from, and the launch fence
    (levain/agent_authority.py, `AgentAuthority` and `agent_fence`). */
module AgentFence {
  import opened Wrappers
  import opened AuthorityModel
  import opened AuthorityStep
  import opened AuthorityReplay
  import opened ChainPins
  import opened AppendRules
  import opened AgentLinks

  // ----- liveness of a link in a replayed state

  predicate ActiveKey(core: Core, fp: Fingerprint) {
    fp in core.keys && core.keys[fp].Active()
  }

  /** The signers of the links that brought the grant in and last changed it are active keys. */
  predicate SignersStand(s: Snapshot, id: Name) {
    && id in s.core.grantBorn && id in s.core.grantSeqs && |s.signers| == s.seqNo
    && 1 <= s.core.grantBorn[id] <= s.seqNo && 1 <= s.core.grantSeqs[id] <= s.seqNo
    && ActiveKey(s.core, s.signers[s.core.grantBorn[id] - 1])
    && ActiveKey(s.core, s.signers[s.core.grantSeqs[id] - 1])
  }

  /** The link names the agent and store, is unexpired and unrevoked, and its signers stand. */
  predicate LinkLive(s: Snapshot, id: Name, agentId: Name, storeId: Name, now: int, closedBarSeq: int) {
    && StandingLink(s.core, id)
    && LinkOfAgent(s.core.policy.grants[id], agentId, storeId)
    && Arms(s, id, now, closedBarSeq)
    && SignersStand(s, id)
  }

  ghost predicate UnrevokedKey(core: Core, fp: Fingerprint) {
    fp in core.keys && core.keys[fp].revokedSeq.None?
  }

  /** The state holds `id` as a link of that agent and store that `now` is before the expiry of and no link of the log is
      later than; it came in after the agent's last revoke and after `barSeq`; and unrevoked keys of the state signed the
      link that brought it in and the one that last changed it. */
  ghost predicate InForce(s: Snapshot, id: Name, agentId: Name, storeId: Name, now: int, barSeq: int) {
    var core := s.core;
    && id in core.policy.grants && core.policy.grants[id].AgentLink?
    && core.policy.grants[id].agentId == agentId && core.policy.grants[id].storeId == storeId
    && s.headAt <= now < core.policy.grants[id].expiresAt
    && id in core.grantBorn && id in core.grantSeqs
    && ((agentId, storeId) in core.agentRevoked ==> core.grantBorn[id] > core.agentRevoked[(agentId, storeId)])
    && 0 <= barSeq < core.grantBorn[id]
    && s.seqNo == |s.signers| && 1 <= core.grantBorn[id] <= s.seqNo && 1 <= core.grantSeqs[id] <= s.seqNo
    && UnrevokedKey(core, s.signers[core.grantBorn[id] - 1]) && UnrevokedKey(core, s.signers[core.grantSeqs[id] - 1])
  }

  lemma LiveIsInForce(s: Snapshot, id: Name, agentId: Name, storeId: Name, now: int, barSeq: int)
    ensures LinkLive(s, id, agentId, storeId, now, barSeq) <==> InForce(s, id, agentId, storeId, now, barSeq)
  {
  }

  // ----- the held view

  /** The log's last stored link as one read sees it: its seq and hash. */
  function LogHead(rows: seq<Row>): (nat, Hash) {
    if rows == [] then (0, NoHash) else (rows[|rows| - 1].seqNo, rows[|rows| - 1].hash)
  }

  datatype CoverMoved = CoverMoved

  class AgentAuthority {
    var held: Option<Snapshot>

    constructor ()
      ensures held == None
    {
      held := None;
    }

    /** Replay and hold: a failed replay, an empty log, or one the anchor refuses, leaves nothing held. */
    method Refresh(rows: seq<Row>, pinned: Option<Anchor>) returns (r: Result<Snapshot, Error>)
      modifies this
      ensures r.Ok? <==> Accepted(rows) && rows != [] && CheckAnchor(At(rows, |rows|), pinned).Ok?
      ensures r.Ok? ==> r.value == At(rows, |rows|) && held == Some(r.value)
      ensures r.Err? ==> held == None
    {
      hide Step;
      held := None;
      var state := Replay(rows);
      if state.Err? {
        return Err(state.error);
      }
      if state.value.None? {
        return Err(BadGenesis);
      }
      assert rows[..|rows|] == rows;
      var checked := CheckAnchor(state.value.value, pinned);
      if checked.Err? {
        return Err(checked.error);
      }
      held := Some(state.value.value);
      r := Ok(state.value.value);
    }

    /** The held replay, once the anchor, the head and the anchor again agree with it. */
    method Unmoved(before: Option<Anchor>, head: (nat, Hash), after: Option<Anchor>)
      returns (r: Result<Snapshot, CoverMoved>)
      ensures r.Ok? <==>
                && held.Some? && CheckAnchor(held.value, before).Ok?
                && head == (held.value.seqNo, held.value.headHash) && after == before
      ensures r.Ok? ==> Some(r.value) == held
    {
      if held.None? {
        return Err(CoverMoved);
      }
      var checked := CheckAnchor(held.value, before);
      if checked.Err? || head != (held.value.seqNo, held.value.headHash) || after != before {
        return Err(CoverMoved);
      }
      r := Ok(held.value);
    }

    /** Liveness and incarnation of a link from the held replay, after it is confirmed unmoved. */
    method Peek(before: Option<Anchor>, head: (nat, Hash), after: Option<Anchor>, id: Name, agentId: Name,
                storeId: Name, now: int, closedBarSeq: int)
      returns (r: Result<(bool, Option<Incarnation>), CoverMoved>)
      ensures r.Ok? <==>
                && held.Some? && CheckAnchor(held.value, before).Ok?
                && head == (held.value.seqNo, held.value.headHash) && after == before
      ensures r.Ok? ==>
                && (StampsInOrder(held.value.core, held.value.seqNo) ==>
                      r.value.0 == LinkLive(held.value, id, agentId, storeId, now, closedBarSeq))
                && (r.value.0 ==> LinkLive(held.value, id, agentId, storeId, now, closedBarSeq))
                && r.value.1 == LinkIncarnation(held.value.core, id)
      ensures r.Ok? && r.value.0 ==> InForce(held.value, id, agentId, storeId, now, closedBarSeq)
      ensures r.Ok? && StampsInOrder(held.value.core, held.value.seqNo) && !r.value.0 ==>
                !InForce(held.value, id, agentId, storeId, now, closedBarSeq)
    {
      if held.Some? {
        LiveIsInForce(held.value, id, agentId, storeId, now, closedBarSeq);
        hide InForce;
      }
      var unmoved := Unmoved(before, head, after);
      if unmoved.Err? {
        return Err(CoverMoved);
      }
      var state := unmoved.value;
      var incarnation := LinkIncarnation(state.core, id);
      if incarnation.None? || !LinkOfAgent(state.core.policy.grants[id], agentId, storeId) {
        return Ok((false, incarnation));
      }
      if !Arms(state, id, now, closedBarSeq) {
        return Ok((false, incarnation));
      }
      r := Ok((SignersStand(state, id), incarnation));
    }
  }

  // ----- what an unmoved head says of the log at the instant it was read

  /** Some log whose head row equals the held replay's: if that log replays, its state is the held one, the signers
      aside; and if the log has only grown since the refresh, it is the very log that was replayed. */
  lemma UnmovedHeadPinsLog(refreshed: seq<Row>, instant: seq<Row>)
    requires Accepted(refreshed) && refreshed != []
    requires LogHead(instant) == (At(refreshed, |refreshed|).seqNo, At(refreshed, |refreshed|).headHash)
    ensures Accepted(instant) ==>
              && |instant| == |refreshed|
              && At(instant, |instant|) == At(refreshed, |refreshed|).(signers := At(instant, |instant|).signers)
    ensures refreshed <= instant && Accepted(instant) ==> instant == refreshed
  {
    hide Step, Replay, Judge;
    StateShape(refreshed, |refreshed|);
    if Accepted(instant) {
      StateShape(instant, |instant|);
      if instant != [] { LinkFacts(instant, |instant| - 1); }
      hide Accepted, RecordAt, StateAt;
      HashPinsState(refreshed, instant, |refreshed|);
    }
  }

  /** A replayed state's stamps are in order, so a peek of it is exactly the link's liveness there. */
  lemma ReplayedStampsInOrder(rows: seq<Row>)
    requires Accepted(rows) && rows != []
    ensures At(rows, |rows|).seqNo == |rows| && StampsInOrder(At(rows, |rows|).core, At(rows, |rows|).seqNo)
  {
    hide Step, Replay;
    StateShape(rows, |rows|);
    StampsThrough(rows, |rows|);
  }

  // ----- the fence

  datatype OccurrenceState = Admitted | Launched | Done | Failed | Stopped | OtherEnd

  /** The columns a launch writes once; a row that was never launched lacks some. */
  datatype Launch = Launch(agentId: Name, linkId: Option<Name>, incarnation: Option<Incarnation>, specHash: Name,
                           bindingId: Option<Name>, epoch: Option<int>)

  datatype Occurrence = Occurrence(launch: Launch, epoch: int, state: OccurrenceState)

  datatype Bar = Bar(agentId: Name, closed: bool, revokeSeq: Option<int>)

  /** A fence is a digest of these fields, taken as injective. */
  datatype Fence = Fence(launch: Launch, liveIncarnation: Option<Incarnation>, epoch: int, state: OccurrenceState,
                         barred: bool, live: bool)

  predicate LaunchComplete(l: Launch) {
    l.linkId.Some? && l.incarnation.Some? && l.bindingId.Some? && l.epoch.Some?
  }

  /** The launch's own side: built from its columns alone. */
  function LaunchFence(l: Launch): Option<Fence> {
    if LaunchComplete(l) then Some(Fence(l, l.incarnation, l.epoch.value, Launched, false, true)) else None
  }

  predicate OpenBar(bars: seq<Bar>, agentId: Name) {
    exists i :: 0 <= i < |bars| && bars[i].agentId == agentId && !bars[i].closed
  }

  /** The highest revoke seq of the agent's closed bars, 0 for none. */
  function ClosedBarSeq(bars: seq<Bar>, agentId: Name): int {
    if bars == [] then 0
    else
      var rest, b := ClosedBarSeq(bars[1..], agentId), bars[0];
      if b.agentId == agentId && b.closed && b.revokeSeq.Some?
         && (b.revokeSeq.value > rest || !ClosedBarRecorded(bars[1..], agentId))
      then b.revokeSeq.value else rest
  }

  predicate ClosedBarRecorded(bars: seq<Bar>, agentId: Name) {
    exists i :: 0 <= i < |bars| && bars[i].agentId == agentId && bars[i].closed && bars[i].revokeSeq.Some?
  }

  lemma {:induction false} ClosedBarSeqIsMax(bars: seq<Bar>, agentId: Name, i: nat)
    requires i < |bars| && bars[i].agentId == agentId && bars[i].closed && bars[i].revokeSeq.Some?
    ensures bars[i].revokeSeq.value <= ClosedBarSeq(bars, agentId)
  {
    if i > 0 {
      ClosedBarSeqIsMax(bars[1..], agentId, i - 1);
      assert bars[1..][i - 1] == bars[i];
    }
  }

  /** The current side: the stored row, the bars, and what a peek of the stored link answered. */
  function CurrentFence(row: Occurrence, bars: seq<Bar>, live: bool, incarnation: Option<Incarnation>): Fence {
    Fence(row.launch, incarnation, row.epoch, row.state, OpenBar(bars, row.launch.agentId), live)
  }

  /** The two sides agree exactly when the row is that launch, still at its epoch and launched, with no open bar, and
      the stored link is live under the launch's own incarnation. */
  lemma FenceAgrees(l: Launch, row: Occurrence, bars: seq<Bar>, live: bool, incarnation: Option<Incarnation>)
    requires LaunchComplete(l)
    ensures LaunchFence(l) == Some(CurrentFence(row, bars, live, incarnation)) <==>
              && row.launch == l && row.epoch == l.epoch.value && row.state == Launched
              && !OpenBar(bars, l.agentId) && live && incarnation == l.incarnation
  {
  }

  /** The row is the launch's own, at its epoch and launched, with no open bar. */
  predicate RowStands(l: Launch, row: Occurrence, bars: seq<Bar>) {
    LaunchComplete(l) && row.launch == l && row.epoch == l.epoch.value && row.state == Launched && !OpenBar(bars, l.agentId)
  }

  /** The held replay is confirmed by the anchor, the head and the anchor again. */
  predicate Confirmed(held: Snapshot, before: Option<Anchor>, head: (nat, Hash), after: Option<Anchor>) {
    CheckAnchor(held, before).Ok? && head == (held.seqNo, held.headHash) && after == before
  }

  /** The state holds the launch's very incarnation, of its agent and store, unexpired at `now`, born after its agent's
      last revoke and after every closed bar. */
  predicate HoldsLaunch(s: Snapshot, l: Launch, storeId: Name, now: int, closedBarSeq: int)
    requires l.linkId.Some?
  {
    var id := l.linkId.value;
    && LinkIncarnation(s.core, id) == l.incarnation && StandingLink(s.core, id)
    && LinkOfAgent(s.core.policy.grants[id], l.agentId, storeId) && Arms(s, id, now, closedBarSeq)
  }

  /** The signers that the log's own rows name, of the link that brought the grant in and of the one that last changed
      it, are active keys of its replay. */
  ghost predicate NamedSignersActive(rows: seq<Row>, id: Name)
    requires Accepted(rows) && rows != []
  {
    var core := At(rows, |rows|).core;
    && id in core.grantBorn && id in core.grantSeqs
    && 1 <= core.grantBorn[id] <= |rows| && 1 <= core.grantSeqs[id] <= |rows|
    && ActiveKey(core, rows[core.grantBorn[id] - 1].signer) && ActiveKey(core, rows[core.grantSeqs[id] - 1].signer)
  }

  /** In a replayed state the signers stand exactly when the rows name active keys. */
  lemma SignersAreNamed(rows: seq<Row>, id: Name)
    requires Accepted(rows) && rows != []
    ensures SignersStand(At(rows, |rows|), id) <==> NamedSignersActive(rows, id)
  {
    hide Step, Replay;
    StateShape(rows, |rows|);
  }

  /** Whatever log the head row was read from: if it replays, its replay holds the launch exactly where the held one does,
      and the link is live there exactly when, besides, the signers that log names are active. A log that only grew since
      the refresh is the very log that was replayed. */
  lemma HeadCarriesLaunch(refreshed: seq<Row>, instant: seq<Row>, l: Launch, storeId: Name, now: int, closedBarSeq: int)
    requires Accepted(refreshed) && refreshed != [] && Accepted(instant) && l.linkId.Some?
    requires LogHead(instant) == (At(refreshed, |refreshed|).seqNo, At(refreshed, |refreshed|).headHash)
    ensures |instant| == |refreshed| && (refreshed <= instant ==> instant == refreshed)
    ensures var held, s := At(refreshed, |refreshed|), At(instant, |instant|);
            && (forall anchor :: CheckAnchor(s, anchor) == CheckAnchor(held, anchor))
            && (HoldsLaunch(s, l, storeId, now, closedBarSeq) <==> HoldsLaunch(held, l, storeId, now, closedBarSeq))
            && (HoldsLaunch(held, l, storeId, now, closedBarSeq) ==>
                  (LinkLive(s, l.linkId.value, l.agentId, storeId, now, closedBarSeq)
                   <==> NamedSignersActive(instant, l.linkId.value)))
  {
    StateShape(refreshed, |refreshed|);
    UnmovedHeadPinsLog(refreshed, instant);
    SignersAreNamed(instant, l.linkId.value);
    hide Step, Replay, SignersStand, NamedSignersActive, Arms;
  }

  /** Of the agent's bars none is open; each closed one was recorded below `born`; and of the recorded ones, if any, one
      has a seq that is no negative number. */
  ghost predicate ClosedBefore(bars: seq<Bar>, agentId: Name, born: int) {
    && (forall i :: 0 <= i < |bars| && bars[i].agentId == agentId ==>
          bars[i].closed && (bars[i].revokeSeq.Some? ==> bars[i].revokeSeq.value < born))
    && ((exists i :: 0 <= i < |bars| && bars[i].agentId == agentId && bars[i].revokeSeq.Some?) ==>
          exists i :: 0 <= i < |bars| && bars[i].agentId == agentId && bars[i].revokeSeq.Some? && bars[i].revokeSeq.value >= 0)
  }

  lemma {:induction false} ClosedBarSeqAttained(bars: seq<Bar>, agentId: Name)
    ensures if ClosedBarRecorded(bars, agentId)
            then exists i :: 0 <= i < |bars| && bars[i].agentId == agentId && bars[i].closed
                             && bars[i].revokeSeq == Some(ClosedBarSeq(bars, agentId))
            else ClosedBarSeq(bars, agentId) == 0
  {
    if bars != [] {
      var rest := bars[1..];
      ClosedBarSeqAttained(rest, agentId);
      forall i | 0 <= i < |rest| ensures rest[i] == bars[i + 1] {}
      if ClosedBarRecorded(rest, agentId) {
        var i :| 0 <= i < |rest| && rest[i].agentId == agentId && rest[i].closed
                 && rest[i].revokeSeq == Some(ClosedBarSeq(rest, agentId));
        assert bars[i + 1] == rest[i];
      } else if ClosedBarRecorded(bars, agentId) {
        assert bars[0].agentId == agentId && bars[0].closed && bars[0].revokeSeq.Some?;
      }
    }
  }

  lemma ClosedBeforeIff(bars: seq<Bar>, agentId: Name, born: nat)
    requires born >= 1 && !OpenBar(bars, agentId)
    ensures 0 <= ClosedBarSeq(bars, agentId) < born <==> ClosedBefore(bars, agentId, born)
  {
    ClosedBarSeqAttained(bars, agentId);
    forall i: nat | i < |bars| && bars[i].agentId == agentId && bars[i].closed && bars[i].revokeSeq.Some?
      ensures bars[i].revokeSeq.value <= ClosedBarSeq(bars, agentId)
    {
      ClosedBarSeqIsMax(bars, agentId, i);
    }
    hide ClosedBarSeq;
  }

  /** The stored row is that launch, at its epoch and launched; its agent's bars are closed and older than the link; and the
      state has the link in force, born where the launch says and saying, but for its expiry, what the launch says. */
  ghost predicate LaunchInForce(s: Snapshot, l: Launch, row: Occurrence, bars: seq<Bar>, storeId: Name, now: int) {
    && l.linkId.Some? && l.incarnation.Some? && l.bindingId.Some? && l.epoch.Some?
    && row == Occurrence(l, l.epoch.value, Launched)
    && InForce(s, l.linkId.value, l.agentId, storeId, now, 0)
    && ClosedBefore(bars, l.agentId, s.core.grantBorn[l.linkId.value])
    && var g := s.core.policy.grants[l.linkId.value];
    l.incarnation.value == Incarnation(s.core.grantBorn[l.linkId.value], AgentLink(g.id, l.agentId, storeId, g.terms, 0))
  }

  lemma AgreesIsInForce(s: Snapshot, l: Launch, row: Occurrence, bars: seq<Bar>, storeId: Name, now: int)
    ensures LaunchInForce(s, l, row, bars, storeId, now) <==>
              && RowStands(l, row, bars) && HoldsLaunch(s, l, storeId, now, ClosedBarSeq(bars, l.agentId))
              && SignersStand(s, l.linkId.value)
  {
    if l.linkId.Some? {
      var id := l.linkId.value;
      LiveIsInForce(s, id, l.agentId, storeId, now, ClosedBarSeq(bars, l.agentId));
      if id in s.core.grantBorn && s.core.grantBorn[id] >= 1 && !OpenBar(bars, l.agentId) {
        ClosedBeforeIff(bars, l.agentId, s.core.grantBorn[id]);
      }
      hide ClosedBarSeq;
    }
  }

  /** One check of the fence, whole: a view refreshed from log `refreshed`, the anchor, head and anchor again read later,
      the row and bars of the effect's own transaction. The fences agree exactly when the row is that launch with no open
      bar, the view is confirmed and holds the launch, and its own signers are active. Then whatever log the head was
      read from, if it replays, holds the launch's very incarnation; and its signers are active as well exactly when that
      log names active ones, as it does when it only grew. */
  method CheckFence(authority: AgentAuthority, l: Launch, row: Occurrence, bars: seq<Bar>, storeId: Name, now: int,
                    before: Option<Anchor>, head: (nat, Hash), after: Option<Anchor>,
                    ghost refreshed: seq<Row>, ghost instant: seq<Row>)
    returns (agrees: bool)
    requires Accepted(refreshed) && refreshed != [] && authority.held == Some(At(refreshed, |refreshed|))
    requires head == LogHead(instant)
    ensures agrees <==>
              && RowStands(l, row, bars)
              && Confirmed(At(refreshed, |refreshed|), before, head, after)
              && HoldsLaunch(At(refreshed, |refreshed|), l, storeId, now, ClosedBarSeq(bars, l.agentId))
              && NamedSignersActive(refreshed, l.linkId.value)
    ensures agrees <==>
              && LaunchInForce(At(refreshed, |refreshed|), l, row, bars, storeId, now)
              && Confirmed(At(refreshed, |refreshed|), before, head, after)
    ensures agrees && Accepted(instant) ==>
              && |instant| == |refreshed| && CheckAnchor(At(instant, |instant|), before).Ok?
              && HoldsLaunch(At(instant, |instant|), l, storeId, now, ClosedBarSeq(bars, l.agentId))
              && (LinkLive(At(instant, |instant|), l.linkId.value, l.agentId, storeId, now, ClosedBarSeq(bars, l.agentId))
                  <==> NamedSignersActive(instant, l.linkId.value))
              && (refreshed <= instant ==> instant == refreshed && NamedSignersActive(instant, l.linkId.value))
  {
    AgreesIsInForce(At(refreshed, |refreshed|), l, row, bars, storeId, now);
    hide Step, Replay, Judge, ClosedBarSeq, LinkIncarnation, Arms, SignersStand, NamedSignersActive, OpenBar, InForce,
         ClosedBefore;
    ReplayedStampsInOrder(refreshed);
    var fence := LaunchFence(l);
    if fence.None? || row.launch.linkId.None? {
      return false;
    }
    SignersAreNamed(refreshed, l.linkId.value);
    var peeked := authority.Peek(before, head, after, row.launch.linkId.value, row.launch.agentId, storeId, now,
                                 ClosedBarSeq(bars, row.launch.agentId));
    if peeked.Err? {
      return false;
    }
    if Accepted(instant) {
      HeadCarriesLaunch(refreshed, instant, l, storeId, now, ClosedBarSeq(bars, l.agentId));
    }
    var (live, incarnation) := peeked.value;
    FenceAgrees(l, row, bars, live, incarnation);
    agrees := fence == Some(CurrentFence(row, bars, live, incarnation));
    hide CurrentFence, LaunchFence;
  }
}
