/** The agent revoke: begin, sign and finish over the bar rows and the authority log, with everything that may run
    between their acts (levain/agent_authority.py, `revoke_agent_begin/sign/finish`; levain/agents/bars.py). */
module AgentRevoke {
  import opened Wrappers
  import opened AuthorityModel
  import opened AuthorityStep
  import opened AuthorityReplay
  import opened AppendRules

  // ----- bar rows

  type BarId = nat

  datatype Reason = SignedRevoke | FromLog | NothingPresent | AbandonedByUser

  datatype Closing = Closing(reason: Reason, revokeSeq: Option<nat>)

  datatype BarRow = BarRow(
    agentId: Name, closed: Option<Closing>, pending: Option<UnsignedLink>, signature: Option<Signature>)

  type Bars = map<BarId, BarRow>

  predicate Open(bars: Bars, id: BarId) {
    id in bars && bars[id].closed.None?
  }

  /** Record a prepared link: any stored signature goes with the link it was made over. */
  function WithLink(b: BarRow, link: UnsignedLink): BarRow {
    b.(pending := Some(link), signature := None)
  }

  /** The row a write guarded on an open bar (and, when `holding` is given, on that exact pending link) touches. */
  predicate Guarded(bars: Bars, id: BarId, holding: Option<UnsignedLink>) {
    Open(bars, id) && (holding.Some? ==> bars[id].pending == holding)
  }

  // ----- the log

  /** The log holds this very link at its seq. */
  predicate InLog(rows: seq<Row>, link: UnsignedLink) {
    && 1 <= link.seqNo <= |rows|
    && rows[link.seqNo - 1].hash == LinkHash(link.prevHash, link.text)
  }

  /** The text is a revoke of the agent's links to the store. */
  predicate Revokes(text: RecordText, agentId: Name, storeId: Name) {
    text.Canonical? && text.rec.op == RevokeAgent(agentId, storeId)
  }

  /** The log's link `n` is a revoke of the agent's links to the store. */
  predicate RevokedAt(rows: seq<Row>, n: nat, agentId: Name, storeId: Name) {
    1 <= n <= |rows| && Revokes(rows[n - 1].text, agentId, storeId)
  }

  lemma InLogRevoked(rows: seq<Row>, link: UnsignedLink, agentId: Name, storeId: Name)
    requires Accepted(rows) && InLog(rows, link) && Revokes(link.text, agentId, storeId)
    ensures RevokedAt(rows, link.seqNo, agentId, storeId)
  {
    LinkFacts(rows, link.seqNo - 1);
  }

  lemma AppendLands(rows: seq<Row>, link: UnsignedLink, signature: Signature, now: int, anchor: Option<Anchor>)
    requires Accepted(rows) && Appended(rows, link, signature, now, anchor).Ok?
    ensures var after := Appended(rows, link, signature, now, anchor).value;
            Accepted(after) && rows <= after && InLog(after, link)
  {
    hide Step, LocalChecks, AnchorAllows;
    AppendedReplays(rows, link, signature, now, anchor);
    StateShape(rows, |rows|);
    assert rows[..|rows|] == rows;
  }

  /** A link the log already holds is never appended again: the head is past it. */
  lemma HeldLinkIsStale(rows: seq<Row>, link: UnsignedLink, signature: Signature, now: int, anchor: Option<Anchor>)
    requires Accepted(rows) && InLog(rows, link)
    ensures Appended(rows, link, signature, now, anchor).Err?
    ensures AnchorAllows(Replay(rows).value, anchor).Ok? ==>
              Appended(rows, link, signature, now, anchor) == Err(StaleHead)
  {
    hide Step, LocalChecks, AnchorAllows;
    StateShape(rows, |rows|);
    assert rows[..|rows|] == rows;
  }

  // ----- steps, as the sequence of acts each runs

  datatype StepState = Prepared | SignedStep | Landed | LandedBarAbandoned | AbandonedStep | Reprepared | StaleHeadStep

  /** What a step reports. */
  datatype RevokeStep = RevokeStep(state: StepState, bar: BarId, seqNo: Option<nat>) {
    predicate Stands() {
      state.Landed? || state.LandedBarAbandoned?
    }
  }

  /** A step between two of its acts. `appended` remembers whether it committed a link. A recovery acts on the bar it read
      and on the replay it finished before: `seen` is the head of that replay, `nothing` that it held no link of the
      agent. */
  datatype Session =
    | ToPrepare(bar: BarId, agentId: Name, storeId: Name, signer: Fingerprint)
    | ToRecord(bar: BarId, link: UnsignedLink)
    | ToSign(bar: BarId, link: UnsignedLink)
    | ToStoreSignature(bar: BarId, link: UnsignedLink, signature: Signature)
    | ToAppend(bar: BarId, link: UnsignedLink, signature: Signature)
    | ToClose(bar: BarId, link: UnsignedLink, appended: bool)
    | ToReadClosed(bar: BarId, link: UnsignedLink, appended: bool)
    | ToLookInLog(bar: BarId, link: UnsignedLink)
    | ToPrepareAgain(bar: BarId, link: UnsignedLink)
    | ToSwap(bar: BarId, link: UnsignedLink, spare: UnsignedLink)
    | ToReadLost(bar: BarId, link: UnsignedLink)
    | ToAppendStored(bar: BarId, link: UnsignedLink, signature: Signature, seen: nat, nothing: bool)
    | ToCloseNothing(bar: BarId, seen: nat)
    | Recovered
    | Ended(step: RevokeStep, over: Option<UnsignedLink>, appended: bool)
    | Raised

  /** The bar rows of one agent store, the log, and the steps under way. */
  datatype World = World(storeId: Name, bars: Bars, rows: seq<Row>, sessions: map<nat, Session>)

  /** What an act takes from outside: the clock, the gesture's signature, the anchor as read. */
  datatype Inputs = Inputs(now: int, signature: Signature, anchor: Option<Anchor>)

  function PrepareRevoke(rows: seq<Row>, agentId: Name, storeId: Name, signer: Fingerprint, now: int)
    : Result<UnsignedLink, Error>
    requires Accepted(rows)
  {
    Prepare(Replay(rows).value, RevokeAgent(agentId, storeId), signer, now, 0)
  }

  lemma PreparedRevokes(rows: seq<Row>, agentId: Name, storeId: Name, signer: Fingerprint, now: int)
    requires Accepted(rows)
    ensures PrepareRevoke(rows, agentId, storeId, signer, now).Ok? ==>
              var link := PrepareRevoke(rows, agentId, storeId, signer, now).value;
              Revokes(link.text, agentId, storeId) && link.signer == signer && link.text.rec.at == now
  {
    hide Step, LocalChecks, Prepare;
    if PrepareRevoke(rows, agentId, storeId, signer, now).Ok? {
      PreparedSays(Replay(rows).value, RevokeAgent(agentId, storeId), signer, now, 0);
    }
  }

  /** The next act of a step begun by `revoke_agent_begin`. */
  function BeginAct(w: World, s: Session, in_: Inputs): (World, Session)
    requires Accepted(w.rows) && (s.ToPrepare? || s.ToRecord?)
  {
    match s
    case ToPrepare(bar, agentId, storeId, signer) =>
      var link := PrepareRevoke(w.rows, agentId, storeId, signer, in_.now);
      (w, if link.Ok? then ToRecord(bar, link.value) else Raised)
    case ToRecord(bar, link) =>
      if Guarded(w.bars, bar, None)
      then (w.(bars := w.bars[bar := WithLink(w.bars[bar], link)]),
            Ended(RevokeStep(Prepared, bar, Some(link.seqNo)), Some(link), false))
      else (w, Ended(RevokeStep(AbandonedStep, bar, None), Some(link), false))
  }

  /** The next act of a sign: the gesture over the link read, then its guarded write. */
  function SignAct(w: World, s: Session, in_: Inputs): (World, Session)
    requires s.ToSign? || s.ToStoreSignature?
  {
    match s
    case ToSign(bar, link) =>
      if in_.signature.Signature? && in_.signature.over == Message(link.prevHash, link.text)
      then (w, ToStoreSignature(bar, link, in_.signature)) else (w, Raised)
    case ToStoreSignature(bar, link, signature) =>
      if Guarded(w.bars, bar, Some(link))
      then (w.(bars := w.bars[bar := w.bars[bar].(signature := Some(signature))]),
            Ended(RevokeStep(SignedStep, bar, Some(link.seqNo)), Some(link), false))
      else (w, ToReadLost(bar, link))
  }

  /** The next act of a finish, up to the close. */
  function AppendAct(w: World, s: Session, in_: Inputs): (World, Session)
    requires Accepted(w.rows) && (s.ToAppend? || s.ToLookInLog? || s.ToPrepareAgain? || s.ToSwap?)
  {
    match s
    case ToAppend(bar, link, signature) =>
      var r := Appended(w.rows, link, signature, in_.now, in_.anchor);
      if r.Ok? then (w.(rows := r.value), ToClose(bar, link, true))
      else if r.error.StaleHead? then (w, ToLookInLog(bar, link))
      else (w, Raised)
    case ToLookInLog(bar, link) =>
      if AnchorAllows(Replay(w.rows).value, in_.anchor).Err? then (w, Raised)
      else if InLog(w.rows, link) then (w, ToClose(bar, link, false))
      else (w, ToPrepareAgain(bar, link))
    case ToPrepareAgain(bar, link) =>
      if bar !in w.bars || !link.text.Canonical? || !link.text.rec.op.RevokeAgent? then (w, Raised)
      else
        var spare := PrepareRevoke(w.rows, w.bars[bar].agentId, link.text.rec.op.agentStoreId, link.signer, in_.now);
        (w, if spare.Ok? then ToSwap(bar, link, spare.value) else Raised)
    case ToSwap(bar, link, spare) =>
      if Guarded(w.bars, bar, Some(link))
      then (w.(bars := w.bars[bar := WithLink(w.bars[bar], spare)]),
            Ended(RevokeStep(StaleHeadStep, bar, Some(spare.seqNo)), Some(link), false))
      else (w, ToReadLost(bar, link))
  }

  function PendingSeq(b: BarRow): Option<nat> {
    if b.pending.Some? then Some(b.pending.value.seqNo) else None
  }

  /** The close and the reads that name a lost write. */
  function CloseAct(w: World, s: Session): (World, Session)
    requires s.ToClose? || s.ToReadClosed? || s.ToReadLost?
  {
    match s
    case ToClose(bar, link, appended) =>
      if Open(w.bars, bar)
      then (w.(bars := w.bars[bar := w.bars[bar].(closed := Some(Closing(SignedRevoke, Some(link.seqNo))))]),
            Ended(RevokeStep(Landed, bar, Some(link.seqNo)), Some(link), appended))
      else (w, ToReadClosed(bar, link, appended))
    case ToReadClosed(bar, link, appended) =>
      if bar in w.bars && w.bars[bar].closed == Some(Closing(SignedRevoke, Some(link.seqNo)))
      then (w, Ended(RevokeStep(Landed, bar, Some(link.seqNo)), Some(link), appended))
      else (w, Ended(RevokeStep(LandedBarAbandoned, bar, Some(link.seqNo)), Some(link), appended))
    case ToReadLost(bar, link) =>
      if !Open(w.bars, bar) then (w, Ended(RevokeStep(AbandonedStep, bar, Some(link.seqNo)), Some(link), false))
      else (w, Ended(RevokeStep(Reprepared, bar, PendingSeq(w.bars[bar])), Some(link), false))
  }

  /** The next act of a recovery: the stored signature appended (R2), or the bar closed, nothing being present (R3). A
      refused append goes on down the table. */
  function RecoverAct(w: World, s: Session, in_: Inputs): (World, Session)
    requires s.ToAppendStored? || s.ToCloseNothing?
  {
    match s
    case ToAppendStored(bar, link, signature, seen, nothing) =>
      var r := Appended(w.rows, link, signature, in_.now, in_.anchor);
      if r.Ok? then (w.(rows := r.value), ToClose(bar, link, true))
      else (w, if nothing then ToCloseNothing(bar, seen) else Recovered)
    case ToCloseNothing(bar, seen) =>
      if Open(w.bars, bar)
      then (w.(bars := w.bars[bar := w.bars[bar].(closed := Some(Closing(NothingPresent, Some(seen))))]), Recovered)
      else (w, Recovered)
  }

  /** A step that is over. */
  predicate Over(s: Session) {
    s.Ended? || s.Raised? || s.Recovered?
  }

  function NextAct(w: World, s: Session, in_: Inputs): (World, Session)
    requires Accepted(w.rows)
  {
    if s.ToPrepare? || s.ToRecord? then BeginAct(w, s, in_)
    else if s.ToSign? || s.ToStoreSignature? then SignAct(w, s, in_)
    else if s.ToClose? || s.ToReadClosed? || s.ToReadLost? then CloseAct(w, s)
    else if s.ToAppendStored? || s.ToCloseNothing? then RecoverAct(w, s, in_)
    else if Over(s) then (w, s)
    else AppendAct(w, s, in_)
  }

  // ----- the program's form: the bar rows and the log, updated in place

  class RevokeStores {
    var storeId: Name
    var bars: Bars
    var rows: seq<Row>

    ghost function Seen(): World
      reads this
    {
      World(storeId, bars, rows, map[])
    }

    /** Record a prepared link where the guard holds. The row then has no signature: none is left of another link. */
    method WriteLink(id: BarId, link: UnsignedLink, holding: Option<UnsignedLink>) returns (touched: bool)
      modifies this`bars
      ensures touched <==> Guarded(old(bars), id, holding)
      ensures bars == if touched then old(bars)[id := WithLink(old(bars)[id], link)] else old(bars)
      ensures touched ==> Open(bars, id) && bars[id].pending == Some(link) && bars[id].signature.None?
    {
      touched := id in bars && bars[id].closed.None? && (holding.None? || bars[id].pending == holding);
      if touched {
        bars := bars[id := bars[id].(pending := Some(link), signature := None)];
      }
    }

    /** Store a signature where the row is open and still holds the very link that was signed. */
    method WriteSignature(id: BarId, signature: Signature, signed: UnsignedLink) returns (touched: bool)
      modifies this`bars
      ensures touched <==> Guarded(old(bars), id, Some(signed))
      ensures bars == if touched then old(bars)[id := old(bars)[id].(signature := Some(signature))] else old(bars)
      ensures touched ==> bars[id].pending == Some(signed) && bars[id].signature == Some(signature)
    {
      touched := id in bars && bars[id].closed.None? && bars[id].pending == Some(signed);
      if touched {
        bars := bars[id := bars[id].(signature := Some(signature))];
      }
    }

    /** Close an open row; a closed one is never written again. */
    method Close(id: BarId, closing: Closing) returns (touched: bool)
      modifies this`bars
      ensures touched <==> Open(old(bars), id)
      ensures bars == if touched then old(bars)[id := old(bars)[id].(closed := Some(closing))] else old(bars)
    {
      touched := id in bars && bars[id].closed.None?;
      if touched {
        bars := bars[id := bars[id].(closed := Some(closing))];
      }
    }

    /** One act of a begin: prepare, then record onto the open bar. */
    method Begin(s: Session, inputs: Inputs) returns (s': Session)
      requires Accepted(rows) && (s.ToPrepare? || s.ToRecord?)
      modifies this`bars
      ensures (Seen(), s') == BeginAct(old(Seen()), s, inputs)
    {
      if s.ToPrepare? {
        var link := PrepareRevoke(rows, s.agentId, s.storeId, s.signer, inputs.now);
        return if link.Ok? then ToRecord(s.bar, link.value) else Raised;
      }
      var touched := WriteLink(s.bar, s.link, None);
      s' := Ended(if touched then RevokeStep(Prepared, s.bar, Some(s.link.seqNo)) else RevokeStep(AbandonedStep, s.bar, None),
                  Some(s.link), false);
    }

    /** One act of a sign: the gesture, then its signature beside the link it was made over. */
    method Sign(s: Session, inputs: Inputs) returns (s': Session)
      requires s.ToSign? || s.ToStoreSignature?
      modifies this`bars
      ensures (Seen(), s') == SignAct(old(Seen()), s, inputs)
    {
      if s.ToSign? {
        return if inputs.signature.Signature? && inputs.signature.over == Message(s.link.prevHash, s.link.text)
               then ToStoreSignature(s.bar, s.link, inputs.signature) else Raised;
      }
      var touched := WriteSignature(s.bar, s.signature, s.link);
      s' := if touched then Ended(RevokeStep(SignedStep, s.bar, Some(s.link.seqNo)), Some(s.link), false)
            else ToReadLost(s.bar, s.link);
    }

    /** One act of a finish up to its close: append, look for the link, prepare again, swap. */
    method Append(s: Session, inputs: Inputs) returns (s': Session)
      requires Accepted(rows) && (s.ToAppend? || s.ToLookInLog? || s.ToPrepareAgain? || s.ToSwap?)
      modifies this`bars, this`rows
      ensures (Seen(), s') == AppendAct(old(Seen()), s, inputs)
    {
      hide Appended, Replay, AnchorAllows, PrepareRevoke;
      if s.ToAppend? {
        var r := Appended(rows, s.link, s.signature, inputs.now, inputs.anchor);
        if r.Ok? {
          rows := r.value;
          return ToClose(s.bar, s.link, true);
        }
        return if r.error.StaleHead? then ToLookInLog(s.bar, s.link) else Raised;
      }
      if s.ToLookInLog? {
        return if AnchorAllows(Replay(rows).value, inputs.anchor).Err? then Raised
               else if InLog(rows, s.link) then ToClose(s.bar, s.link, false) else ToPrepareAgain(s.bar, s.link);
      }
      if s.ToPrepareAgain? {
        if s.bar !in bars || !s.link.text.Canonical? || !s.link.text.rec.op.RevokeAgent? {
          return Raised;
        }
        var spare := PrepareRevoke(rows, bars[s.bar].agentId, s.link.text.rec.op.agentStoreId, s.link.signer, inputs.now);
        return if spare.Ok? then ToSwap(s.bar, s.link, spare.value) else Raised;
      }
      var touched := WriteLink(s.bar, s.spare, Some(s.link));
      s' := if touched then Ended(RevokeStep(StaleHeadStep, s.bar, Some(s.spare.seqNo)), Some(s.link), false)
            else ToReadLost(s.bar, s.link);
    }

    /** The close of a landed link, and the reads that name a lost write. */
    method Settle(s: Session) returns (s': Session)
      requires s.ToClose? || s.ToReadClosed? || s.ToReadLost?
      modifies this`bars
      ensures (Seen(), s') == CloseAct(old(Seen()), s)
    {
      if s.ToReadLost? {
        return Ended(if s.bar !in bars || bars[s.bar].closed.Some? then RevokeStep(AbandonedStep, s.bar, Some(s.link.seqNo))
                     else RevokeStep(Reprepared, s.bar, PendingSeq(bars[s.bar])), Some(s.link), false);
      }
      var closing := Closing(SignedRevoke, Some(s.link.seqNo));
      if s.ToClose? {
        var touched := Close(s.bar, closing);
        return if touched then Ended(RevokeStep(Landed, s.bar, Some(s.link.seqNo)), Some(s.link), s.appended)
               else ToReadClosed(s.bar, s.link, s.appended);
      }
      var landed := s.bar in bars && bars[s.bar].closed == Some(closing);
      s' := Ended(RevokeStep(if landed then Landed else LandedBarAbandoned, s.bar, Some(s.link.seqNo)), Some(s.link),
                  s.appended);
    }

    /** One act of a recovery on a bar it read. */
    method Recover(s: Session, inputs: Inputs) returns (s': Session)
      requires s.ToAppendStored? || s.ToCloseNothing?
      modifies this`bars, this`rows
      ensures (Seen(), s') == RecoverAct(old(Seen()), s, inputs)
    {
      hide Appended;
      if s.ToCloseNothing? {
        var _ := Close(s.bar, Closing(NothingPresent, Some(s.seen)));
        return Recovered;
      }
      var r := Appended(rows, s.link, s.signature, inputs.now, inputs.anchor);
      if r.Ok? {
        rows := r.value;
        return ToClose(s.bar, s.link, true);
      }
      s' := if s.nothing then ToCloseNothing(s.bar, s.seen) else Recovered;
    }

    /** One act of any step: exactly the act the runs below are made of. */
    method Act(s: Session, inputs: Inputs) returns (s': Session)
      requires Accepted(rows)
      modifies this`bars, this`rows
      ensures (Seen(), s') == NextAct(old(Seen()), s, inputs)
    {
      hide BeginAct, SignAct, AppendAct, CloseAct, RecoverAct, Accepted;
      if s.ToPrepare? || s.ToRecord? {
        s' := Begin(s, inputs);
      } else if s.ToSign? || s.ToStoreSignature? {
        s' := Sign(s, inputs);
      } else if s.ToClose? || s.ToReadClosed? || s.ToReadLost? {
        s' := Settle(s);
      } else if s.ToAppendStored? || s.ToCloseNothing? {
        s' := Recover(s, inputs);
      } else if Over(s) {
        s' := s;
      } else {
        s' := Append(s, inputs);
      }
    }
  }

  /** An act reads and writes nothing of the other steps under way. */
  lemma ActIgnoresSessions(w: World, s: Session, inputs: Inputs)
    requires Accepted(w.rows)
    ensures var (alone, s') := NextAct(w.(sessions := map[]), s, inputs);
            NextAct(w, s, inputs) == (alone.(sessions := w.sessions), s')
  {
    hide Appended, Replay, AnchorAllows, PrepareRevoke, Accepted;
  }

  // ----- everything that can happen

  datatype Event =
    | StartBegin(sid: nat, agentId: Name, storeId: Name, signer: Fingerprint, spare: BarId)
    | StartSign(sid: nat, bar: BarId)
    | StartFinish(sid: nat, bar: BarId)
    | Act(sid: nat, inputs: Inputs)
    | Crash(sid: nat)
    | Abandon(bar: BarId)
    | ForeignAppend(rows: seq<Row>)
    | StartRecover(sid: nat, bar: BarId, seen: nat, young: bool)   // R1 to R4, on a replay of the first `seen` links
    | RecoverFromLog(seqNo: nat, agentId: Name, spare: BarId)   // R5

  /** Open the agent's bar, reusing the open one; `spare` is an id no row has. */
  ghost function OpenBar(bars: Bars, agentId: Name, spare: BarId): (Bars, Option<BarId>) {
    if exists bar :: Open(bars, bar) && bars[bar].agentId == agentId then
      var bar :| Open(bars, bar) && bars[bar].agentId == agentId;
      (bars, Some(bar))
    else if spare in bars then (bars, None)
    else (bars[spare := BarRow(agentId, None, None, None)], Some(spare))
  }

  function WithSession(w: World, sid: nat, s: Session): World {
    w.(sessions := w.sessions[sid := s])
  }

  /** A step begins: its first read or write, and the session that goes on from it. */
  ghost function Started(w: World, e: Event): World
    requires Accepted(w.rows) && (e.StartBegin? || e.StartSign? || e.StartFinish? || e.StartRecover?)
  {
    if e.sid in w.sessions || (e.StartBegin? && e.storeId != w.storeId) then w
    else if e.StartBegin? then
      var (bars, bar) := OpenBar(w.bars, e.agentId, e.spare);
      if bar.None? then w
      else WithSession(w.(bars := bars), e.sid, ToPrepare(bar.value, e.agentId, e.storeId, e.signer))
    else if e.StartRecover? then
      if 1 <= e.seen <= |w.rows| && Open(w.bars, e.bar)
      then
        PrefixAccepted(w.rows, e.seen);
        WithSession(w, e.sid, RecoverRead(w.rows[..e.seen], w.bars[e.bar], w.storeId, e.bar, e.young))
      else w
    else WithSession(w, e.sid, FirstRead(w.bars, e))
  }

  /** The row a sign or a finish reads, and where it goes on from there. */
  function FirstRead(bars: Bars, e: Event): Session
    requires e.StartSign? || e.StartFinish?
  {
    if !Open(bars, e.bar) then Ended(RevokeStep(AbandonedStep, e.bar, None), None, false)
    else if bars[e.bar].pending.None? || (!e.StartSign? && bars[e.bar].signature.None?) then Raised
    else if e.StartSign? then ToSign(e.bar, bars[e.bar].pending.value)
    else ToAppend(e.bar, bars[e.bar].pending.value, bars[e.bar].signature.value)
  }

  /** A sign goes on from the open row's link, a finish from its signed link, and neither without one. */
  lemma FirstReadIs(bars: Bars, e: Event)
    requires e.StartSign? || e.StartFinish?
    ensures var s, row := FirstRead(bars, e), if e.bar in bars then Some(bars[e.bar]) else None;
            if row.None? || row.value.closed.Some? then s == Ended(RevokeStep(AbandonedStep, e.bar, None), None, false)
            else if row.value.pending.None? then s == Raised
            else if e.StartSign? then s == ToSign(e.bar, row.value.pending.value)
            else if row.value.signature.None? then s == Raised
            else s == ToAppend(e.bar, row.value.pending.value, row.value.signature.value)
  {
  }

  /** The log's replay holds no link of the agent to the store. */
  ghost predicate NoLinkPresent(rows: seq<Row>, agentId: Name, storeId: Name)
    requires Accepted(rows)
  {
    rows != [] && forall gid :: gid in At(rows, |rows|).core.policy.grants ==>
                    !LinkOfAgent(At(rows, |rows|).core.policy.grants[gid], agentId, storeId)
  }

  /** What recovery decides on a replayed log and the row of an open bar, read after it, by the table's order: the log holds
      the link read (R1); its young signature may be appended at that head (R2); no link is present (R3); else it stays a
      bar (R4). */
  ghost function RecoverRead(rows: seq<Row>, b: BarRow, storeId: Name, bar: BarId, young: bool): Session
    requires Accepted(rows) && rows != []
  {
    var nothing := NoLinkPresent(rows, b.agentId, storeId);
    if b.pending.Some? && InLog(rows, b.pending.value) then ToClose(bar, b.pending.value, false)
    else if b.pending.Some? && b.signature.Some? && young && LinksAtHead(rows, b.pending.value)
    then ToAppendStored(bar, b.pending.value, b.signature.value, |rows|, nothing)
    else if nothing then ToCloseNothing(bar, |rows|)
    else Recovered
  }

  predicate LinksAtHead(rows: seq<Row>, link: UnsignedLink)
    requires rows != []
  {
    link.seqNo == |rows| + 1 && link.prevHash == rows[|rows| - 1].hash
  }

  /** A bar of the agent already records that seq. */
  predicate Recorded(bars: Bars, agentId: Name, seqNo: nat) {
    exists id :: id in bars && bars[id].agentId == agentId && bars[id].closed.Some?
                 && bars[id].closed.value.revokeSeq == Some(seqNo)
  }

  /** What an abandon and recovery's last row write: a closed bar, if the guard holds. */
  function ClosedByOthers(w: World, e: Event): Option<(BarId, BarRow)>
    requires e.Abandon? || e.RecoverFromLog?
  {
    match e
    case Abandon(bar) =>
      if Open(w.bars, bar) then Some((bar, w.bars[bar].(closed := Some(Closing(AbandonedByUser, None))))) else None
    case RecoverFromLog(seqNo, agentId, spare) =>
      if RevokedAt(w.rows, seqNo, agentId, w.storeId) && spare !in w.bars && !Recorded(w.bars, agentId, seqNo)
      then Some((spare, BarRow(agentId, Some(Closing(FromLog, Some(seqNo))), None, None))) else None
  }

  /** An abandon closes an open bar and no other; recovery writes a revoke the log holds once, as a closed bar of its own. */
  lemma OthersCloseIff(w: World, e: Event)
    requires e.Abandon? || e.RecoverFromLog?
    ensures e.Abandon? ==>
              ClosedByOthers(w, e) == if e.bar in w.bars && w.bars[e.bar].closed.None?
                                      then Some((e.bar, w.bars[e.bar].(closed := Some(Closing(AbandonedByUser, None))))) else None
    ensures e.RecoverFromLog? ==>
              (ClosedByOthers(w, e).Some? <==>
                 && 1 <= e.seqNo <= |w.rows| && w.rows[e.seqNo - 1].text.Canonical?
                 && w.rows[e.seqNo - 1].text.rec.op == RevokeAgent(e.agentId, w.storeId) && e.spare !in w.bars
                 && forall id :: id in w.bars && w.bars[id].agentId == e.agentId && w.bars[id].closed.Some? ==>
                      w.bars[id].closed.value.revokeSeq != Some(e.seqNo))
    ensures e.RecoverFromLog? && ClosedByOthers(w, e).Some? ==>
              ClosedByOthers(w, e).value == (e.spare, BarRow(e.agentId, Some(Closing(FromLog, Some(e.seqNo))), None, None))
  {
  }

  ghost function After(w: World, e: Event): World
    requires Accepted(w.rows)
  {
    if e.StartBegin? || e.StartSign? || e.StartFinish? || e.StartRecover? then Started(w, e)
    else if e.Act? then
      if e.sid !in w.sessions then w
      else
        var (w', s) := NextAct(w, w.sessions[e.sid], e.inputs);
        WithSession(w', e.sid, s)
    else if e.Crash? then w.(sessions := w.sessions - {e.sid})
    else if e.ForeignAppend? then if w.rows <= e.rows && Accepted(e.rows) then w.(rows := e.rows) else w
    else
      var write := ClosedByOthers(w, e);
      if write.None? then w else w.(bars := w.bars[write.value.0 := write.value.1])
  }

  // ----- what every reachable world keeps

  /** A row: its signature is over its own pending link, which revokes its agent; it is closed `signed` (or written from the
      log) at a seq only if the log's link there revokes the agent, and as nothing present only at a seq after which no
      link of the agent stood. */
  ghost predicate RowSound(rows: seq<Row>, storeId: Name, b: BarRow) {
    && (b.pending.Some? ==> Revokes(b.pending.value.text, b.agentId, storeId))
    && (b.signature.Some? ==>
          && b.pending.Some? && b.signature.value.Signature?
          && b.signature.value.over == Message(b.pending.value.prevHash, b.pending.value.text))
    && (b.closed.Some? && (b.closed.value.reason.SignedRevoke? || b.closed.value.reason.FromLog?) ==>
          b.closed.value.revokeSeq.Some? && RevokedAt(rows, b.closed.value.revokeSeq.value, b.agentId, storeId))
    && (b.closed.Some? && b.closed.value.reason.NothingPresent? ==>
          b.closed.value.revokeSeq.Some? && NoneStandsAt(rows, b.closed.value.revokeSeq.value, b.agentId, storeId))
  }

  /** After the log's first `n` links no grant links the agent to the store. */
  ghost predicate NoneStandsAt(rows: seq<Row>, n: nat, agentId: Name, storeId: Name) {
    && 1 <= n <= |rows| && Accepted(rows[..n])
    && forall gid :: gid in At(rows[..n], n).core.policy.grants ==>
         var g := At(rows[..n], n).core.policy.grants[gid];
         !(g.AgentLink? && g.agentId == agentId && g.storeId == storeId)
  }

  lemma NoneStaysAt(rows: seq<Row>, rows': seq<Row>, n: nat, agentId: Name, storeId: Name)
    requires rows <= rows' && NoneStandsAt(rows, n, agentId, storeId)
    ensures NoneStandsAt(rows', n, agentId, storeId)
  {
    assert rows'[..n] == rows[..n];
  }

  ghost predicate LinkOfBar(w: World, bar: BarId, link: UnsignedLink) {
    bar in w.bars && Revokes(link.text, w.bars[bar].agentId, w.storeId)
  }

  /** The bar is closed `signed` at that seq. */
  ghost predicate ClosedAs(bars: Bars, bar: BarId, seqNo: Option<nat>) {
    bar in bars && bars[bar].closed == Some(Closing(SignedRevoke, seqNo))
  }

  /** The bar is closed, and not `signed` at that seq. */
  ghost predicate ClosedOtherwise(bars: Bars, bar: BarId, seqNo: Option<nat>) {
    bar in bars && bars[bar].closed.Some? && bars[bar].closed != Some(Closing(SignedRevoke, seqNo))
  }

  /** A session: every link it holds revokes its bar's agent; past the append or the look, the log holds its link; a
      report that stands has its link in the log, and any other appended nothing. */
  ghost predicate SessionSound(w: World, s: Session) {
    match s
    case ToPrepare(bar, agentId, storeId, _) => bar in w.bars && w.bars[bar].agentId == agentId && storeId == w.storeId
    case ToRecord(bar, link) => LinkOfBar(w, bar, link)
    case ToSign(bar, link) => LinkOfBar(w, bar, link)
    case ToStoreSignature(bar, link, sig) =>
      LinkOfBar(w, bar, link) && sig.Signature? && sig.over == Message(link.prevHash, link.text)
    case ToAppend(bar, link, sig) =>
      LinkOfBar(w, bar, link) && sig.Signature? && sig.over == Message(link.prevHash, link.text)
    case ToClose(bar, link, _) => LinkOfBar(w, bar, link) && InLog(w.rows, link)
    case ToReadClosed(bar, link, _) => LinkOfBar(w, bar, link) && InLog(w.rows, link) && !Open(w.bars, bar)
    case ToLookInLog(bar, link) => LinkOfBar(w, bar, link)
    case ToPrepareAgain(bar, link) => LinkOfBar(w, bar, link)
    case ToSwap(bar, link, spare) => LinkOfBar(w, bar, link) && LinkOfBar(w, bar, spare)
    case ToReadLost(bar, link) => LinkOfBar(w, bar, link)
    case ToAppendStored(bar, link, sig, seen, nothing) =>
      LinkOfBar(w, bar, link) && sig.Signature? && sig.over == Message(link.prevHash, link.text)
      && (nothing ==> NoneStandsAt(w.rows, seen, w.bars[bar].agentId, w.storeId))
    case ToCloseNothing(bar, seen) => bar in w.bars && NoneStandsAt(w.rows, seen, w.bars[bar].agentId, w.storeId)
    case Recovered => true
    case Ended(step, link, appended) =>
      && (step.Stands() ==>
            link.Some? && LinkOfBar(w, step.bar, link.value) && InLog(w.rows, link.value)
            && step.seqNo == Some(link.value.seqNo))
      && (!step.Stands() ==> !appended)
      && (step.state.Landed? ==> ClosedAs(w.bars, step.bar, step.seqNo))
      && (step.state.LandedBarAbandoned? ==> ClosedOtherwise(w.bars, step.bar, step.seqNo))
      && (step.state.AbandonedStep? && link.Some? ==> step.bar in w.bars && w.bars[step.bar].closed.Some?)
    case Raised => true
  }

  ghost predicate Inv(w: World) {
    && Accepted(w.rows)
    && (forall id :: id in w.bars ==> RowSound(w.rows, w.storeId, w.bars[id]))
    && (forall a, b :: Open(w.bars, a) && Open(w.bars, b) && w.bars[a].agentId == w.bars[b].agentId ==> a == b)
    && forall sid :: sid in w.sessions ==> SessionSound(w, w.sessions[sid])
  }

  /** What one event may do to the rest: the log grows, rows keep their agents, and a closed row never changes. */
  ghost predicate Grows(w: World, w': World) {
    && w.storeId == w'.storeId && w.rows <= w'.rows
    && forall id :: id in w.bars ==>
         && id in w'.bars && w'.bars[id].agentId == w.bars[id].agentId
         && (w.bars[id].closed.Some? ==> w'.bars[id] == w.bars[id])
  }

  lemma RowStaysSound(rows: seq<Row>, rows': seq<Row>, storeId: Name, b: BarRow)
    requires RowSound(rows, storeId, b) && rows <= rows'
    ensures RowSound(rows', storeId, b)
  {
    hide NoneStandsAt;
    if b.closed.Some? && b.closed.value.revokeSeq.Some? && NoneStandsAt(rows, b.closed.value.revokeSeq.value, b.agentId, storeId) {
      NoneStaysAt(rows, rows', b.closed.value.revokeSeq.value, b.agentId, storeId);
    }
  }

  lemma SessionStaysSound(w: World, w': World, s: Session)
    requires SessionSound(w, s) && Grows(w, w')
    ensures SessionSound(w', s)
  {
    hide NoneStandsAt;
    if s.ToCloseNothing? || (s.ToAppendStored? && s.nothing) {
      NoneStaysAt(w.rows, w'.rows, s.seen, w.bars[s.bar].agentId, w.storeId);
    }
  }

  /** The invariant carries over to a world whose rows and sessions are each old ones or shown sound. */
  lemma InvFrom(w: World, w': World)
    requires Inv(w) && Grows(w, w') && Accepted(w'.rows)
    requires forall id :: id in w'.bars && (id !in w.bars || w'.bars[id] != w.bars[id]) ==> RowSound(w'.rows, w'.storeId, w'.bars[id])
    requires forall a, b :: Open(w'.bars, a) && Open(w'.bars, b) && w'.bars[a].agentId == w'.bars[b].agentId ==> a == b
    requires forall sid :: sid in w'.sessions && (sid !in w.sessions || w'.sessions[sid] != w.sessions[sid]) ==>
               SessionSound(w', w'.sessions[sid])
    ensures Inv(w')
  {
    forall id | id in w'.bars ensures RowSound(w'.rows, w'.storeId, w'.bars[id]) {
      if id in w.bars { RowStaysSound(w.rows, w'.rows, w.storeId, w.bars[id]); }
    }
    forall sid | sid in w'.sessions ensures SessionSound(w', w'.sessions[sid]) {
      if sid in w.sessions { SessionStaysSound(w, w', w.sessions[sid]); }
    }
  }

  /** What an act keeps, from a session to its next. */
  ghost predicate SoundAct(w: World, w': World, s': Session) {
    && Grows(w, w') && Accepted(w'.rows) && w'.sessions == w.sessions
    && SessionSound(w', s')
    && w'.bars.Keys == w.bars.Keys
    && (forall id :: id in w'.bars && w'.bars[id] != w.bars[id] ==> RowSound(w'.rows, w'.storeId, w'.bars[id]))
    && forall id :: Open(w'.bars, id) ==> Open(w.bars, id)
  }

  /** An act that only reads. */
  lemma ReadingAct(w: World, s': Session)
    requires Inv(w) && SessionSound(w, s')
    ensures SoundAct(w, w, s')
  {
  }

  /** An act that writes one open row. */
  lemma WritingAct(w: World, id: BarId, b: BarRow, s': Session)
    requires Inv(w) && Open(w.bars, id) && b.agentId == w.bars[id].agentId && RowSound(w.rows, w.storeId, b)
    requires SessionSound(w.(bars := w.bars[id := b]), s')
    ensures SoundAct(w, w.(bars := w.bars[id := b]), s')
  {
    hide RowSound, SessionSound;
  }

  lemma RowOf(w: World, id: BarId)
    requires Inv(w) && id in w.bars
    ensures RowSound(w.rows, w.storeId, w.bars[id])
  {
  }

  lemma LogAccepted(w: World)
    requires Inv(w)
    ensures Accepted(w.rows)
  {
  }

  lemma BeginActSound(w: World, s: Session, inputs: Inputs)
    requires Inv(w) && Accepted(w.rows) && SessionSound(w, s) && (s.ToPrepare? || s.ToRecord?)
    ensures SoundAct(w, BeginAct(w, s, inputs).0, BeginAct(w, s, inputs).1)
  {
    hide NoneStandsAt, PrepareRevoke, Inv, SoundAct, Accepted;
    var (w', s') := BeginAct(w, s, inputs);
    if s.ToPrepare? {
      PreparedRevokes(w.rows, s.agentId, s.storeId, s.signer, inputs.now);
      ReadingAct(w, s');
    } else if Guarded(w.bars, s.bar, None) {
      RowOf(w, s.bar);
      WritingAct(w, s.bar, WithLink(w.bars[s.bar], s.link), s');
    } else {
      ReadingAct(w, s');
    }
  }

  lemma SignActSound(w: World, s: Session, inputs: Inputs)
    requires Inv(w) && SessionSound(w, s) && (s.ToSign? || s.ToStoreSignature?)
    ensures SoundAct(w, SignAct(w, s, inputs).0, SignAct(w, s, inputs).1)
  {
    hide NoneStandsAt, Inv, SoundAct;
    var (w', s') := SignAct(w, s, inputs);
    if s.ToStoreSignature? && Guarded(w.bars, s.bar, Some(s.link)) {
      RowOf(w, s.bar);
      WritingAct(w, s.bar, w.bars[s.bar].(signature := Some(s.signature)), s');
    } else {
      ReadingAct(w, s');
    }
  }

  lemma AppendedActSound(w: World, s: Session, inputs: Inputs)
    requires Inv(w) && Accepted(w.rows) && SessionSound(w, s) && s.ToAppend?
    requires Appended(w.rows, s.link, s.signature, inputs.now, inputs.anchor).Ok?
    ensures SoundAct(w, AppendAct(w, s, inputs).0, AppendAct(w, s, inputs).1)
  {
    hide NoneStandsAt, PrepareRevoke, Appended, Replay, AnchorAllows;
    AppendLands(w.rows, s.link, s.signature, inputs.now, inputs.anchor);
  }

  lemma AppendActSound(w: World, s: Session, inputs: Inputs)
    requires Inv(w) && Accepted(w.rows) && SessionSound(w, s)
    requires s.ToAppend? || s.ToLookInLog? || s.ToPrepareAgain? || s.ToSwap?
    ensures SoundAct(w, AppendAct(w, s, inputs).0, AppendAct(w, s, inputs).1)
  {
    hide NoneStandsAt, PrepareRevoke, Appended, Replay, AnchorAllows, Inv, SoundAct, Accepted;
    var (w', s') := AppendAct(w, s, inputs);
    if s.ToAppend? && Appended(w.rows, s.link, s.signature, inputs.now, inputs.anchor).Ok? {
      AppendedActSound(w, s, inputs);
    } else if s.ToSwap? && Guarded(w.bars, s.bar, Some(s.link)) {
      RowOf(w, s.bar);
      WritingAct(w, s.bar, WithLink(w.bars[s.bar], s.spare), s');
    } else {
      if s.ToPrepareAgain? {
        PreparedRevokes(w.rows, w.bars[s.bar].agentId, s.link.text.rec.op.agentStoreId, s.link.signer, inputs.now);
      }
      ReadingAct(w, s');
    }
  }

  lemma CloseActSound(w: World, s: Session)
    requires Inv(w) && Accepted(w.rows) && SessionSound(w, s) && (s.ToClose? || s.ToReadClosed? || s.ToReadLost?)
    ensures SoundAct(w, CloseAct(w, s).0, CloseAct(w, s).1)
  {
    hide NoneStandsAt, Replay, Inv, SoundAct, Accepted;
    var (w', s') := CloseAct(w, s);
    if s.ToClose? && Open(w.bars, s.bar) {
      InLogRevoked(w.rows, s.link, w.bars[s.bar].agentId, w.storeId);
      RowOf(w, s.bar);
      WritingAct(w, s.bar, w.bars[s.bar].(closed := Some(Closing(SignedRevoke, Some(s.link.seqNo)))), s');
    } else {
      ReadingAct(w, s');
    }
  }

  lemma StoredAppendSound(w: World, s: Session, inputs: Inputs)
    requires Inv(w) && Accepted(w.rows) && SessionSound(w, s) && s.ToAppendStored?
    requires Appended(w.rows, s.link, s.signature, inputs.now, inputs.anchor).Ok?
    ensures SoundAct(w, RecoverAct(w, s, inputs).0, RecoverAct(w, s, inputs).1)
  {
    hide NoneStandsAt, Appended, Replay, AnchorAllows;
    AppendLands(w.rows, s.link, s.signature, inputs.now, inputs.anchor);
  }

  lemma RecoverActSound(w: World, s: Session, inputs: Inputs)
    requires Inv(w) && Accepted(w.rows) && SessionSound(w, s) && (s.ToAppendStored? || s.ToCloseNothing?)
    ensures SoundAct(w, RecoverAct(w, s, inputs).0, RecoverAct(w, s, inputs).1)
  {
    hide NoneStandsAt, Appended, Replay, Inv, SoundAct, Accepted;
    var (w', s') := RecoverAct(w, s, inputs);
    if s.ToAppendStored? && Appended(w.rows, s.link, s.signature, inputs.now, inputs.anchor).Ok? {
      StoredAppendSound(w, s, inputs);
    } else if s.ToCloseNothing? && Open(w.bars, s.bar) {
      RowOf(w, s.bar);
      WritingAct(w, s.bar, w.bars[s.bar].(closed := Some(Closing(NothingPresent, Some(s.seen)))), s');
    } else {
      ReadingAct(w, s');
    }
  }

  lemma ActSound(w: World, s: Session, inputs: Inputs)
    requires Inv(w) && Accepted(w.rows) && SessionSound(w, s)
    ensures SoundAct(w, NextAct(w, s, inputs).0, NextAct(w, s, inputs).1)
  {
    hide BeginAct, SignAct, AppendAct, CloseAct, RecoverAct, Inv, SessionSound, Accepted;
    if Over(s) {
      ReadingAct(w, s);
    }
    hide SoundAct;
    if s.ToPrepare? || s.ToRecord? {
      BeginActSound(w, s, inputs);
    } else if s.ToSign? || s.ToStoreSignature? {
      SignActSound(w, s, inputs);
    } else if s.ToClose? || s.ToReadClosed? || s.ToReadLost? {
      CloseActSound(w, s);
    } else if s.ToAppendStored? || s.ToCloseNothing? {
      RecoverActSound(w, s, inputs);
    } else if !Over(s) {
      AppendActSound(w, s, inputs);
    }
  }

  lemma ActEventSound(w: World, sid: nat, inputs: Inputs)
    requires Inv(w) && Accepted(w.rows)
    ensures var w' := After(w, Act(sid, inputs)); Inv(w') && Grows(w, w')
  {
    hide NextAct, SessionSound, RowSound;
    if sid in w.sessions {
      ActSound(w, w.sessions[sid], inputs);
      var (w', s') := NextAct(w, w.sessions[sid], inputs);
      SessionWorld(w', sid, s', s');
      InvFrom(w, WithSession(w', sid, s'));
    }
  }

  /** A session's soundness reads the bars and the log alone. */
  lemma SessionWorld(w: World, sid: nat, s: Session, other: Session)
    ensures SessionSound(WithSession(w, sid, s), other) == SessionSound(w, other)
  {
  }

  /** A new session over the world's own bars. */
  lemma StartSound(w: World, sid: nat, s: Session)
    requires Inv(w) && sid !in w.sessions && SessionSound(w, s)
    ensures Inv(WithSession(w, sid, s)) && Grows(w, WithSession(w, sid, s))
  {
    hide RowSound, SessionSound;
    SessionWorld(w, sid, s, s);
    InvFrom(w, WithSession(w, sid, s));
  }

  /** A write to one bar that closes it, or opens none, and stays sound. */
  lemma BarWriteSound(w: World, id: BarId, b: BarRow)
    requires Inv(w) && RowSound(w.rows, w.storeId, b) && b.closed.Some?
    requires id in w.bars ==> Open(w.bars, id) && b.agentId == w.bars[id].agentId
    ensures var w' := w.(bars := w.bars[id := b]); Inv(w') && Grows(w, w')
  {
    hide RowSound, SessionSound;
    InvFrom(w, w.(bars := w.bars[id := b]));
  }

  lemma ClosedByOthersSound(w: World, e: Event)
    requires Inv(w) && (e.Abandon? || e.RecoverFromLog?)
    requires ClosedByOthers(w, e).Some?
    ensures var (id, b) := ClosedByOthers(w, e).value;
            && RowSound(w.rows, w.storeId, b) && b.closed.Some?
            && (id in w.bars ==> Open(w.bars, id) && b.agentId == w.bars[id].agentId)
  {
    if e.Abandon? {
      RowOf(w, e.bar);
    }
    hide Inv, Accepted, Recorded;
  }

  lemma FirstReadSound(w: World, e: Event)
    requires Inv(w) && (e.StartSign? || e.StartFinish?)
    ensures SessionSound(w, FirstRead(w.bars, e))
  {
    hide Inv, Accepted, InLog, RevokedAt, Revokes;
    if Open(w.bars, e.bar) {
      RowOf(w, e.bar);
    }
  }

  lemma RecoverReadSound(w: World, bar: BarId, seen: nat, young: bool)
    requires Inv(w) && Accepted(w.rows) && 1 <= seen <= |w.rows| && Open(w.bars, bar) && Accepted(w.rows[..seen])
    ensures SessionSound(w, RecoverRead(w.rows[..seen], w.bars[bar], w.storeId, bar, young))
  {
    hide Inv, Accepted, NoLinkPresent, NoneStandsAt, RevokedAt, Revokes, InLog, LinksAtHead;
    RowOf(w, bar);
    if NoLinkPresent(w.rows[..seen], w.bars[bar].agentId, w.storeId) {
      NoLinkIsNone(w.rows, seen, w.bars[bar].agentId, w.storeId);
    }
    if w.bars[bar].pending.Some? {
      HeldInWhole(w.rows, seen, w.bars[bar].pending.value);
    }
  }

  lemma NoLinkIsNone(rows: seq<Row>, seen: nat, agentId: Name, storeId: Name)
    requires 1 <= seen <= |rows| && Accepted(rows[..seen]) && NoLinkPresent(rows[..seen], agentId, storeId)
    ensures NoneStandsAt(rows, seen, agentId, storeId)
  {
  }

  lemma HeldInWhole(rows: seq<Row>, seen: nat, link: UnsignedLink)
    requires seen <= |rows|
    ensures InLog(rows[..seen], link) ==> InLog(rows, link)
  {
  }

  lemma RecoverEventSound(w: World, e: Event)
    requires Inv(w) && Accepted(w.rows) && e.StartRecover?
    ensures Inv(After(w, e)) && Grows(w, After(w, e))
  {
    hide RecoverRead, RowSound, SessionSound, Accepted;
    if e.sid !in w.sessions && 1 <= e.seen <= |w.rows| && Open(w.bars, e.bar) {
      PrefixAccepted(w.rows, e.seen);
      RecoverReadSound(w, e.bar, e.seen, e.young);
      StartSound(w, e.sid, RecoverRead(w.rows[..e.seen], w.bars[e.bar], w.storeId, e.bar, e.young));
    }
  }

  /** Every event keeps the invariant; the log only grows and a closed bar never changes. */
  lemma EventKeepsInv(w: World, e: Event)
    requires Inv(w)
    ensures Accepted(w.rows) && Inv(After(w, e)) && Grows(w, After(w, e))
  {
    LogAccepted(w);
    hide NextAct, OpenBar, ClosedByOthers, FirstRead, RowSound, SessionSound, Accepted;
    if e.StartBegin? {
      BeginEventSound(w, e);
    } else if e.StartRecover? {
      RecoverEventSound(w, e);
    } else if e.StartSign? || e.StartFinish? {
      if e.sid !in w.sessions {
        FirstReadSound(w, e);
        StartSound(w, e.sid, FirstRead(w.bars, e));
      }
    } else if e.Act? {
      ActEventSound(w, e.sid, e.inputs);
    } else if e.Crash? || e.ForeignAppend? {
      InvFrom(w, After(w, e));
    } else if ClosedByOthers(w, e).Some? {
      ClosedByOthersSound(w, e);
      BarWriteSound(w, ClosedByOthers(w, e).value.0, ClosedByOthers(w, e).value.1);
    }
  }

  lemma BeginEventSound(w: World, e: Event)
    requires Inv(w) && e.StartBegin?
    ensures Inv(After(w, e)) && Grows(w, After(w, e))
  {
    hide OpenBar, NextAct, RowSound, Inv;
    var (bars, bar) := OpenBar(w.bars, e.agentId, e.spare);
    if e.sid !in w.sessions && e.storeId == w.storeId && bar.Some? {
      OpenedIsSound(w, e.agentId, e.spare);
      StartSound(w.(bars := bars), e.sid, ToPrepare(bar.value, e.agentId, e.storeId, e.signer));
    }
  }

  /** What a step reports as it ends is so at that moment. */
  ghost predicate ReportTrue(bars: Bars, s: Session, step: RevokeStep) {
    var bar := step.bar;
    var row := if bar in bars then Some(bars[bar]) else None;
    match step.state
    case Prepared =>
      s.ToRecord? && row.Some? && row.value.closed.None? && row.value.pending == Some(s.link) && row.value.signature.None?
    case SignedStep =>
      && s.ToStoreSignature? && row.Some? && row.value.closed.None?
      && row.value.pending == Some(s.link) && row.value.signature == Some(s.signature)
    case StaleHeadStep =>
      && s.ToSwap? && row.Some? && row.value.closed.None? && row.value.pending == Some(s.spare) && row.value.signature.None?
      && step.seqNo == Some(s.spare.seqNo)
    case Landed => row.Some? && row.value.closed == Some(Closing(SignedRevoke, step.seqNo))
    case LandedBarAbandoned => row.Some? && row.value.closed.Some? && row.value.closed != Some(Closing(SignedRevoke, step.seqNo))
    case AbandonedStep => row.Some? && row.value.closed.Some?
    case Reprepared =>
      && s.ToReadLost? && row.Some? && row.value.closed.None?
      && step.seqNo == (if row.value.pending.Some? then Some(row.value.pending.value.seqNo) else None)
  }

  /** Every report is true as it is made. That a link landed, or that the bar was abandoned, stays true (`SessionSound`). */
  lemma ReportIsTrue(w: World, s: Session, inputs: Inputs)
    requires Inv(w) && Accepted(w.rows) && SessionSound(w, s) && !Over(s) && NextAct(w, s, inputs).1.Ended?
    ensures NextAct(w, s, inputs).1.step.bar == s.bar
    ensures ReportTrue(NextAct(w, s, inputs).0.bars, s, NextAct(w, s, inputs).1.step)
  {
    hide Inv, Accepted, Appended, Replay, AnchorAllows, PrepareRevoke, InLog, NoneStandsAt;
  }

  /** The recovery table: a link the log read holds is closed over; else its young signature, if that log's head is the one
      it was prepared on, is appended; else, no link of the agent standing there, the bar is closed; else it stays. */
  lemma RecoverDecides(rows: seq<Row>, b: BarRow, storeId: Name, bar: BarId, young: bool)
    requires Accepted(rows) && rows != []
    ensures var r := RecoverRead(rows, b, storeId, bar, young);
            var held := b.pending.Some? && 1 <= b.pending.value.seqNo <= |rows|
                        && rows[b.pending.value.seqNo - 1].hash == LinkHash(b.pending.value.prevHash, b.pending.value.text);
            var next := b.pending.Some? && b.pending.value.seqNo == |rows| + 1
                        && b.pending.value.prevHash == rows[|rows| - 1].hash;
            var none := NoneStandsAt(rows, |rows|, b.agentId, storeId);
            && (r.ToClose? <==> held) && (r.ToAppendStored? <==> next && b.signature.Some? && young)
            && (r.ToCloseNothing? <==> none && !r.ToClose? && !r.ToAppendStored?)
            && (r.Recovered? <==> !none && !r.ToClose? && !r.ToAppendStored?)
            && (r.ToClose? ==> r == ToClose(bar, b.pending.value, false))
            && (r.ToAppendStored? ==> r == ToAppendStored(bar, b.pending.value, b.signature.value, |rows|, none))
            && (r.ToCloseNothing? ==> r == ToCloseNothing(bar, |rows|))
  {
    assert rows[..|rows|] == rows;
    assert NoLinkPresent(rows, b.agentId, storeId) <==> NoneStandsAt(rows, |rows|, b.agentId, storeId);
    hide NoLinkPresent, NoneStandsAt, Accepted;
  }

  /** Opening the agent's bar, or reusing the open one, keeps the invariant. */
  lemma OpenedIsSound(w: World, agentId: Name, spare: BarId)
    requires Inv(w)
    ensures var (bars, bar) := OpenBar(w.bars, agentId, spare);
            && Inv(w.(bars := bars)) && Grows(w, w.(bars := bars))
            && (bar.Some? ==> bar.value in bars && bars[bar.value].agentId == agentId)
  {
    BeginOpens(w, agentId, spare);
    hide OpenBar, SessionSound;
    InvFrom(w, w.(bars := OpenBar(w.bars, agentId, spare).0));
  }

  lemma BeginOpens(w: World, agentId: Name, spare: BarId)
    requires Inv(w)
    ensures var (bars, bar) := OpenBar(w.bars, agentId, spare);
            && (bar.Some? ==> bar.value in bars && bars[bar.value].agentId == agentId && Open(bars, bar.value))
            && (forall id :: id in w.bars ==> id in bars && bars[id] == w.bars[id])
            && (forall id :: id in bars && id !in w.bars ==> bars[id] == BarRow(agentId, None, None, None))
            && (forall a, b :: Open(bars, a) && Open(bars, b) && bars[a].agentId == bars[b].agentId ==> a == b)
  {
    var (bars, bar) := OpenBar(w.bars, agentId, spare);
  }

  // ----- whole runs

  ghost function Run(w: World, events: seq<Event>): (r: World)
    requires Inv(w)
    ensures Inv(r)
  {
    if events == [] then w
    else
      var before := Run(w, events[..|events| - 1]);
      EventKeepsInv(before, events[|events| - 1]);
      After(before, events[|events| - 1])
  }

  /** Over any interleaving, from any sound world: the world stays sound (each stored signature is over the link beside
      it, each bar closed `signed` has its revoke in the log, each report that stands has its link in the log and each
      other appended nothing), the log only grows, and a bar once closed never changes. */
  lemma {:induction false} RevokeOverRuns(w: World, events: seq<Event>)
    requires Inv(w)
    ensures Inv(Run(w, events)) && Grows(w, Run(w, events))
    decreases |events|
  {
    hide After, Inv;
    if events != [] {
      var n := |events| - 1;
      RevokeOverRuns(w, events[..n]);
      EventKeepsInv(Run(w, events[..n]), events[n]);
    }
  }

  /** A step of a finish whose link may already be in the log. */
  predicate Finishing(s: Session) {
    s.ToAppend? || s.ToLookInLog? || s.ToClose? || s.ToReadClosed?
  }

  /** The acts a finishing step still has at most. */
  function ActsLeft(s: Session): nat {
    if s.ToAppend? then 4 else if s.ToLookInLog? then 3 else if s.ToClose? then 2 else if s.ToReadClosed? then 1 else 0
  }

  /** A finishing step appended its link itself. */
  predicate DidAppend(s: Session) {
    (s.ToClose? || s.ToReadClosed? || s.Ended?) && s.appended
  }

  predicate EndedStanding(s: Session, link: UnsignedLink) {
    s.Ended? && s.step.Stands() && s.over == Some(link) && s.step.seqNo == Some(link.seqNo)
  }

  /** One act of a finish whose link the log holds: it appends nothing, and comes one nearer to standing, unless the
      anchor as read refuses the log. */
  lemma LandedFinishActs(w: World, s: Session, inputs: Inputs)
    requires Inv(w) && Accepted(w.rows) && SessionSound(w, s) && Finishing(s) && InLog(w.rows, s.link)
    ensures var (w', s') := NextAct(w, s, inputs);
            && w'.rows == w.rows
            && (AnchorAllows(Replay(w.rows).value, inputs.anchor).Ok? ==> !s'.Raised?)
            && (s'.Raised? || (((Finishing(s') && s'.link == s.link) || EndedStanding(s', s.link))
                               && ActsLeft(s') < ActsLeft(s) && DidAppend(s') == DidAppend(s)))
  {
    hide Step, LocalChecks, AnchorAllows, Replay;
    if s.ToAppend? {
      HeldLinkIsStale(w.rows, s.link, s.signature, inputs.now, inputs.anchor);
    }
    hide Appended, Inv, Accepted;
  }

  function ActsOf(events: seq<Event>, sid: nat): nat {
    if events == [] then 0
    else
      var e := events[|events| - 1];
      ActsOf(events[..|events| - 1], sid) + if e.Act? && e.sid == sid then 1 else 0
  }

  /** An act of `sid` in the run read an anchor that refused the log. */
  ghost predicate AnchorRefused(w: World, events: seq<Event>, sid: nat)
    requires Inv(w)
  {
    exists i :: 0 <= i < |events| && RefusedAt(w, events, sid, i)
  }

  ghost predicate RefusedAt(w: World, events: seq<Event>, sid: nat, i: nat)
    requires Inv(w) && i < |events|
  {
    && events[i].Act? && events[i].sid == sid && Replay(Run(w, events[..i]).rows).Ok?
    && AnchorAllows(Replay(Run(w, events[..i]).rows).value, events[i].inputs.anchor).Err?
  }

  /** Where a finish stands after a run, its link in the log at the start: on its way, each of its acts one fewer; ended
      standing; or raised, the anchor having refused one of its acts. */
  ghost predicate FinishOnTrack(w: World, events: seq<Event>, sid: nat)
    requires Inv(w) && sid in w.sessions && Finishing(w.sessions[sid])
  {
    var s, w' := w.sessions[sid], Run(w, events);
    && sid in w'.sessions && InLog(w'.rows, s.link)
    && var s' := w'.sessions[sid];
       || (s'.Raised? && AnchorRefused(w, events, sid))
       || (DidAppend(s') == DidAppend(s)
           && (EndedStanding(s', s.link) || (Finishing(s') && s'.link == s.link && ActsLeft(s') + ActsOf(events, sid) <= ActsLeft(s))))
  }

  /** A finish whose link landed before (a crash between its append and its close, or another's append), whatever runs
      between its acts short of its own crash: it appends nothing, and after at most four acts of its own it has ended
      standing, or the anchor refused one of them. */
  lemma {:induction false} LandedFinishOverRuns(w: World, events: seq<Event>, sid: nat)
    requires Inv(w) && sid in w.sessions && Finishing(w.sessions[sid])
    requires InLog(w.rows, w.sessions[sid].link) && forall i :: 0 <= i < |events| ==> events[i] != Crash(sid)
    ensures FinishOnTrack(w, events, sid)
    ensures forall i :: 0 <= i < |events| ==> AppendsNothing(w, events, sid, i)
    decreases |events|
  {
    hide Inv, Accepted, FinishOnTrack, InLog, Run;
    if events == [] {
      assert FinishOnTrack(w, events, sid) by { AtTheStart(w, sid); }
    } else {
      var n := |events| - 1;
      LandedFinishOverRuns(w, events[..n], sid);
      LandedFinishStep(w, events, sid);
      forall i | 0 <= i < |events| ensures AppendsNothing(w, events, sid, i) {
        if i < n {
          assert AppendsNothing(w, events[..n], sid, i);
          assert events[..n][..i] == events[..i] && events[..n][..i + 1] == events[..i + 1] && events[..n][i] == events[i];
        } else {
          assert events[..n + 1] == events;
        }
      }
    }
  }

  /** The step's act at `i`, if it is one, leaves the log as it was. */
  ghost predicate AppendsNothing(w: World, events: seq<Event>, sid: nat, i: nat)
    requires Inv(w) && i < |events|
  {
    events[i].Act? && events[i].sid == sid ==> Run(w, events[..i + 1]).rows == Run(w, events[..i]).rows
  }

  lemma AtTheStart(w: World, sid: nat)
    requires Inv(w) && sid in w.sessions && Finishing(w.sessions[sid]) && InLog(w.rows, w.sessions[sid].link)
    ensures FinishOnTrack(w, [], sid)
  {
  }

  lemma LandedFinishStep(w: World, events: seq<Event>, sid: nat)
    requires Inv(w) && sid in w.sessions && Finishing(w.sessions[sid]) && events != []
    requires FinishOnTrack(w, events[..|events| - 1], sid) && events[|events| - 1] != Crash(sid)
    ensures FinishOnTrack(w, events, sid)
    ensures events[|events| - 1].Act? && events[|events| - 1].sid == sid ==>
              Run(w, events).rows == Run(w, events[..|events| - 1]).rows
  {
    hide NextAct, After, Inv, Accepted, InLog, Replay, AnchorAllows;
    var n := |events| - 1;
    var before, e, link := Run(w, events[..n]), events[n], w.sessions[sid].link;
    EventKeepsInv(before, e);
    RefusalStays(w, events, sid);
    HeldStays(before, After(before, e), link);
    if e.Act? && e.sid == sid {
      SessionOf(before, sid);
      ActOf(before, e);
      var s := before.sessions[sid];
      if Finishing(s) {
        LandedFinishActs(before, s, e.inputs);
        assert AnchorAllows(Replay(before.rows).value, e.inputs.anchor).Err? ==> RefusedAt(w, events, sid, n) by {
          ReplayOk(before);
        }
      }
    } else {
      OthersLeaveSession(before, e, sid);
    }
  }

  lemma ReplayOk(w: World)
    requires Inv(w)
    ensures Replay(w.rows).Ok?
  {
  }

  lemma HeldStays(w: World, w': World, link: UnsignedLink)
    requires Grows(w, w') && InLog(w.rows, link)
    ensures InLog(w'.rows, link)
  {
  }

  lemma SessionOf(w: World, sid: nat)
    requires Inv(w) && sid in w.sessions
    ensures SessionSound(w, w.sessions[sid])
  {
  }

  lemma ActOf(w: World, e: Event)
    requires Accepted(w.rows) && e.Act? && e.sid in w.sessions
    ensures var (w', s') := NextAct(w, w.sessions[e.sid], e.inputs);
            After(w, e) == WithSession(w', e.sid, s')
    ensures Over(w.sessions[e.sid]) ==>
              NextAct(w, w.sessions[e.sid], e.inputs) == (w, w.sessions[e.sid])
  {
  }

  /** Only its own acts and its own crash move a step. */
  lemma OthersLeaveSession(w: World, e: Event, sid: nat)
    requires Accepted(w.rows) && sid in w.sessions && e != Crash(sid) && !(e.Act? && e.sid == sid)
    ensures sid in After(w, e).sessions && After(w, e).sessions[sid] == w.sessions[sid]
  {
    hide Accepted;
    if e.Act? && e.sid in w.sessions {
      ActIgnoresSessions(w, w.sessions[e.sid], e.inputs);
    }
    hide NextAct, ClosedByOthers, OpenBar, FirstRead, RecoverRead;
  }

  lemma RefusalStays(w: World, events: seq<Event>, sid: nat)
    requires Inv(w) && events != []
    ensures AnchorRefused(w, events[..|events| - 1], sid) ==> AnchorRefused(w, events, sid)
  {
    var n := |events| - 1;
    if AnchorRefused(w, events[..n], sid) {
      var i :| 0 <= i < n && RefusedAt(w, events[..n], sid, i);
      assert events[..n][..i] == events[..i] && events[..n][i] == events[i];
      assert RefusedAt(w, events, sid, i);
    }
  }

  /** So a finish repeated after a crash between its append and its close, over any interleaving: started on the open bar
      whose signed link the log holds, it appends nothing, and within four acts has ended standing at that link's seq,
      short of an anchor that refused. */
  lemma RepeatedFinishOverRuns(w: World, sid: nat, bar: BarId, events: seq<Event>)
    requires Inv(w) && sid !in w.sessions && Open(w.bars, bar)
    requires w.bars[bar].pending.Some? && w.bars[bar].signature.Some? && InLog(w.rows, w.bars[bar].pending.value)
    requires forall i :: 0 <= i < |events| ==> events[i] != Crash(sid)
    ensures Accepted(w.rows) && Inv(After(w, StartFinish(sid, bar)))
    ensures var link, w' := w.bars[bar].pending.value, Run(After(w, StartFinish(sid, bar)), events);
            && sid in w'.sessions && InLog(w'.rows, link)
            && (ActsOf(events, sid) >= 4 && !AnchorRefused(After(w, StartFinish(sid, bar)), events, sid) ==>
                  EndedStanding(w'.sessions[sid], link) && !w'.sessions[sid].appended)
  {
    EventKeepsInv(w, StartFinish(sid, bar));
    var start := After(w, StartFinish(sid, bar));
    assert sid in start.sessions && start.sessions[sid] == ToAppend(bar, w.bars[bar].pending.value, w.bars[bar].signature.value)
           && start.rows == w.rows;
    hide After, Inv, Accepted;
    LandedFinishOverRuns(start, events, sid);
  }

  /** Alone, that finish ends `landed` with the bar closed at the link's seq: it reads the bar, is told the head moved,
      finds its link in the log, and closes. */
  lemma RepeatedFinishLands(w: World, sid: nat, bar: BarId, i1: Inputs, i2: Inputs, i3: Inputs)
    requires Inv(w) && Accepted(w.rows) && sid !in w.sessions && Open(w.bars, bar)
    requires w.bars[bar].pending.Some? && w.bars[bar].signature.Some? && InLog(w.rows, w.bars[bar].pending.value)
    requires AnchorAllows(Replay(w.rows).value, i1.anchor).Ok? && AnchorAllows(Replay(w.rows).value, i2.anchor).Ok?
    ensures var link, signature := w.bars[bar].pending.value, w.bars[bar].signature.value;
            && After(w, StartFinish(sid, bar)) == WithSession(w, sid, ToAppend(bar, link, signature))
            && NextAct(w, ToAppend(bar, link, signature), i1) == (w, ToLookInLog(bar, link))
            && NextAct(w, ToLookInLog(bar, link), i2) == (w, ToClose(bar, link, false))
            && NextAct(w, ToClose(bar, link, false), i3) ==
               (w.(bars := w.bars[bar := w.bars[bar].(closed := Some(Closing(SignedRevoke, Some(link.seqNo))))]),
                Ended(RevokeStep(Landed, bar, Some(link.seqNo)), Some(link), false))
  {
    hide Appended, Replay, AnchorAllows, BeginAct, SignAct, SessionSound, RowSound, OpenBar, Inv, Accepted;
    var link := w.bars[bar].pending.value;
    HeldLinkIsStale(w.rows, link, w.bars[bar].signature.value, i1.now, i1.anchor);
  }

  // ----- what a signed close records

  /** The event is the close of a landed link: by the finish that appended or found it, or by a recovery, of the link that
      was pending beside the bar when it read it. */
  predicate ClosesOver(w: World, e: Event, id: BarId, link: UnsignedLink) {
    && e.Act? && e.sid in w.sessions && w.sessions[e.sid].ToClose?
    && w.sessions[e.sid].bar == id && w.sessions[e.sid].link == link
  }

  predicate ClosedSigned(bars: Bars, id: BarId) {
    id in bars && bars[id].closed.Some? && bars[id].closed.value.reason.SignedRevoke?
  }

  predicate NotClosed(bars: Bars, id: BarId) {
    id in bars ==> bars[id].closed.None?
  }

  /** A close `signed` writes the seq of the very link the log holds: the revoke of that agent at that store. */
  lemma CloseNamesItsLink(w: World, e: Event, id: BarId) returns (link: UnsignedLink)
    requires Inv(w) && Accepted(w.rows) && NotClosed(w.bars, id) && ClosedSigned(After(w, e).bars, id)
    ensures id in w.bars && ClosesOver(w, e, id, link) && InLog(w.rows, link)
    ensures After(w, e).bars[id].closed == Some(Closing(SignedRevoke, Some(link.seqNo)))
    ensures Revokes(link.text, w.bars[id].agentId, w.storeId)
  {
    SignedCloseEvents(w, e, id);
    hide Inv, Accepted, InLog;
    SessionOf(w, e.sid);
    ActOf(w, e);
    ActCloses(w, w.sessions[e.sid], e.inputs, id);
    link := w.sessions[e.sid].link;
  }

  /** Only an act of a step closes a bar `signed`. */
  lemma SignedCloseEvents(w: World, e: Event, id: BarId)
    requires Inv(w) && Accepted(w.rows) && NotClosed(w.bars, id) && ClosedSigned(After(w, e).bars, id)
    ensures e.Act? && e.sid in w.sessions
  {
    hide NextAct, Accepted, Recorded, InLog, RevokedAt, FirstRead, RecoverRead;
    if e.StartBegin? {
      BeginOpens(w, e.agentId, e.spare);
    }
  }

  lemma ActCloses(w: World, s: Session, inputs: Inputs, id: BarId)
    requires Accepted(w.rows) && NotClosed(w.bars, id) && ClosedSigned(NextAct(w, s, inputs).0.bars, id)
    ensures s.ToClose? && s.bar == id && id in w.bars
    ensures NextAct(w, s, inputs).0.bars[id].closed == Some(Closing(SignedRevoke, Some(s.link.seqNo)))
  {
    hide Accepted, Appended, Replay, AnchorAllows, PrepareRevoke;
  }

  /** Over any run: a bar closed `signed` meanwhile was closed by an event at which the log held the very link, at the
      seq the bar records; the log holds it still. */
  lemma {:induction false} SignedBarIsHeld(w: World, events: seq<Event>, id: BarId) returns (k: nat, link: UnsignedLink)
    requires Inv(w) && NotClosed(w.bars, id) && ClosedSigned(Run(w, events).bars, id)
    ensures k < |events| && ClosesOver(Run(w, events[..k]), events[k], id, link)
    ensures InLog(Run(w, events[..k]).rows, link) && InLog(Run(w, events).rows, link)
    ensures Run(w, events).bars[id].closed == Some(Closing(SignedRevoke, Some(link.seqNo)))
    ensures Revokes(link.text, Run(w, events).bars[id].agentId, w.storeId)
    decreases |events|
  {
    hide After, Inv, Accepted, InLog, Revokes;
    assert events != [];
    var n := |events| - 1;
    var before := Run(w, events[..n]);
    EventKeepsInv(before, events[n]);
    RevokeOverRuns(w, events[..n]);
    if ClosedSigned(before.bars, id) {
      k, link := SignedBarIsHeld(w, events[..n], id);
      assert events[..n][..k] == events[..k] && events[..n][k] == events[k];
      HeldStays(before, Run(w, events), link);
    } else {
      assert NotClosed(before.bars, id);
      link := CloseNamesItsLink(before, events[n], id);
      k := n;
      HeldStays(before, Run(w, events), link);
    }
  }

  /** Recovery closes over the link it read, not over the one pending by then: a bar prepared again in between, on a log in
      which the agent's link was created again, is closed `signed` at the earlier link's seq with the later one pending. */
  lemma RecoveryClosesOverLinkRead(w: World, bar: BarId, r: nat, b: nat, seen: nat, young: bool, i: Inputs, i': Inputs)
    requires Inv(w) && Accepted(w.rows) && r !in w.sessions && 1 <= seen <= |w.rows| && Open(w.bars, bar)
    requires w.bars[bar].pending.Some? && Accepted(w.rows[..seen]) && InLog(w.rows[..seen], w.bars[bar].pending.value)
    requires b in w.sessions && w.sessions[b].ToRecord? && w.sessions[b].bar == bar
    ensures var link, w' := w.bars[bar].pending.value, Run(w, [StartRecover(r, bar, seen, young), Act(b, i), Act(r, i')]);
            && bar in w'.bars && w'.bars[bar].closed == Some(Closing(SignedRevoke, Some(link.seqNo)))
            && w'.bars[bar].pending == Some(w.sessions[b].link)
  {
    hide Inv, Accepted, InLog, AppendAct, SignAct, RecoverAct, PrepareRevoke, NoLinkPresent;
    var e := [StartRecover(r, bar, seen, young), Act(b, i), Act(r, i')];
    var link, again := w.bars[bar].pending.value, w.sessions[b].link;
    RunThree(w, e);
    var w1 := WithSession(w, r, ToClose(bar, link, false));
    assert After(w, e[0]) == w1;
    hide RecoverRead;
    LogAccepted(Run(w, e[..1]));
    LogAccepted(Run(w, e[..2]));
    var w2 := After(w1, e[1]);
    assert w2.bars == w.bars[bar := WithLink(w.bars[bar], again)] && w2.sessions[r] == ToClose(bar, link, false);
    var w3 := After(w2, e[2]);
    assert w3.bars[bar].closed == Some(Closing(SignedRevoke, Some(link.seqNo)));
  }

  lemma RunThree(w: World, e: seq<Event>)
    requires Inv(w) && |e| == 3
    ensures Accepted(w.rows) && Run(w, e[..1]) == After(w, e[0])
    ensures Accepted(Run(w, e[..1]).rows) && Run(w, e[..2]) == After(Run(w, e[..1]), e[1])
    ensures Accepted(Run(w, e[..2]).rows) && Run(w, e) == After(Run(w, e[..2]), e[2])
  {
    LogAccepted(w);
    LogAccepted(Run(w, e[..1]));
    LogAccepted(Run(w, e[..2]));
    hide After, Inv, Accepted;
    assert e[..2][..1] == e[..1] && e[..1][..0] == [];
    assert Run(w, e[..0]) == w;
  }

  /** A store with no bars beside any accepted log is sound: the runs start somewhere. */
  lemma NoBarsIsSound(storeId: Name, rows: seq<Row>)
    requires Accepted(rows)
    ensures Inv(World(storeId, map[], rows, map[]))
  {
  }

  /** A sign that ends `signed` leaves its signature beside the very link that was signed. */
  lemma SignedMeansRecorded(w: World, s: Session, inputs: Inputs)
    requires Inv(w) && SessionSound(w, s) && s.ToStoreSignature?
    ensures var (w', s') := NextAct(w, s, inputs);
            s'.Ended? && s'.step.state.SignedStep? <==>
              && Open(w.bars, s.bar) && w.bars[s.bar].pending == Some(s.link)
              && w'.bars[s.bar].pending == Some(s.link) && w'.bars[s.bar].signature == Some(s.signature)
              && s' == Ended(RevokeStep(SignedStep, s.bar, Some(s.link.seqNo)), Some(s.link), false)
  {
  }
}
