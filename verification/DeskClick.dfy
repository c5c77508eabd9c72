/** Exactly-once desk requests around one signing lock (levain/desk_click.py, `DeskState` and the order of acquire,
    remember and release in `_desk_answer_owned`). */
module DeskClick {
  import opened Wrappers

  /** A client's request id, a whole request (its fingerprint, taken as injective), and a reply. */
  type Txn = nat
  type Request = nat
  type Reply = nat

  const TXN_KEEP: nat := 64

  datatype Done = Done(txn: Txn, request: Request, reply: Reply)

  /** The route's process-wide state: results remembered, oldest first; ids in flight; the sign lock. */
  datatype Desk = Desk(done: seq<Done>, inflight: map<Txn, Request>, locked: bool)

  predicate Knows(done: seq<Done>, txn: Txn) {
    exists i :: 0 <= i < |done| && done[i].txn == txn
  }

  /** The remembered result of an id. */
  function Find(done: seq<Done>, txn: Txn): (r: Option<Done>)
    ensures r.Some? <==> Knows(done, txn)
    ensures r.Some? ==> r.value in done && r.value.txn == txn
  {
    if done == [] then None
    else if done[0].txn == txn then Some(done[0])
    else
      var rest := Find(done[1..], txn);
      assert rest.Some? ==> Knows(done, txn) by {
        if rest.Some? {
          var i :| 0 <= i < |done[1..]| && done[1..][i].txn == txn;
          assert done[i + 1].txn == txn;
        }
      }
      assert Knows(done, txn) ==> rest.Some? by {
        if Knows(done, txn) {
          var i :| 0 <= i < |done| && done[i].txn == txn;
          assert done[1..][i - 1].txn == txn;
        }
      }
      rest
  }

  function Without(done: seq<Done>, txn: Txn): seq<Done> {
    if done == [] then []
    else if done[0].txn == txn then Without(done[1..], txn)
    else [done[0]] + Without(done[1..], txn)
  }

  /** Remember a result last, forgetting the oldest past the bound. */
  function Pushed(done: seq<Done>, d: Done): seq<Done> {
    var all := Without(done, d.txn) + [d];
    if |all| > TXN_KEEP then all[|all| - TXN_KEEP..] else all
  }

  lemma {:induction false} WithoutUnknown(done: seq<Done>, txn: Txn)
    requires !Knows(done, txn)
    ensures Without(done, txn) == done
  {
    if done != [] {
      assert done[0].txn != txn;
      assert !Knows(done[1..], txn) by {
        forall i | 0 <= i < |done[1..]| ensures done[1..][i].txn != txn { assert done[i + 1].txn != txn; }
      }
      WithoutUnknown(done[1..], txn);
    }
  }

  /** What reserving an id answers: it is the caller's now; the first result; a refusal; or it is still in flight. */
  datatype Begun = Owned | FirstResult(reply: Reply) | Reused | InFlight

  function BeginAnswer(d: Desk, txn: Txn, request: Request): Begun {
    var found := Find(d.done, txn);
    if found.Some? then if found.value.request == request then FirstResult(found.value.reply) else Reused
    else if txn !in d.inflight then Owned
    else if d.inflight[txn] != request then Reused
    else InFlight
  }

  function AfterBegin(d: Desk, txn: Txn, request: Request): Desk {
    if BeginAnswer(d, txn, request).Owned? then d.(inflight := d.inflight[txn := request]) else d
  }

  /** Release an id; with a reply, and the id still in flight, remember it. */
  function AfterEnd(d: Desk, txn: Txn, reply: Option<Reply>): Desk {
    d.(inflight := d.inflight - {txn},
    done := if reply.Some? && txn in d.inflight
            then Pushed(d.done, Done(txn, d.inflight[txn], reply.value)) else d.done)
  }

  /** The state object: the two tables and the lock, updated in place. */
  class DeskState {
    var done: seq<Done>
    var inflight: map<Txn, Request>
    var locked: bool

    function State(): Desk
      reads this
    {
      Desk(done, inflight, locked)
    }

    constructor ()
      ensures State() == Desk([], map[], false)
    {
      done, inflight, locked := [], map[], false;
    }

    /** One look of `begin` under the guard; a caller told the id is in flight waits and looks again. */
    method Begin(txn: Txn, request: Request) returns (r: Begun)
      modifies this
      ensures r == BeginAnswer(old(State()), txn, request)
      ensures State() == AfterBegin(old(State()), txn, request)
    {
      var found := Find(done, txn);
      if found.Some? {
        return if found.value.request == request then FirstResult(found.value.reply) else Reused;
      }
      if txn !in inflight {
        inflight := inflight[txn := request];
        return Owned;
      }
      r := if inflight[txn] != request then Reused else InFlight;
    }

    method End(txn: Txn, reply: Option<Reply>)
      modifies this
      ensures State() == AfterEnd(old(State()), txn, reply)
    {
      var flight := if txn in inflight then Some(inflight[txn]) else None;
      inflight := inflight - {txn};
      if reply.Some? && flight.Some? {
        var kept := Without(done, txn) + [Done(txn, flight.value, reply.value)];
        if |kept| > TXN_KEEP {
          kept := kept[|kept| - TXN_KEEP..];
        }
        done := kept;
      }
    }

    method TryLock() returns (got: bool)
      modifies this
      ensures got == !old(locked) && State() == old(State()).(locked := true)
    {
      got := !locked;
      locked := true;
    }

    method Unlock()
      modifies this
      ensures State() == old(State()).(locked := false)
    {
      locked := false;
    }

    /** One step of a request's thread, made of the calls above: exactly the step the runs below are made of. */
    method Move(threads: map<nat, Thread>, e: Event) returns (moved: map<nat, Thread>)
      modifies this
      ensures World(State(), moved) == After(World(old(State()), threads), e)
    {
      hide Find, Pushed;
      if e.Arrive? {
        return if e.t in threads then threads else threads[e.t := Waiting(e.txn, e.request)];
      }
      if e.t !in threads {
        return threads;
      }
      moved := threads;
      var th := threads[e.t];
      if e.Look? && th.Waiting? {
        var answer := Begin(th.txn, th.request);
        if answer.Owned? {
          moved := threads[e.t := Owner(th.txn, th.request)];
        } else if !answer.InFlight? {
          moved := threads[e.t := Replied(th.txn, th.request, answer)];
        }
      } else if e.GiveUp? && th.Waiting? {
        moved := threads[e.t := Replied(th.txn, th.request, InFlight)];
      } else if e.RefuseEarly? && th.Owner? {
        moved := threads[e.t := Leaving(th.txn, th.request, false, e.reply, 0)];
      } else if e.TryLock? && th.Owner? {
        var got := TryLock();
        moved := threads[e.t := if got then Locked(th.txn, th.request) else Leaving(th.txn, th.request, false, e.busy, 0)];
      } else if (e.RefuseLocked? && th.Locked?) || (e.PromptRaised? && th.Prompting?) {
        Unlock();
        moved := threads[e.t := Leaving(th.txn, th.request, false, e.reply, 0)];
      } else if e.OpenPrompt? && th.Locked? {
        moved := threads[e.t := Prompting(th.txn, th.request)];
      } else if e.Remember? && (th.Prompting? || th.Locked?) {
        End(th.txn, Some(e.reply));
        moved := (map u | u in threads :: Aged(threads[u]))[e.t := Told(th.txn, th.request, e.reply, 0)];
      } else if e.Unlock? && th.Told? {
        Unlock();
        moved := threads[e.t := Leaving(th.txn, th.request, true, th.reply, th.since)];
      } else if e.Release? && th.Leaving? {
        End(th.txn, None);
        moved := threads[e.t := Replied(th.txn, th.request, FirstResult(th.reply))];
      }
    }
  }

  // ----- one request, from its arrival to its reply

  /** Where a request's thread stands. `Told` holds the sign lock with its result remembered; `Leaving` is past the lock
      and has one release of the id still to make; `since` counts the other requests remembered after its own. */
  datatype Thread =
    | Waiting(txn: Txn, request: Request)
    | Owner(txn: Txn, request: Request)
    | Locked(txn: Txn, request: Request)
    | Prompting(txn: Txn, request: Request)
    | Told(txn: Txn, request: Request, reply: Reply, since: nat)
    | Leaving(txn: Txn, request: Request, kept: bool, reply: Reply, since: nat)
    | Replied(txn: Txn, request: Request, answer: Begun)

  datatype World = World(desk: Desk, threads: map<nat, Thread>)

  datatype Event =
    | Arrive(t: nat, txn: Txn, request: Request)
    | Look(t: nat)                       // one look of begin
    | GiveUp(t: nat)                     // the wait ran out: the request is still being answered
    | RefuseEarly(t: nat, reply: Reply)  // a refusal before the lock
    | TryLock(t: nat, busy: Reply)       // `busy` is the reply when a sheet is already open
    | RefuseLocked(t: nat, reply: Reply) // a refusal under the lock, before any prompt
    | OpenPrompt(t: nat)
    | PromptRaised(t: nat, reply: Reply) // the signer raised: nothing remembered
    | Remember(t: nat, reply: Reply)     // the result, remembered with the lock still held
    | Unlock(t: nat)
    | Release(t: nat)                    // the final release of the id

  predicate Holder(th: Thread) {
    th.Owner? || th.Locked? || th.Prompting? || (th.Leaving? && !th.kept)
  }

  predicate HoldsLock(th: Thread) {
    th.Locked? || th.Prompting? || th.Told?
  }

  /** The result was remembered and the id not yet finally released. */
  predicate Settling(th: Thread) {
    th.Told? || (th.Leaving? && th.kept)
  }

  function Aged(th: Thread): Thread {
    match th
    case Told(txn, request, reply, since) => Told(txn, request, reply, since + 1)
    case Leaving(txn, request, kept, reply, since) =>
      Leaving(txn, request, kept, reply, if kept then since + 1 else since)
    case _ => th
  }

  function Put(w: World, t: nat, th: Thread): World {
    w.(threads := w.threads[t := th])
  }

  function LookAct(w: World, t: nat): World
    requires t in w.threads && w.threads[t].Waiting?
  {
    var th := w.threads[t];
    var answer := BeginAnswer(w.desk, th.txn, th.request);
    if answer.InFlight? then w
    else if answer.Owned? then
      Put(w.(desk := AfterBegin(w.desk, th.txn, th.request)), t, Owner(th.txn, th.request))
    else Put(w, t, Replied(th.txn, th.request, answer))
  }

  /** The result is remembered, and every other settling request is one older. */
  function RememberAct(w: World, t: nat, reply: Reply): World
    requires t in w.threads && (w.threads[t].Prompting? || w.threads[t].Locked?)
  {
    var th := w.threads[t];
    World(AfterEnd(w.desk, th.txn, Some(reply)),
          (map u | u in w.threads :: Aged(w.threads[u]))[t := Told(th.txn, th.request, reply, 0)])
  }

  function After(w: World, e: Event): World {
    if e.Arrive? then if e.t in w.threads then w else Put(w, e.t, Waiting(e.txn, e.request))
    else if e.t !in w.threads then w
    else
      var th := w.threads[e.t];
      if e.Look? && th.Waiting? then LookAct(w, e.t)
      else if e.GiveUp? && th.Waiting? then Put(w, e.t, Replied(th.txn, th.request, InFlight))
      else if e.RefuseEarly? && th.Owner? then Put(w, e.t, Leaving(th.txn, th.request, false, e.reply, 0))
      else if e.TryLock? && th.Owner? then
        if w.desk.locked then Put(w, e.t, Leaving(th.txn, th.request, false, e.busy, 0))
        else Put(w.(desk := w.desk.(locked := true)), e.t, Locked(th.txn, th.request))
      else if (e.RefuseLocked? && th.Locked?) || (e.PromptRaised? && th.Prompting?) then
        Put(w.(desk := w.desk.(locked := false)), e.t, Leaving(th.txn, th.request, false, e.reply, 0))
      else if e.OpenPrompt? && th.Locked? then Put(w, e.t, Prompting(th.txn, th.request))
      else if e.Remember? && (th.Prompting? || th.Locked?) then RememberAct(w, e.t, e.reply)
      else if e.Unlock? && th.Told? then
        Put(w.(desk := w.desk.(locked := false)), e.t, Leaving(th.txn, th.request, true, th.reply, th.since))
      else if e.Release? && th.Leaving? then
        Put(w.(desk := AfterEnd(w.desk, th.txn, None)), e.t, Replied(th.txn, th.request, FirstResult(th.reply)))
      else w
  }

  // ----- the lock and the tables, over every run

  ghost predicate DistinctDone(done: seq<Done>) {
    |done| <= TXN_KEEP && forall i, j :: 0 <= i < j < |done| ==> done[i].txn != done[j].txn
  }

  /** The result has `age` newer ones behind it. */
  predicate Aging(done: seq<Done>, age: nat, d: Done) {
    age < |done| && done[|done| - 1 - age] == d
  }

  /** The result is remembered, with at most `age` newer ones behind it. */
  ghost predicate KeptWithin(done: seq<Done>, age: nat, d: Done) {
    exists k: nat :: k <= age && Aging(done, k, d)
  }

  ghost predicate OneLockHolder(w: World) {
    && (forall t, u ::
          (t in w.threads && u in w.threads && HoldsLock(w.threads[t]) && HoldsLock(w.threads[u])) ==> t == u)
    && (w.desk.locked <==> exists t :: t in w.threads && HoldsLock(w.threads[t]))
  }

  /** What every step keeps, whatever the requests do: results of different ids, and one holder of the sign lock. */
  ghost predicate Base(w: World) {
    DistinctDone(w.desk.done) && OneLockHolder(w)
  }

  lemma DistinctFind(done: seq<Done>, i: nat)
    requires DistinctDone(done) && i < |done|
    ensures Knows(done, done[i].txn) && Find(done, done[i].txn) == Some(done[i])
  {
    assert Knows(done, done[i].txn);
    var d := Find(done, done[i].txn).value;
    var j :| 0 <= j < |done| && done[j] == d;
  }

  lemma FoundAt(d: Desk, age: nat, kept: Done, request: Request)
    requires DistinctDone(d.done) && Aging(d.done, age, kept)
    ensures Knows(d.done, kept.txn)
    ensures BeginAnswer(d, kept.txn, request) == if request == kept.request then FirstResult(kept.reply) else Reused
  {
    DistinctFind(d.done, |d.done| - 1 - age);
  }

  lemma PushedUnknown(done: seq<Done>, d: Done)
    requires !Knows(done, d.txn) && |done| <= TXN_KEEP
    ensures Pushed(done, d) == if |done| < TXN_KEEP then done + [d] else done[1..] + [d]
  {
    WithoutUnknown(done, d.txn);
  }

  lemma {:induction false} WithoutFacts(done: seq<Done>, txn: Txn)
    requires forall i, j :: 0 <= i < j < |done| ==> done[i].txn != done[j].txn
    ensures |Without(done, txn)| <= |done|
    ensures forall d :: d in Without(done, txn) ==> d in done && d.txn != txn
    ensures forall i, j :: 0 <= i < j < |Without(done, txn)| ==> Without(done, txn)[i].txn != Without(done, txn)[j].txn
  {
    if done != [] {
      var rest := done[1..];
      WithoutFacts(rest, txn);
      assert forall d :: d in rest ==> d in done && d.txn != done[0].txn;
      var w := Without(rest, txn);
      assert forall i :: 0 <= i < |w| ==> w[i] in w;
    }
  }

  /** Taking an id out only brings the results of others nearer to the newest. */
  lemma {:induction false} WithoutAging(done: seq<Done>, txn: Txn, age: nat, d: Done) returns (nearer: nat)
    requires Aging(done, age, d) && d.txn != txn
    ensures nearer <= age && Aging(Without(done, txn), nearer, d)
  {
    var rest := done[1..];
    if age == |done| - 1 {
      nearer := |Without(rest, txn)|;
      WithoutShrinks(rest, txn);
    } else {
      nearer := WithoutAging(rest, txn, age, d);
    }
  }

  lemma {:induction false} WithoutShrinks(done: seq<Done>, txn: Txn)
    ensures |Without(done, txn)| <= |done|
  {
    if done != [] {
      WithoutShrinks(done[1..], txn);
    }
  }

  lemma PushedDistinct(done: seq<Done>, d: Done)
    requires DistinctDone(done)
    ensures DistinctDone(Pushed(done, d)) && Aging(Pushed(done, d), 0, d)
    ensures forall x :: Knows(Pushed(done, d), x) ==> x == d.txn || Knows(done, x)
  {
    WithoutFacts(done, d.txn);
    var kept, p := Without(done, d.txn), Pushed(done, d);
    assert forall i :: 0 <= i < |kept| ==> kept[i] in kept;
    hide Without;
    forall x | Knows(p, x) ensures x == d.txn || Knows(done, x) {
      var i :| 0 <= i < |p| && p[i].txn == x;
      assert p[i] == d || p[i] in kept;
    }
  }

  /** Remembering a result ages the others by one at most, and pushes out none with fewer than 63 newer. */
  lemma PushedAges(done: seq<Done>, d: Done, age: nat, e: Done) returns (older: nat)
    requires DistinctDone(done) && Aging(done, age, e) && e.txn != d.txn && age + 1 < TXN_KEEP
    ensures older <= age + 1 && Aging(Pushed(done, d), older, e)
  {
    WithoutShrinks(done, d.txn);
    var nearer := WithoutAging(done, d.txn, age, e);
    hide Without;
    older := nearer + 1;
  }

  lemma AgedKeepsRoles(th: Thread)
    ensures Holder(Aged(th)) == Holder(th) && HoldsLock(Aged(th)) == HoldsLock(th) && Settling(Aged(th)) == Settling(th)
    ensures Aged(th).txn == th.txn && Aged(th).request == th.request
  {
  }

  /** One thread moves, and the lock with it. */
  lemma LockMoves(w: World, w': World, t: nat)
    requires OneLockHolder(w) && t in w.threads && w'.threads.Keys == w.threads.Keys
    requires forall u :: u in w.threads && u != t ==> HoldsLock(w'.threads[u]) == HoldsLock(w.threads[u])
    requires HoldsLock(w'.threads[t]) != HoldsLock(w.threads[t]) <==> w'.desk.locked != w.desk.locked
    requires HoldsLock(w'.threads[t]) ==> w'.desk.locked
    ensures OneLockHolder(w')
  {
    if w'.desk.locked && !HoldsLock(w'.threads[t]) {
      var a :| a in w.threads && HoldsLock(w.threads[a]);
      assert a != t && HoldsLock(w'.threads[a]);
    }
  }

  lemma StepKeepsLock(w: World, e: Event)
    requires OneLockHolder(w)
    ensures OneLockHolder(After(w, e))
  {
    hide BeginAnswer, Pushed, Knows;
    var w' := After(w, e);
    if e.Arrive? {
      if w.desk.locked && e.t !in w.threads {
        var a :| a in w.threads && HoldsLock(w.threads[a]);
        assert HoldsLock(w'.threads[a]);
      }
    } else if e.t in w.threads {
      assert HoldsLock(w.threads[e.t]) ==> w.desk.locked;
      hide OneLockHolder;
      LockMoves(w, w', e.t);
    }
  }

  /** Every step, with no other hypothesis. */
  lemma StepKeepsBase(w: World, e: Event)
    requires Base(w)
    ensures Base(After(w, e))
  {
    StepKeepsLock(w, e);
    DoneAfter(w, e);
    hide After, OneLockHolder, Pushed, DistinctDone;
    if Pushes(w, e) {
      PushedDistinct(w.desk.done, Done(w.threads[e.t].txn, w.desk.inflight[w.threads[e.t].txn], e.reply));
    }
  }

  /** The event remembers a result. */
  predicate Remembers(w: World, e: Event) {
    e.Remember? && e.t in w.threads && (w.threads[e.t].Prompting? || w.threads[e.t].Locked?)
  }

  predicate Pushes(w: World, e: Event) {
    Remembers(w, e) && w.threads[e.t].txn in w.desk.inflight
  }

  /** What a step does to the remembered results: nothing, or one goes in last. */
  lemma DoneAfter(w: World, e: Event)
    ensures After(w, e).desk.done ==
            if Pushes(w, e) then Pushed(w.desk.done, Done(w.threads[e.t].txn, w.desk.inflight[w.threads[e.t].txn], e.reply))
            else w.desk.done
  {
    hide Pushed, BeginAnswer;
  }

  // ----- one id, while its own results outlive their final release

  /** Fewer than 64 other requests finished since each remembered result of this id, before its final release. */
  ghost predicate InTime(w: World, txn: Txn) {
    forall t :: t in w.threads && w.threads[t].txn == txn && Settling(w.threads[t]) ==> w.threads[t].since < TXN_KEEP
  }

  function ResultOf(th: Thread): Done
    requires Settling(th)
  {
    Done(th.txn, th.request, th.reply)
  }

  /** A settling request's result is remembered, no further from the newest than requests finished since. */
  ghost predicate Remembered(done: seq<Done>, th: Thread)
    requires Settling(th)
  {
    KeptWithin(done, th.since, ResultOf(th))
  }

  /** A thread and the tables: an owner's id is in flight for it and has no result yet; a settling request's result is
      remembered and its id is not in flight. */
  ghost predicate ThreadOk(done: seq<Done>, inflight: map<Txn, Request>, th: Thread) {
    && (Holder(th) ==> th.txn in inflight && inflight[th.txn] == th.request && !Knows(done, th.txn))
    && (Settling(th) ==> Remembered(done, th) && Knows(done, th.txn) && th.txn !in inflight)
  }

  ghost predicate OneOwner(threads: map<nat, Thread>, txn: Txn) {
    forall t, u ::
      (t in threads && u in threads && Holder(threads[t]) && Holder(threads[u])
       && threads[t].txn == txn && threads[u].txn == txn) ==> t == u
  }

  ghost predicate ThreadsOk(w: World, txn: Txn) {
    forall t :: t in w.threads && w.threads[t].txn == txn ==> ThreadOk(w.desk.done, w.desk.inflight, w.threads[t])
  }

  ghost predicate IdOk(w: World, txn: Txn) {
    ThreadsOk(w, txn) && OneOwner(w.threads, txn)
  }

  lemma ThreadOf(w: World, txn: Txn, t: nat)
    requires IdOk(w, txn) && t in w.threads && w.threads[t].txn == txn
    ensures ThreadOk(w.desk.done, w.desk.inflight, w.threads[t])
  {
  }

  /** A finish under another id, seen from this thread: it may push its result out, but not in time. */
  lemma OtherFinishes(d: Desk, other: Txn, reply: Reply, th: Thread)
    requires DistinctDone(d.done) && ThreadOk(d.done, d.inflight, th) && th.txn != other
    requires Settling(th) ==> th.since + 1 < TXN_KEEP
    ensures ThreadOk(AfterEnd(d, other, Some(reply)).done, AfterEnd(d, other, Some(reply)).inflight, Aged(th))
  {
    hide Pushed, DistinctDone, Aging;
    AgedKeepsRoles(th);
    var d' := AfterEnd(d, other, Some(reply));
    if other in d.inflight {
      PushedDistinct(d.done, Done(other, d.inflight[other], reply));
    }
    if Settling(th) {
      var age: nat :| age <= th.since && Aging(d.done, age, ResultOf(th));
      if other in d.inflight {
        var older := PushedAges(d.done, Done(other, d.inflight[other], reply), age, ResultOf(th));
        assert Aging(d'.done, older, ResultOf(Aged(th)));
        AgingKnown(d'.done, older, ResultOf(th));
      } else {
        assert ResultOf(Aged(th)) == ResultOf(th) && age <= Aged(th).since;
        assert Aging(d'.done, age, ResultOf(Aged(th)));
      }
    }
    hide Knows;
  }

  lemma AgingKnown(done: seq<Done>, age: nat, d: Done)
    requires Aging(done, age, d)
    ensures Knows(done, d.txn)
  {
  }

  /** The owner of an id finishes. */
  lemma OwnerFinishes(d: Desk, th: Thread, reply: Reply)
    requires DistinctDone(d.done) && ThreadOk(d.done, d.inflight, th) && Holder(th)
    ensures var d' := AfterEnd(d, th.txn, Some(reply));
            ThreadOk(d'.done, d'.inflight, Told(th.txn, th.request, reply, 0))
  {
    var mine := Done(th.txn, th.request, reply);
    PushedDistinct(d.done, mine);
    AgingKnown(Pushed(d.done, mine), 0, mine);
    assert ResultOf(Told(th.txn, th.request, reply, 0)) == mine && KeptWithin(Pushed(d.done, mine), 0, mine);
    hide Pushed, Knows, DistinctDone;
  }

  lemma RememberKeepsId(w: World, t: nat, reply: Reply, txn: Txn)
    requires DistinctDone(w.desk.done) && IdOk(w, txn) && t in w.threads
    requires w.threads[t].Prompting? || w.threads[t].Locked?
    requires InTime(RememberAct(w, t, reply), txn)
    ensures IdOk(RememberAct(w, t, reply), txn)
  {
    var w', th := RememberAct(w, t, reply), w.threads[t];
    forall u | u in w'.threads && w'.threads[u].txn == txn ensures ThreadOk(w'.desk.done, w'.desk.inflight, w'.threads[u]) {
      AgedKeepsRoles(w.threads[u]);
      ThreadOf(w, txn, u);
      if th.txn != txn {
        assert Settling(w.threads[u]) ==> w'.threads[u].since < TXN_KEEP;
        OtherFinishes(w.desk, th.txn, reply, w.threads[u]);
      } else {
        ThreadOf(w, txn, t);
        if u == t {
          OwnerFinishes(w.desk, th, reply);
        } else {
          assert !Holder(w.threads[u]) && !Settling(w.threads[u]);
        }
      }
    }
    hide ThreadOk, AfterEnd;
    forall u | u in w.threads ensures u != t ==> Holder(w'.threads[u]) == Holder(w.threads[u]) {
      AgedKeepsRoles(w.threads[u]);
    }
    assert forall u :: u in w.threads ==> w'.threads[u].txn == w.threads[u].txn;
  }

  /** One thread moves, the rest stay, and the tables treat those of the id as they did. */
  lemma OneMovedKeepsId(w: World, w': World, t: nat, txn: Txn)
    requires IdOk(w, txn) && t in w.threads && w'.threads.Keys == w.threads.Keys
    requires forall u :: u in w.threads && u != t ==> w'.threads[u] == w.threads[u]
    requires w'.threads[t].txn == w.threads[t].txn
    requires forall u :: u in w.threads && u != t && w.threads[u].txn == txn ==>
               ThreadOk(w'.desk.done, w'.desk.inflight, w.threads[u])
    requires w.threads[t].txn == txn ==> ThreadOk(w'.desk.done, w'.desk.inflight, w'.threads[t])
    requires Holder(w'.threads[t]) && !Holder(w.threads[t]) ==> w.threads[t].txn !in w.desk.inflight
    ensures IdOk(w', txn)
  {
    forall u | u in w.threads && w.threads[u].txn == txn && Holder(w.threads[u]) ensures txn in w.desk.inflight {
      ThreadOf(w, txn, u);
    }
    hide ThreadOk;
  }

  lemma LookKeepsId(w: World, t: nat, txn: Txn)
    requires IdOk(w, txn) && t in w.threads && w.threads[t].Waiting?
    ensures IdOk(LookAct(w, t), txn)
  {
    var w' := LookAct(w, t);
    forall u | u in w.threads && w.threads[u].txn == txn ensures ThreadOk(w'.desk.done, w'.desk.inflight, w.threads[u]) {
      ThreadOf(w, txn, u);
    }
    hide IdOk, Remembered;
    OneMovedKeepsId(w, w', t, txn);
  }

  lemma ReleaseKeepsId(w: World, t: nat, txn: Txn)
    requires IdOk(w, txn) && t in w.threads && w.threads[t].Leaving?
    ensures IdOk(After(w, Release(t)), txn)
  {
    var w', th := After(w, Release(t)), w.threads[t];
    forall u | u in w.threads && u != t && w.threads[u].txn == txn
      ensures ThreadOk(w'.desk.done, w'.desk.inflight, w.threads[u])
    {
      ThreadOf(w, txn, u);
      if th.txn == txn {
        ThreadOf(w, txn, t);
        assert Holder(w.threads[u]) ==> !Holder(th);
      }
    }
    hide IdOk, Knows, Remembered;
    OneMovedKeepsId(w, w', t, txn);
  }

  /** The other steps of a thread leave the tables alone. */
  lemma QuietKeepsId(w: World, e: Event, txn: Txn)
    requires IdOk(w, txn) && e.t in w.threads && !e.Arrive? && !e.Look? && !e.Remember? && !e.Release?
    ensures IdOk(After(w, e), txn)
  {
    forall u | u in w.threads && w.threads[u].txn == txn ensures ThreadOk(w.desk.done, w.desk.inflight, w.threads[u]) {
      ThreadOf(w, txn, u);
    }
    hide IdOk, Knows, KeptWithin;
    OneMovedKeepsId(w, After(w, e), e.t, txn);
  }

  /** Every step keeps an id in order, while its own remembered results outlive their final release; whatever the requests
      under other ids do. */
  lemma StepKeepsId(w: World, e: Event, txn: Txn)
    requires Base(w) && IdOk(w, txn) && InTime(After(w, e), txn)
    ensures IdOk(After(w, e), txn)
  {
    hide InTime, LookAct, RememberAct, ThreadOk;
    if e.Arrive? {
      assert e.t !in w.threads ==> ThreadOk(w.desk.done, w.desk.inflight, Waiting(e.txn, e.request)) by {
        WaitingIsOk(w.desk, e.txn, e.request);
      }
    } else if e.t in w.threads {
      hide IdOk;
      if e.Look? {
        if w.threads[e.t].Waiting? { LookKeepsId(w, e.t, txn); }
      } else if e.Remember? {
        if w.threads[e.t].Prompting? || w.threads[e.t].Locked? { RememberKeepsId(w, e.t, e.reply, txn); }
      } else if e.Release? {
        if w.threads[e.t].Leaving? { ReleaseKeepsId(w, e.t, txn); }
      } else {
        QuietKeepsId(w, e, txn);
      }
    }
  }

  lemma WaitingIsOk(d: Desk, txn: Txn, request: Request)
    ensures ThreadOk(d.done, d.inflight, Waiting(txn, request))
  {
  }

  // ----- runs

  function Run(w: World, events: seq<Event>): World {
    if events == [] then w else After(Run(w, events[..|events| - 1]), events[|events| - 1])
  }

  const IDLE: World := World(Desk([], map[], false), map[])

  lemma {:induction false} RunKeepsBase(events: seq<Event>)
    ensures Base(Run(IDLE, events))
    decreases |events|
  {
    hide After;
    if events == [] {
      IdleIsOk(0);
    } else {
      RunKeepsBase(events[..|events| - 1]);
      StepKeepsBase(Run(IDLE, events[..|events| - 1]), events[|events| - 1]);
    }
  }

  lemma IdleIsOk(txn: Txn)
    ensures Base(IDLE) && IdOk(IDLE, txn)
  {
  }

  /** Every world of the run is in time for this id. */
  ghost predicate RunInTime(events: seq<Event>, txn: Txn) {
    forall n :: 0 <= n <= |events| ==> InTime(Run(IDLE, events[..n]), txn)
  }

  lemma PrefixInTime(events: seq<Event>, n: nat, txn: Txn)
    requires RunInTime(events, txn) && n <= |events|
    ensures RunInTime(events[..n], txn)
  {
    var part := events[..n];
    forall k | 0 <= k <= |part| ensures InTime(Run(IDLE, part[..k]), txn) {
      assert part[..k] == events[..k];
    }
  }

  lemma {:induction false} RunKeepsId(events: seq<Event>, txn: Txn)
    requires RunInTime(events, txn)
    ensures Base(Run(IDLE, events)) && IdOk(Run(IDLE, events), txn)
    decreases |events|
  {
    hide After, Base, IdOk, InTime;
    RunKeepsBase(events);
    if events == [] {
      IdleIsOk(txn);
    } else {
      var n := |events| - 1;
      PrefixInTime(events, n, txn);
      RunKeepsId(events[..n], txn);
      assert events[..|events|] == events;
      StepKeepsId(Run(IDLE, events[..n]), events[n], txn);
    }
  }

  ghost predicate OwnsId(w: World, t: nat, txn: Txn) {
    t in w.threads && Holder(w.threads[t]) && w.threads[t].txn == txn
  }

  ghost predicate PromptOpen(w: World, t: nat) {
    t in w.threads && w.threads[t].Prompting?
  }

  /** Over every interleaving at most one signing prompt is open, and one request holds the sign lock. */
  lemma AtMostOnePrompt(events: seq<Event>)
    ensures var w := Run(IDLE, events);
            && (forall t, u :: PromptOpen(w, t) && PromptOpen(w, u) ==> t == u)
            && OneLockHolder(w)
  {
    RunKeepsBase(events);
    hide Run, DistinctDone;
  }

  /** Over any interleaving in which fewer than 64 other requests finish between each remembered result of this id and its
      final release, the id has at most one owner. */
  lemma AtMostOneOwner(events: seq<Event>, txn: Txn)
    requires RunInTime(events, txn)
    ensures forall t, u :: OwnsId(Run(IDLE, events), t, txn) && OwnsId(Run(IDLE, events), u, txn) ==> t == u
  {
    RunKeepsId(events, txn);
    hide Run, Base, ThreadsOk;
  }

  /** And the id is then spoken for: a look by a request that is not the owner gets the first result or waits when it is
      the same request, and is refused when it is another. */
  lemma LookIsSpokenFor(events: seq<Event>, t: nat, txn: Txn, request: Request)
    requires RunInTime(events, txn)
    requires t in Run(IDLE, events).threads && Run(IDLE, events).threads[t].txn == txn
    requires Holder(Run(IDLE, events).threads[t]) || Settling(Run(IDLE, events).threads[t])
    ensures var w := Run(IDLE, events);
            var answer := BeginAnswer(w.desk, txn, request);
            && !answer.Owned?
            && (request != w.threads[t].request ==> answer == Reused)
            && (request == w.threads[t].request ==>
                  answer == if Settling(w.threads[t]) then FirstResult(w.threads[t].reply) else InFlight)
  {
    RunKeepsId(events, txn);
    var w := Run(IDLE, events);
    ThreadOf(w, txn, t);
    hide Run;
    if Settling(w.threads[t]) {
      var age: nat :| age <= w.threads[t].since && Aging(w.desk.done, age, ResultOf(w.threads[t]));
      FoundAt(w.desk, age, ResultOf(w.threads[t]), request);
    }
  }

  // ----- a remembered result over a run

  /** How many results the events remember. */
  function RememberedBy(w: World, events: seq<Event>): nat {
    if events == [] then 0
    else
      var n := |events| - 1;
      RememberedBy(w, events[..n]) + if Remembers(Run(w, events[..n]), events[n]) then 1 else 0
  }

  lemma RunFrom(events: seq<Event>, n: nat, txn: Txn)
    requires n < |events| && RunInTime(events, txn)
    ensures RunInTime(events[..n], txn) && RunInTime(events[..n + 1], txn)
    ensures Base(Run(IDLE, events[..n])) && IdOk(Run(IDLE, events[..n]), txn)
    ensures Run(IDLE, events[..n + 1]) == After(Run(IDLE, events[..n]), events[n])
  {
    hide After, Base, IdOk, RunInTime;
    PrefixInTime(events, n, txn);
    PrefixInTime(events, n + 1, txn);
    assert events[..n + 1][..n] == events[..n];
    RunKeepsId(events[..n], txn);
  }

  /** A remembered result of an id in time is never replaced: it ages by one at most for each result remembered since, and is
      kept until 64 are newer. */
  lemma {:induction false} ResultOnlyAges(events: seq<Event>, k: nat, age: nat, d: Done)
    requires RunInTime(events, d.txn) && k <= |events| && KeptWithin(Run(IDLE, events[..k]).desk.done, age, d)
    ensures var newer := age + RememberedBy(Run(IDLE, events[..k]), events[k..]);
            newer < TXN_KEEP ==> KeptWithin(Run(IDLE, events).desk.done, newer, d)
    decreases |events|
  {
    hide After, Base, IdOk, RunInTime, KeptWithin, Remembers, Run;
    if k == |events| {
      assert events[..k] == events && events[k..] == [];
    } else {
      var n := |events| - 1;
      RememberedSplit(events, k);
      hide RememberedBy;
      RunFrom(events, n, d.txn);
      assert events[..n][..k] == events[..k] && events[..n + 1] == events;
      ResultOnlyAges(events[..n], k, age, d);
      StepAges(Run(IDLE, events[..n]), events[n], age + RememberedBy(Run(IDLE, events[..k]), events[..n][k..]), d);
    }
  }

  lemma StepAges(w: World, e: Event, age: nat, d: Done)
    requires Base(w) && IdOk(w, d.txn)
    ensures var newer := age + if Remembers(w, e) then 1 else 0;
            newer < TXN_KEEP && KeptWithin(w.desk.done, age, d) ==> KeptWithin(After(w, e).desk.done, newer, d)
  {
    DoneAfter(w, e);
    hide After, Pushed, Aging, DistinctDone;
    if KeptWithin(w.desk.done, age, d) && age + 1 < TXN_KEEP && Pushes(w, e) {
      var k: nat :| k <= age && Aging(w.desk.done, k, d);
      AgingKnown(w.desk.done, k, d);
      assert w.threads[e.t].txn == d.txn ==> false by {
        if w.threads[e.t].txn == d.txn { ThreadOf(w, d.txn, e.t); }
      }
      hide IdOk, OneLockHolder, Knows;
      var older := PushedAges(w.desk.done, Done(w.threads[e.t].txn, w.desk.inflight[w.threads[e.t].txn], e.reply), k, d);
    }
  }

  lemma RememberedSplit(events: seq<Event>, k: nat)
    requires k < |events|
    ensures var n, w := |events| - 1, Run(IDLE, events[..k]);
            RememberedBy(w, events[k..]) == RememberedBy(w, events[..n][k..])
                                            + if Remembers(Run(IDLE, events[..n]), events[n]) then 1 else 0
  {
    var n := |events| - 1;
    assert events[k..][..n - k] == events[..n][k..];
    RunOn(IDLE, events[..k], events[..n][k..]);
    assert events[..k] + events[..n][k..] == events[..n];
  }

  lemma {:induction false} RunOn(w: World, a: seq<Event>, b: seq<Event>)
    ensures Run(w, a + b) == Run(Run(w, a), b)
    decreases |b|
  {
    hide After;
    if b == [] {
      assert a + b == a;
    } else {
      var n := |b| - 1;
      RunOn(w, a, b[..n]);
      assert (a + b)[..|a + b| - 1] == a + b[..n];
    }
  }

  /** A request's result, remembered at step `k`, answers every look under its id until 64 newer results push it out:
      the same request again gets it, another is refused. */
  lemma RetryGetsFirstResult(events: seq<Event>, k: nat, request: Request)
    requires k < |events| && Remembers(Run(IDLE, events[..k]), events[k])
    requires RunInTime(events, Run(IDLE, events[..k]).threads[events[k].t].txn)
    requires RememberedBy(Run(IDLE, events[..k + 1]), events[k + 1..]) < TXN_KEEP
    ensures var th := Run(IDLE, events[..k]).threads[events[k].t];
            BeginAnswer(Run(IDLE, events).desk, th.txn, request) ==
            if request == th.request then FirstResult(events[k].reply) else Reused
  {
    hide Run, RememberedBy, RunInTime, After, BeginAnswer, Knows, IdOk, OneLockHolder, DistinctDone, Aging, Pushed;
    var w := Run(IDLE, events[..k]);
    var th := w.threads[events[k].t];
    var d := Done(th.txn, th.request, events[k].reply);
    RunFrom(events, k, th.txn);
    ThreadOf(w, th.txn, events[k].t);
    DoneAfter(w, events[k]);
    PushedDistinct(w.desk.done, d);
    assert KeptWithin(Run(IDLE, events[..k + 1]).desk.done, 0, d);
    ResultOnlyAges(events, k + 1, 0, d);
    RunKeepsId(events, th.txn);
    var desk := Run(IDLE, events).desk;
    var age: nat :| Aging(desk.done, age, d);
    FoundAt(desk, age, d, request);
  }

  // ----- the condition is exact

  /** Where the condition fails, so does the property: from any world in which a request still owes its final release
      but its result is forgotten, five steps give its id two owners. */
  lemma ForgottenResultSplitsOwner(w: World, a: nat, b: nat, c: nat, request: Request)
    requires a in w.threads && w.threads[a].Leaving? && w.threads[a].kept
    requires var txn := w.threads[a].txn; !Knows(w.desk.done, txn) && txn !in w.desk.inflight
    requires b !in w.threads && c !in w.threads && b != c
    ensures var txn := w.threads[a].txn;
            var w' := Run(w, [Arrive(b, txn, request), Look(b), Release(a), Arrive(c, txn, request), Look(c)]);
            OwnsId(w', b, txn) && OwnsId(w', c, txn)
  {
    hide Knows;
    var txn, leaving := w.threads[a].txn, w.threads[a];
    var events := [Arrive(b, txn, request), Look(b), Release(a), Arrive(c, txn, request), Look(c)];
    var w1 := After(w, events[0]);
    var w2 := After(w1, events[1]);
    assert w2.threads[b] == Owner(txn, request) && w2.threads[a] == leaving;
    var w3 := After(w2, events[2]);
    assert txn !in w3.desk.inflight && w3.desk.done == w.desk.done && w3.threads[b] == Owner(txn, request);
    var w4 := After(w3, events[3]);
    var w5 := After(w4, events[4]);
    assert w5.threads[b] == Owner(txn, request) && w5.threads[c] == Owner(txn, request);
    RunFive(w, events);
  }

  /** And it does fail: where its result is the oldest of the 64 remembered, the next result forgets a request that still
      owes its final release. */
  lemma SixtyFourthForgets(w: World, t: nat, reply: Reply, a: nat)
    requires Base(w) && t in w.threads && (w.threads[t].Prompting? || w.threads[t].Locked?)
    requires a in w.threads && Settling(w.threads[a]) && IdOk(w, w.threads[t].txn) && IdOk(w, w.threads[a].txn)
    requires |w.desk.done| == TXN_KEEP && w.desk.done[0].txn == w.threads[a].txn
    ensures var w' := RememberAct(w, t, reply);
            && a in w'.threads && w'.threads[a].Leaving? && w'.threads[a].kept && w'.threads[a].txn == w.threads[a].txn
            && !Knows(w'.desk.done, w.threads[a].txn) && w.threads[a].txn !in w'.desk.inflight
  {
    var done, th, settling := w.desk.done, w.threads[t], w.threads[a];
    var d := Done(th.txn, th.request, reply);
    ThreadOf(w, th.txn, t);
    ThreadOf(w, settling.txn, a);
    PushedUnknown(done, d);
    assert Knows(done, settling.txn);
    forall j | 0 <= j < |Pushed(done, d)| ensures Pushed(done, d)[j].txn != settling.txn {
      assert j < |done| - 1 ==> Pushed(done, d)[j] == done[j + 1];
    }
    hide ThreadOk, IdOk;
  }

  // ----- a run from idle on which it fails

  /** Request `n` from its arrival to its final release. */
  function Served(n: nat): seq<Event> {
    [Arrive(n, n, 0), Look(n), TryLock(n, 0), OpenPrompt(n), Remember(n, 0), Unlock(n), Release(n)]
  }

  /** Request 0 up to its final release, then `n` others served whole. */
  function ServedBehind(n: nat): seq<Event> {
    if n == 0 then Served(0)[..6] else ServedBehind(n - 1) + Served(n)
  }

  /** The world then: request 0 leaving with its result `n` back, the others replied, the last 64 results remembered. */
  ghost predicate Behind(w: World, n: nat) {
    && w.desk.inflight == map[] && !w.desk.locked
    && (forall t: nat :: t in w.threads <==> t <= n)
    && w.threads[0] == Leaving(0, 0, true, 0, n)
    && (forall t :: 1 <= t <= n ==> w.threads[t].Replied?)
    && |w.desk.done| == (if n < TXN_KEEP then n + 1 else TXN_KEEP)
    && forall i :: 0 <= i < |w.desk.done| ==> w.desk.done[i] == Done(i + n + 1 - |w.desk.done|, 0, 0)
  }

  lemma NotKnown(done: seq<Done>, txn: Txn)
    requires forall i :: 0 <= i < |done| ==> done[i].txn != txn
    ensures !Knows(done, txn)
  {
  }

  lemma RunSeven(w: World, e: seq<Event>)
    requires |e| == 7
    ensures Run(w, e) == After(After(After(After(After(After(After(w, e[0]), e[1]), e[2]), e[3]), e[4]), e[5]), e[6])
    ensures Run(w, e[..6]) == After(After(After(After(After(After(w, e[0]), e[1]), e[2]), e[3]), e[4]), e[5])
  {
    RunFive(w, e[..5]);
    hide After;
    assert e[..6][..5] == e[..5];
  }

  function AllAged(threads: map<nat, Thread>): map<nat, Thread> {
    map u | u in threads :: Aged(threads[u])
  }

  lemma UpToPrompt(w: World, t: nat)
    requires w.desk.inflight == map[] && !w.desk.locked && t !in w.threads && !Knows(w.desk.done, t)
    ensures var e := Served(t);
            After(After(After(After(w, e[0]), e[1]), e[2]), e[3])
            == World(Desk(w.desk.done, map[t := 0], true), w.threads[t := Prompting(t, 0)])
  {
    hide Knows;
    var e := Served(t);
    var w1 := After(w, e[0]);
    assert w1 == World(w.desk, w.threads[t := Waiting(t, 0)]);
    var w2 := After(w1, e[1]);
    assert w2 == World(Desk(w.desk.done, map[t := 0], false), w.threads[t := Owner(t, 0)]);
    var w3 := After(w2, e[2]);
    assert w3 == World(Desk(w.desk.done, map[t := 0], true), w.threads[t := Locked(t, 0)]);
  }

  lemma FromPrompt(threads: map<nat, Thread>, done: seq<Done>, t: nat)
    requires t !in threads
    ensures var e := Served(t);
            var start := World(Desk(done, map[t := 0], true), threads[t := Prompting(t, 0)]);
            var done' := Pushed(done, Done(t, 0, 0));
            && After(After(start, e[4]), e[5])
               == World(Desk(done', map[], false), AllAged(threads)[t := Leaving(t, 0, true, 0, 0)])
            && After(After(After(start, e[4]), e[5]), e[6])
               == World(Desk(done', map[], false), AllAged(threads)[t := Replied(t, 0, FirstResult(0))])
  {
    hide Pushed, BeginAnswer;
    var e := Served(t);
    var start := World(Desk(done, map[t := 0], true), threads[t := Prompting(t, 0)]);
    var done', aged := Pushed(done, Done(t, 0, 0)), AllAged(threads);
    assert map[t := 0] - {t} == map[];
    assert After(start, e[4]) == World(Desk(done', map[], true), aged[t := Told(t, 0, 0, 0)]);
    hide AllAged;
    var w5 := World(Desk(done', map[], true), aged[t := Told(t, 0, 0, 0)]);
    assert After(w5, e[5]) == World(Desk(done', map[], false), aged[t := Leaving(t, 0, true, 0, 0)]);
    var w6 := World(Desk(done', map[], false), aged[t := Leaving(t, 0, true, 0, 0)]);
    var none: map<Txn, Request> := map[];
    assert none - {t} == none;
    assert After(w6, e[6]) == World(Desk(done', none, false), aged[t := Replied(t, 0, FirstResult(0))]);
  }

  /** A request under a new id is served whole: its result goes in, the settling ones age. */
  lemma ServedWhole(w: World, t: nat)
    requires w.desk.inflight == map[] && !w.desk.locked && t !in w.threads && !Knows(w.desk.done, t)
    ensures var done' := Pushed(w.desk.done, Done(t, 0, 0));
            && Run(w, Served(t)[..6]) == World(Desk(done', map[], false), AllAged(w.threads)[t := Leaving(t, 0, true, 0, 0)])
            && Run(w, Served(t)) == World(Desk(done', map[], false), AllAged(w.threads)[t := Replied(t, 0, FirstResult(0))])
  {
    UpToPrompt(w, t);
    FromPrompt(w.threads, w.desk.done, t);
    RunSeven(w, Served(t));
    hide After, Run, Pushed, Knows;
  }

  lemma OneServed(w: World, n: nat)
    requires Behind(w, n)
    ensures Behind(Run(w, Served(n + 1)), n + 1)
  {
    hide Run, Pushed, Knows;
    var t, done := n + 1, w.desk.done;
    NotKnown(done, t);
    ServedWhole(w, t);
    PushedUnknown(done, Done(t, 0, 0));
    AgedBehind(w.threads, n);
    var w' := Run(w, Served(t));
    PushedBehind(done, n);
    hide AllAged, Served;
    assert w'.threads[0] == AllAged(w.threads)[0];
  }

  lemma AgedBehind(threads: map<nat, Thread>, n: nat)
    requires forall t: nat :: t in threads <==> t <= n
    requires threads[0] == Leaving(0, 0, true, 0, n) && forall t :: 1 <= t <= n ==> threads[t].Replied?
    ensures forall t: nat :: t in AllAged(threads) <==> t <= n
    ensures AllAged(threads)[0] == Leaving(0, 0, true, 0, n + 1)
    ensures forall t :: 1 <= t <= n ==> AllAged(threads)[t].Replied?
  {
  }

  lemma PushedBehind(done: seq<Done>, n: nat)
    requires |done| == if n < TXN_KEEP then n + 1 else TXN_KEEP
    requires forall i :: 0 <= i < |done| ==> done[i] == Done(i + n + 1 - |done|, 0, 0)
    ensures var pushed := if |done| < TXN_KEEP then done + [Done(n + 1, 0, 0)] else done[1..] + [Done(n + 1, 0, 0)];
            && |pushed| == (if n + 1 < TXN_KEEP then n + 2 else TXN_KEEP)
            && forall i :: 0 <= i < |pushed| ==> pushed[i] == Done(i + n + 2 - |pushed|, 0, 0)
  {
  }

  lemma FirstLeaves()
    ensures Behind(Run(IDLE, ServedBehind(0)), 0)
  {
    hide Run, Pushed, Knows;
    NotKnown([], 0);
    ServedWhole(IDLE, 0);
    PushedUnknown([], Done(0, 0, 0));
    assert AllAged(IDLE.threads) == map[];
    assert ServedBehind(0) == Served(0)[..6];
    hide ServedBehind, Served;
    var w := Run(IDLE, ServedBehind(0));
    assert w == World(Desk([] + [Done(0, 0, 0)], map[], false), map[][0 := Leaving(0, 0, true, 0, 0)]);
    assert w.desk.done == [Done(0, 0, 0)];
    assert forall t: nat :: t in w.threads <==> t <= 0;
    assert w.threads[0] == Leaving(0, 0, true, 0, 0);
    assert forall i :: 0 <= i < |w.desk.done| ==> w.desk.done[i] == Done(i, 0, 0);
  }

  lemma {:induction false} AllServedBehind(n: nat)
    ensures Behind(Run(IDLE, ServedBehind(n)), n)
  {
    if n == 0 {
      FirstLeaves();
    } else {
      AllServedBehind(n - 1);
      OneServed(Run(IDLE, ServedBehind(n - 1)), n - 1);
      RunOn(IDLE, ServedBehind(n - 1), Served(n));
    }
  }

  /** The bound is exact, on a run from idle: with 63 others served between a request's result and its final release its
      id still answers with that result; with 64, it has been forgotten, and two requests come to own the id. */
  lemma SixtyFourServedSplitOwner(request: Request)
    ensures BeginAnswer(Run(IDLE, ServedBehind(TXN_KEEP - 1)).desk, 0, 0) == FirstResult(0)
    ensures var end := [Arrive(100, 0, request), Look(100), Release(0), Arrive(101, 0, request), Look(101)];
            var w := Run(IDLE, ServedBehind(TXN_KEEP) + end);
            OwnsId(w, 100, 0) && OwnsId(w, 101, 0)
  {
    hide ServedBehind;
    AllServedBehind(TXN_KEEP - 1);
    AllServedBehind(TXN_KEEP);
    var w63, w64 := Run(IDLE, ServedBehind(TXN_KEEP - 1)), Run(IDLE, ServedBehind(TXN_KEEP));
    assert Aging(w63.desk.done, TXN_KEEP - 1, Done(0, 0, 0));
    RunKeepsBase(ServedBehind(TXN_KEEP - 1));
    FoundAt(w63.desk, TXN_KEEP - 1, Done(0, 0, 0), 0);
    NotKnown(w64.desk.done, 0);
    ForgottenResultSplitsOwner(w64, 0, 100, 101, request);
    RunOn(IDLE, ServedBehind(TXN_KEEP),
          [Arrive(100, 0, request), Look(100), Release(0), Arrive(101, 0, request), Look(101)]);
  }

  lemma RunFive(w: World, e: seq<Event>)
    requires |e| == 5
    ensures Run(w, e) == After(After(After(After(After(w, e[0]), e[1]), e[2]), e[3]), e[4])
  {
    hide After;
    assert e[..4][..3] == e[..3] && e[..3][..2] == e[..2] && e[..2][..1] == e[..1] && e[..1][..0] == [];
    assert Run(w, e[..0]) == w;
    assert Run(w, e[..1]) == After(w, e[0]);
    assert Run(w, e[..2]) == After(After(w, e[0]), e[1]);
    assert Run(w, e[..3]) == After(After(After(w, e[0]), e[1]), e[2]);
    assert Run(w, e[..4]) == After(After(After(After(w, e[0]), e[1]), e[2]), e[3]);
  }
}
