/** Every interleaving of the band's writes: what a number and an answer mean over whole runs (levain/band_view.py,
    `_number`, `allocate`, `record_view`, `answer_text`). */
module BandRuns {
  import opened Wrappers
  import opened BandNumbers
  import opened BandStore

  /** A render whose view is not recorded yet, or a surface's answer planned and not written yet. */
  datatype Session =
    | Rendered(viewer: nat, seenThrough: int, open: seq<nat>, gen: int)
    | Planned(viewer: nat, store: nat, id: nat, seenThrough: int, entries: seq<Entry>)

  datatype World = World(db: Db, sessions: map<nat, Session>)

  datatype Event =
    | Number(keys: seq<Key>)
    | Allocate(refs: seq<nat>)
    | Other(statement: Statement)
    | File(ref: nat, q: QuestionRow)
    | Render(sid: nat, viewer: nat, seenThrough: int, keys: seq<Key>, gen: int)
    | Record(sid: nat, dedupe: bool)
    | PlanText(sid: nat, viewer: nat, store: nat, id: nat, text: string, extras: map<nat, Plan.Item>, plan: Plan.Plan)
    | Write(sid: nat)
    | Drop(sid: nat)   // a crash, or a lock still busy at the deadline

  /** The numbers a render shows: those its items have. */
  ghost function NumbersOf(d: Db, keys: seq<Key>): (open: seq<nat>)
    ensures forall n :: n in open ==> d.table.Some? && n in d.table.value.rows && d.table.value.rows[n] in keys
    ensures forall k :: k in keys && d.table.Some? && k in d.table.value.rows.Values ==> NumberOf(d.table.value, k) in open
  {
    if keys == [] then []
    else
      (if d.table.Some? && keys[0] in d.table.value.rows.Values then [NumberOf(d.table.value, keys[0])] else [])
      + NumbersOf(d, keys[1..])
  }

  /** What a plan holds until it is written. */
  function PlanSession(d: Db, e: Event): Session
    requires e.PlanText? && OwnView(d, e.viewer, e.id)
  {
    var view := d.views[e.id - 1];
    Planned(e.viewer, e.store, e.id, view.seenThrough, EntriesOf(d, view, e.plan.actions))
  }

  ghost predicate Plans(w: World, e: Event) {
    && e.PlanText? && e.sid !in w.sessions && OwnView(w.db, e.viewer, e.id)
    && PlanFits(w.db, w.db.views[e.id - 1], e.text, e.extras, e.plan)
  }

  ghost function DbAfter(w: World, e: Event): Db {
    if e.Number? then NumberedDb(w.db, e.keys)
    else if e.Allocate? then if e.refs == [] then w.db else NumberedDb(w.db, HostKeys(e.refs))
    else if e.Other? then StatedDb(w.db, e.statement)
    else if e.File? then FiledDb(w.db, e.ref, e.q)
    else if e.Record? && e.sid in w.sessions && w.sessions[e.sid].Rendered? then
      var s := w.sessions[e.sid];
      ViewedDb(w.db, s.viewer, s.seenThrough, s.open, s.gen, e.dedupe)
    else if e.Write? && e.sid in w.sessions && w.sessions[e.sid].Planned? then
      var s := w.sessions[e.sid];
      WrittenDb(w.db, s.entries, s.viewer, s.store, s.id, s.seenThrough)
    else w.db
  }

  ghost function SessionsAfter(w: World, e: Event): map<nat, Session> {
    if e.Render? then
      if e.sid in w.sessions then w.sessions
      else w.sessions[e.sid := Rendered(e.viewer, e.seenThrough, NumbersOf(w.db, e.keys), e.gen)]
    else if Plans(w, e) then w.sessions[e.sid := PlanSession(w.db, e)]
    else if e.Record? || e.Write? || e.Drop? then w.sessions - {e.sid}
    else w.sessions
  }

  ghost function After(w: World, e: Event): World {
    World(DbAfter(w, e), SessionsAfter(w, e))
  }

  // ---- What every event keeps ----

  ghost predicate SessionRight(d: Db, s: Session) {
    match s
    case Rendered(_, _, open, _) => forall n :: n in open ==> d.table.Some? && n in d.table.value.rows
    case Planned(viewer, _, id, seenThrough, entries) =>
      && OwnView(d, viewer, id) && seenThrough == d.views[id - 1].seenThrough
      && forall e :: e in entries ==> EntryRight(d, d.views[id - 1], e)
  }

  ghost predicate WorldValid(w: World) {
    DbValid(w.db) && forall sid :: sid in w.sessions ==> SessionRight(w.db, w.sessions[sid])
  }

  lemma TableGrows(d: Db, keys: seq<Key>)
    requires DbValid(d)
    ensures DbValid(NumberedDb(d, keys)) && DbGrows(d, NumberedDb(d, keys))
  {
    NumberedExact(Ready(d.table), keys);
    assert d.views[..|d.views|] == d.views;
    if Numbered(Ready(d.table), keys).Some? {
      ListedStays(d, NumberedDb(d, keys));
    }
  }

  lemma StatementGrows(d: Db, s: Statement)
    requires DbValid(d)
    ensures DbValid(StatedDb(d, s)) && DbGrows(d, StatedDb(d, s))
  {
    assert d.views[..|d.views|] == d.views;
    if d.table.Some? && Execute(d.table.value, s).Some? {
      StatementsOnlyGrow(d.table.value, s);
      ListedStays(d, StatedDb(d, s));
    }
  }

  lemma WriteGrows(d: Db, entries: seq<Entry>, viewer: nat, store: nat, id: nat, seenThrough: int)
    requires DbValid(d)
    ensures var d' := WrittenDb(d, entries, viewer, store, id, seenThrough); DbValid(d') && DbGrows(d, d')
  {
    assert d.views[..|d.views|] == d.views;
    RecordedExact(d.answers, d.questions, entries, viewer, seenThrough);
    ListedStays(d, WrittenDb(d, entries, viewer, store, id, seenThrough));
  }

  lemma DbKeeps(w: World, e: Event)
    requires WorldValid(w)
    ensures DbValid(DbAfter(w, e)) && DbGrows(w.db, DbAfter(w, e))
  {
    assert w.db.views[..|w.db.views|] == w.db.views;
    if e.Number? {
      TableGrows(w.db, e.keys);
    } else if e.Allocate? {
      TableGrows(w.db, HostKeys(e.refs));
    } else if e.Other? {
      StatementGrows(w.db, e.statement);
    } else if e.File? {
      ListedStays(w.db, FiledDb(w.db, e.ref, e.q));
    } else if e.Record? && e.sid in w.sessions && w.sessions[e.sid].Rendered? {
      var s := w.sessions[e.sid];
      ViewGrows(w.db, s.viewer, s.seenThrough, s.open, s.gen, e.dedupe);
    } else if e.Write? && e.sid in w.sessions && w.sessions[e.sid].Planned? {
      var s := w.sessions[e.sid];
      WriteGrows(w.db, s.entries, s.viewer, s.store, s.id, s.seenThrough);
    }
  }

  lemma SessionStaysRight(a: Db, b: Db, s: Session)
    requires SessionRight(a, s) && DbGrows(a, b)
    ensures SessionRight(b, s)
  {
    if s.Planned? {
      assert b.views[..|a.views|][s.id - 1] == b.views[s.id - 1];
      forall e | e in s.entries ensures EntryRight(b, b.views[s.id - 1], e) {
        EntryStaysRight(a, b, s.viewer, s.id, e);
      }
    }
  }

  lemma PlanIsRight(w: World, e: Event)
    requires Plans(w, e)
    ensures SessionRight(w.db, PlanSession(w.db, e))
  {
    hide PlanFits, EntryRight, EntriesOf, EntryFor, RefOf, Fits;
    PlannedRight(w.db, w.db.views[e.id - 1], e.text, e.extras, e.plan);
  }

  /** Every event keeps the store valid and growing, and every render and plan right. */
  lemma EventKeeps(w: World, e: Event)
    requires WorldValid(w)
    ensures WorldValid(After(w, e)) && DbGrows(w.db, After(w, e).db)
  {
    DbKeeps(w, e);
    hide DbAfter, DbGrows, DbValid, SessionRight, PlanSession, Plans;
    forall sid | sid in After(w, e).sessions ensures SessionRight(After(w, e).db, After(w, e).sessions[sid]) {
      if sid in w.sessions && After(w, e).sessions[sid] == w.sessions[sid] {
        SessionStaysRight(w.db, After(w, e).db, w.sessions[sid]);
      } else if e.Render? {
        RenderIsRight(w.db, After(w, e).db, e);
      } else {
        PlanIsRight(w, e);
        SessionStaysRight(w.db, After(w, e).db, PlanSession(w.db, e));
      }
    }
  }

  lemma RenderIsRight(d: Db, d': Db, e: Event)
    requires e.Render? && DbGrows(d, d')
    ensures SessionRight(d', Rendered(e.viewer, e.seenThrough, NumbersOf(d, e.keys), e.gen))
  {
  }

  // ---- Runs ----

  ghost function Run(w: World, events: seq<Event>): (r: World)
    requires WorldValid(w)
    ensures WorldValid(r)
  {
    if events == [] then w
    else
      var n := |events| - 1;
      EventKeeps(Run(w, events[..n]), events[n]);
      After(Run(w, events[..n]), events[n])
  }

  lemma {:induction false} RunGrows(w: World, events: seq<Event>, i: nat)
    requires WorldValid(w) && i <= |events|
    ensures DbGrows(Run(w, events[..i]).db, Run(w, events).db)
    decreases |events|
  {
    hide DbGrows, After, WorldValid;
    if i == |events| {
      assert events[..i] == events;
      GrowsToItself(Run(w, events).db);
    } else {
      var n := |events| - 1;
      RunGrows(w, events[..n], i);
      assert events[..n][..i] == events[..i];
      EventKeeps(Run(w, events[..n]), events[n]);
      DbGrowsOn(Run(w, events[..i]).db, Run(w, events[..n]).db, Run(w, events).db);
    }
  }

  lemma GrowsToItself(d: Db)
    ensures DbGrows(d, d)
  {
    assert d.views[..|d.views|] == d.views;
  }

  lemma GrowsBetween(w: World, events: seq<Event>, i: nat, j: nat)
    requires WorldValid(w) && i <= j <= |events|
    ensures DbGrows(Run(w, events[..i]).db, Run(w, events[..j]).db)
  {
    RunGrows(w, events[..j], i);
    assert events[..j][..i] == events[..i];
  }

  /** The number is the item's in this store: no other number is, and it is no other item's. */
  ghost predicate NumberIs(d: Db, n: nat, key: Key) {
    && d.table.Some? && n in d.table.value.rows
    && forall m :: m in d.table.value.rows ==> (m == n <==> d.table.value.rows[m] == key)
  }

  lemma NamedIs(d: Db, n: nat, key: Key)
    requires DbValid(d) && d.table.Some? && Names(d.table.value, n, key)
    ensures NumberIs(d, n, key)
  {
  }

  lemma DbOfRun(w: World, events: seq<Event>)
    requires WorldValid(w)
    ensures DbValid(Run(w, events).db)
  {
  }

  /** Over any interleaving of renders, numberings, allocations, statements of other code, view writes and answers, a
      number once given to an item is that item's only number ever after, and no other item's. */
  lemma NumbersAreFinal(w: World, events: seq<Event>, i: nat, n: nat, key: Key)
    requires WorldValid(w) && i <= |events|
    requires var d := Run(w, events[..i]).db; d.table.Some? && Names(d.table.value, n, key)
    ensures forall j :: i <= j <= |events| ==> NumberIs(Run(w, events[..j]).db, n, key)
  {
    hide Run, NumberIs, Valid;
    forall j | i <= j <= |events| ensures NumberIs(Run(w, events[..j]).db, n, key) {
      GrowsBetween(w, events, i, j);
      DbOfRun(w, events[..j]);
      NamedIs(Run(w, events[..j]).db, n, key);
    }
  }

  /** Where runs start: a store with no table yet, or one whose table was made before hosts were a source. */
  lemma StoresStart(t: Table, closed: set<nat>, questions: map<nat, QuestionRow>, answers: map<nat, Answered>, id: nat)
    requires Valid(t) && !t.hosts
    ensures WorldValid(World(Db(None, {}, [], map[], map[], None), map[]))
    ensures WorldValid(World(Db(Some(t), closed, [], questions, answers, Some(id)), map[]))
  {
  }

  // ---- Answers ----

  /** The event's write adds an answer to `r`. */
  ghost predicate AnswersNow(w: World, e: Event, r: nat) {
    && e.Write? && e.sid in w.sessions && w.sessions[e.sid].Planned?
    && StillNewest(w.db, w.sessions[e.sid].viewer, w.sessions[e.sid].store, w.sessions[e.sid].id)
    && r !in w.db.answers
  }

  lemma OnlyWritesAnswer(w: World, e: Event, r: nat)
    requires r !in w.db.answers && r in After(w, e).db.answers
    ensures AnswersNow(w, e, r)
    ensures var s := w.sessions[e.sid];
            ComesFrom(After(w, e).db.answers[r], r, s.entries, s.viewer, s.seenThrough)
  {
    if e.Write? && e.sid in w.sessions && w.sessions[e.sid].Planned? {
      var s := w.sessions[e.sid];
      RecordedExact(w.db.answers, w.db.questions, s.entries, s.viewer, s.seenThrough);
    }
    hide StillNewest, ComesFrom, Recorded;
  }

  /** An answer a run added was added by the write of a planned session. */
  lemma {:induction false} AnswerWasWritten(w: World, events: seq<Event>, r: nat) returns (k: nat)
    requires WorldValid(w) && r !in w.db.answers && r in Run(w, events).db.answers
    ensures k < |events| && AnswersNow(Run(w, events[..k]), events[k], r)
    ensures var s := Run(w, events[..k]).sessions[events[k].sid];
            ComesFrom(Run(w, events).db.answers[r], r, s.entries, s.viewer, s.seenThrough)
    decreases |events|
  {
    hide After, AnswersNow, ComesFrom, WorldValid;
    assert events != [];
    var n := |events| - 1;
    if r in Run(w, events[..n]).db.answers {
      k := AnswerWasWritten(w, events[..n], r);
      assert events[..n][..k] == events[..k] && events[..n][k] == events[k];
      RunGrows(w, events, n);
    } else {
      k := n;
      OnlyWritesAnswer(Run(w, events[..n]), events[n], r);
    }
  }

  /** A planned session was made by a plan of the run. */
  lemma {:induction false} SessionWasPlanned(w: World, events: seq<Event>, sid: nat) returns (j: nat)
    requires WorldValid(w) && w.sessions == map[]
    requires sid in Run(w, events).sessions && Run(w, events).sessions[sid].Planned?
    ensures j < |events| && Plans(Run(w, events[..j]), events[j]) && events[j].sid == sid
    ensures Run(w, events).sessions[sid] == PlanSession(Run(w, events[..j]).db, events[j])
    decreases |events|
  {
    hide DbAfter, WorldValid, PlanSession, Plans;
    assert events != [];
    var n := |events| - 1;
    var before := Run(w, events[..n]);
    if sid in before.sessions && before.sessions[sid] == Run(w, events).sessions[sid] {
      j := SessionWasPlanned(w, events[..n], sid);
      assert events[..n][..j] == events[..j] && events[..n][j] == events[j];
    } else {
      j := n;
      NewPlanned(before, events[n], sid);
    }
  }

  lemma NewPlanned(w: World, e: Event, sid: nat)
    requires sid in After(w, e).sessions && After(w, e).sessions[sid].Planned?
    requires sid !in w.sessions || w.sessions[sid] != After(w, e).sessions[sid]
    ensures Plans(w, e) && e.sid == sid && After(w, e).sessions[sid] == PlanSession(w.db, e)
  {
    hide DbAfter, PlanFits;
  }

  /** The view still stands as it was shown, and the number it lists is the question's and no other item's. */
  ghost predicate ShownAs(d: Db, viewer: nat, id: nat, view: BandView, n: nat, ref: nat) {
    OwnView(d, viewer, id) ==> d.views[id - 1] == view && NumberIs(d, n, Key(Question, ref))
  }

  /** Over any interleaving: every answer a run added was written (at `k`) while the view it named was its viewer's newest
      in that store, from a plan (at `j`) of the whole text against that view, as an entry the text makes due on a number
      the view lists; and in every state of the run in which that view stands, when it was shown, when the answer was
      planned, when it was written and after, that number is the answered question's and no other item's. */
  lemma AnswerLandsOnTheViewed(w: World, events: seq<Event>, r: nat) returns (j: nat, k: nat, e: Entry)
    requires WorldValid(w) && w.sessions == map[] && r !in w.db.answers && r in Run(w, events).db.answers
    ensures j < k < |events| && events[j].PlanText? && events[k] == Write(events[j].sid)
    ensures var p, dj, dk := events[j], Run(w, events[..j]).db, Run(w, events[..k]).db;
            && OwnView(dj, p.viewer, p.id) && PlanFits(dj, dj.views[p.id - 1], p.text, p.extras, p.plan)
            && e in EntriesOf(dj, dj.views[p.id - 1], p.plan.actions)
            && RecordedBy(dj, dj.views[p.id - 1], p.extras, p.text, e)
            && e.n in dj.views[p.id - 1].open && e.n <= dj.views[p.id - 1].seenThrough && e.ref == r
            && StillNewest(dk, p.viewer, p.store, p.id) && r !in dk.answers
            && Run(w, events).db.answers[r] == Answered(e.given, p.viewer, dj.views[p.id - 1].seenThrough, e.note)
            && forall l :: 0 <= l <= |events| ==>
                 ShownAs(Run(w, events[..l]).db, p.viewer, p.id, dj.views[p.id - 1], e.n, r)
  {
    hide Run, PlanFits, StillNewest, EntriesOf, EntryRight, WorldValid, RecordedBy, ShownAs;
    k := AnswerWasWritten(w, events, r);
    var s := Run(w, events[..k]).sessions[events[k].sid];
    j := SessionWasPlanned(w, events[..k], events[k].sid);
    assert events[..k][..j] == events[..j] && events[..k][j] == events[j];
    var p, dj := events[j], Run(w, events[..j]).db;
    var i :| 0 <= i < |s.entries| && Makes(s.entries[i], r, Run(w, events).db.answers[r], s.viewer, s.seenThrough);
    e := s.entries[i];
    assert e in s.entries;
    PlannedEntry(dj, dj.views[p.id - 1], p, e);
    ViewedAllAlong(w, events, j, p.viewer, p.id, e);
    RightIsListed(dj, dj.views[p.id - 1], e);
  }

  lemma PlannedEntry(d: Db, view: BandView, p: Event, e: Entry)
    requires p.PlanText? && PlanFits(d, view, p.text, p.extras, p.plan) && e in EntriesOf(d, view, p.plan.actions)
    ensures EntryRight(d, view, e) && RecordedBy(d, view, p.extras, p.text, e)
  {
    hide PlanFits, EntriesOf, EntryRight, RecordedBy;
    PlannedRight(d, view, p.text, p.extras, p.plan);
    PlanRecords(d, view, p.extras, p.text, p.plan);
  }

  lemma RightIsListed(d: Db, view: BandView, e: Entry)
    requires EntryRight(d, view, e)
    ensures e.n in view.open && e.n <= view.seenThrough && d.table.Some? && Names(d.table.value, e.n, Key(Question, e.ref))
  {
  }

  lemma ViewedAllAlong(w: World, events: seq<Event>, j: nat, viewer: nat, id: nat, e: Entry)
    requires WorldValid(w) && j <= |events|
    requires OwnView(Run(w, events[..j]).db, viewer, id)
    requires EntryRight(Run(w, events[..j]).db, Run(w, events[..j]).db.views[id - 1], e)
    ensures forall l :: 0 <= l <= |events| ==>
              ShownAs(Run(w, events[..l]).db, viewer, id, Run(w, events[..j]).db.views[id - 1], e.n, e.ref)
  {
    hide Run, NumberIs, Valid, EntryRight, DbGrows, DbValid, Names;
    var dj := Run(w, events[..j]).db;
    RightIsListed(dj, dj.views[id - 1], e);
    NumbersAreFinal(w, events, j, e.n, Key(Question, e.ref));
    forall l | 0 <= l <= |events| ensures ShownAs(Run(w, events[..l]).db, viewer, id, dj.views[id - 1], e.n, e.ref) {
      var dl := Run(w, events[..l]).db;
      DbOfRun(w, events[..l]);
      if l <= j {
        GrowsBetween(w, events, l, j);
        if OwnView(dl, viewer, id) {
          EntryWasShown(dl, dj, viewer, id, e);
          NamedIs(dl, e.n, Key(Question, e.ref));
        }
      } else {
        GrowsBetween(w, events, j, l);
        EntryStaysRight(dj, dl, viewer, id, e);
      }
    }
  }
}
