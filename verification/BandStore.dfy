/** The question store as the band writes it: numbers, views, and answers bound to a view
    (levain/band_view.py, `_number`, `allocate`, `record_view`, `answer_text`). A write transaction is one call. */
module BandStore {
  import opened Wrappers
  import opened Strings
  import opened BandNumbers
  import Plan = ShorthandPlan
  import Message = ShorthandMessage
  import Lexer = ShorthandLexer

  /** What a viewer was shown. Its id is its place in the append-only list of views, counted from 1. */
  datatype BandView = BandView(viewer: nat, seenThrough: int, open: seq<nat>, store: nat, gen: int)

  /** A question's row, which is never changed: whether a signing request is linked, its options, its recommendation. */
  datatype QuestionRow = QuestionRow(linked: bool, options: seq<nat>, rec: Option<nat>)

  datatype Given = OptionKey(key: nat) | Words(text: string)

  datatype Answered = Answered(given: Given, viewer: nat, seenThrough: int, note: Option<string>)

  datatype Db = Db(table: Option<Table>, closed: set<nat>, views: seq<BandView>, questions: map<nat, QuestionRow>,
                   answers: map<nat, Answered>, storeId: Option<nat>)

  // ---- The database over time ----

  ghost predicate DbValid(d: Db) {
    && (d.table.Some? ==> Valid(d.table.value))
    && (forall i :: 0 <= i < |d.views| ==> Listed(d, d.views[i]))
  }

  /** Every number a view lists has a row. */
  ghost predicate Listed(d: Db, v: BandView) {
    forall n :: n in v.open ==> d.table.Some? && n in d.table.value.rows
  }

  /** Nothing given, shown or answered is lost or changed. */
  ghost predicate DbGrows(a: Db, b: Db) {
    && (a.table.Some? ==> b.table.Some? && Grows(a.table.value, b.table.value))
    && |a.views| <= |b.views| && b.views[..|a.views|] == a.views
    && (forall r :: r in a.questions ==> r in b.questions && b.questions[r] == a.questions[r])
    && (forall r :: r in a.answers ==> r in b.answers && b.answers[r] == a.answers[r])
    && (a.storeId.Some? ==> b.storeId == a.storeId)
  }

  lemma DbGrowsOn(a: Db, b: Db, c: Db)
    requires DbGrows(a, b) && DbGrows(b, c)
    ensures DbGrows(a, c)
  {
    assert c.views[..|a.views|] == c.views[..|b.views|][..|a.views|];
  }

  // ---- Views ----

  /** The id of a viewer's newest view: of greatest generation, the latest written among equals. */
  function Newest(views: seq<BandView>, viewer: nat): (id: Option<nat>)
    ensures id.Some? ==> && 1 <= id.value <= |views| && views[id.value - 1].viewer == viewer
                         && forall i :: 0 <= i < |views| && views[i].viewer == viewer ==>
                              || views[i].gen < views[id.value - 1].gen
                              || (views[i].gen == views[id.value - 1].gen && i < id.value)
    ensures id.None? ==> forall i :: 0 <= i < |views| ==> views[i].viewer != viewer
  {
    if views == [] then None
    else
      var k := |views| - 1;
      var before := Newest(views[..k], viewer);
      if views[k].viewer == viewer && (before.None? || views[before.value - 1].gen <= views[k].gen) then Some(k + 1)
      else before
  }

  /** What a surface's answer names is still what its viewer was last shown, in this store. */
  predicate StillNewest(d: Db, viewer: nat, store: nat, id: nat) {
    d.storeId == Some(store) && Newest(d.views, viewer) == Some(id)
  }

  predicate OwnView(d: Db, viewer: nat, id: nat) {
    1 <= id <= |d.views| && d.views[id - 1].viewer == viewer
  }

  // ---- What a view's numbers are ----

  function Position(options: seq<nat>, key: nat): (i: nat)
    ensures i <= |options| && (i < |options| ==> options[i] == key)
  {
    if options == [] || options[0] == key then 0 else 1 + Position(options[1..], key)
  }

  function InfoOf(q: QuestionRow): Plan.Item {
    var most := if |q.options| < 6 then |q.options| else 6;
    var rec := if q.rec.None? || Position(q.options, q.rec.value) >= most then None
               else Some('a' + Position(q.options, q.rec.value) as char);
    Plan.Item(!q.linked, most, rec)
  }

  /** The questions behind a view's numbers. */
  function QuestionsOf(d: Db, view: BandView): map<nat, nat> {
    if d.table.None? then map[]
    else
      var rows := d.table.value.rows;
      map n | n in view.open && n in rows && rows[n].source.Question? && rows[n].ref in d.questions :: rows[n].ref
  }

  function Infos(d: Db, view: BandView, extras: map<nat, Plan.Item>): map<nat, Plan.Item> {
    var asked := QuestionsOf(d, view);
    (map n | n in asked :: InfoOf(d.questions[asked[n]])) + extras
  }

  function AsShown(v: BandView): Plan.View {
    Plan.View(v.seenThrough, v.open, v.store)
  }

  /** An answer to be written: the number it was given under, the question, and what is said. */
  datatype Entry = Entry(n: nat, ref: nat, given: Given, note: Option<string>)

  predicate Offers(q: QuestionRow, given: Given) {
    given.OptionKey? ==> given.key in q.options
  }

  /** An entry answers the question its number names, with an option at the letter taken or with words. */
  ghost predicate EntryRight(d: Db, view: BandView, e: Entry) {
    && e.n in view.open && e.n <= view.seenThrough
    && d.table.Some? && Names(d.table.value, e.n, Key(Question, e.ref))
    && e.ref in d.questions && !d.questions[e.ref].linked && Offers(d.questions[e.ref], e.given)
  }

  /** A right entry stays right as the store grows. */
  lemma EntryStaysRight(a: Db, b: Db, viewer: nat, id: nat, e: Entry)
    requires DbGrows(a, b) && OwnView(a, viewer, id) && EntryRight(a, a.views[id - 1], e)
    ensures OwnView(b, viewer, id) && b.views[id - 1] == a.views[id - 1] && EntryRight(b, b.views[id - 1], e)
  {
    assert b.views[..|a.views|][id - 1] == b.views[id - 1];
  }

  /** A right entry was right of any earlier state in which its view already stood. */
  lemma EntryWasShown(a: Db, b: Db, viewer: nat, id: nat, e: Entry)
    requires DbValid(a) && DbGrows(a, b) && OwnView(a, viewer, id) && EntryRight(b, b.views[id - 1], e)
    ensures b.views[id - 1] == a.views[id - 1] && a.table.Some? && Names(a.table.value, e.n, Key(Question, e.ref))
  {
    assert b.views[..|a.views|][id - 1] == b.views[id - 1];
    assert Listed(a, a.views[id - 1]);
    assert e.n in a.table.value.rows;
  }

  // ---- Answers ----

  function Place(letter: char): int {
    letter as int - 'a' as int
  }

  /** The entries to write: the planned answers whose question was open when they were planned. */
  function EntriesOf(d: Db, view: BandView, actions: seq<Plan.Action>): seq<Entry> {
    if actions == [] then []
    else EntriesOf(d, view, actions[..|actions| - 1]) + Filed(d, view, actions[|actions| - 1])
  }

  /** The entry of one planned answer, if it has one. */
  function Filed(d: Db, view: BandView, a: Plan.Action): seq<Entry> {
    if a.n !in QuestionsOf(d, view) || QuestionsOf(d, view)[a.n] in d.answers then []
    else
      var ref := QuestionsOf(d, view)[a.n];
      var q := d.questions[ref];
      if a.value.TextOf? then [Entry(a.n, ref, Words(a.value.text), a.note)]
      else if 0 <= Place(a.value.letter) < |q.options|
      then [Entry(a.n, ref, OptionKey(q.options[Place(a.value.letter)]), a.note)]
      else []
  }

  /** Each entry written once, in turn; one whose question is gone, answered or does not offer it is left out. */
  function Recorded(answers: map<nat, Answered>, questions: map<nat, QuestionRow>, entries: seq<Entry>, viewer: nat,
                    seenThrough: int): map<nat, Answered>
  {
    if entries == [] then answers
    else
      var e := entries[|entries| - 1];
      var before := Recorded(answers, questions, entries[..|entries| - 1], viewer, seenThrough);
      After(before, questions, e, viewer, seenThrough)
  }

  function After(answers: map<nat, Answered>, questions: map<nat, QuestionRow>, e: Entry, viewer: nat, seenThrough: int)
    : map<nat, Answered>
  {
    if Writes(answers, questions, e) then answers[e.ref := Answered(e.given, viewer, seenThrough, e.note)] else answers
  }

  lemma RecordedNext(answers: map<nat, Answered>, questions: map<nat, QuestionRow>, entries: seq<Entry>, viewer: nat,
                     seenThrough: int, i: nat)
    requires i < |entries|
    ensures Recorded(answers, questions, entries[..i + 1], viewer, seenThrough) ==
            After(Recorded(answers, questions, entries[..i], viewer, seenThrough), questions, entries[i], viewer, seenThrough)
  {
    assert entries[..i + 1][..i] == entries[..i];
  }

  predicate Writes(answers: map<nat, Answered>, questions: map<nat, QuestionRow>, e: Entry) {
    Answerable(questions, e) && e.ref !in answers
  }

  predicate Answerable(questions: map<nat, QuestionRow>, e: Entry) {
    e.ref in questions && Offers(questions[e.ref], e.given)
  }

  predicate Makes(e: Entry, ref: nat, a: Answered, viewer: nat, seenThrough: int) {
    e.ref == ref && a == Answered(e.given, viewer, seenThrough, e.note)
  }

  predicate ComesFrom(a: Answered, ref: nat, entries: seq<Entry>, viewer: nat, seenThrough: int) {
    exists i :: 0 <= i < |entries| && Makes(entries[i], ref, a, viewer, seenThrough)
  }

  /** What a write adds comes from its entries, one each; what was answered stays as it was. */
  lemma {:induction false} RecordedExact(answers: map<nat, Answered>, questions: map<nat, QuestionRow>,
                                         entries: seq<Entry>, viewer: nat, seenThrough: int)
    ensures var after := Recorded(answers, questions, entries, viewer, seenThrough);
            && (forall r :: r in answers ==> r in after && after[r] == answers[r])
            && (forall r :: r in after && r !in answers ==>
                  && ComesFrom(after[r], r, entries, viewer, seenThrough)
                  && r in questions && (after[r].given.OptionKey? ==> after[r].given.key in questions[r].options))
            && (forall i :: 0 <= i < |entries| && Answerable(questions, entries[i]) ==> entries[i].ref in after)
  {
    if entries != [] {
      var k := |entries| - 1;
      RecordedExact(answers, questions, entries[..k], viewer, seenThrough);
      var before := Recorded(answers, questions, entries[..k], viewer, seenThrough);
      forall r | r in before && r !in answers ensures ComesFrom(before[r], r, entries, viewer, seenThrough) {
        assert ComesFrom(before[r], r, entries[..k], viewer, seenThrough);
        var i :| 0 <= i < k && Makes(entries[..k][i], r, before[r], viewer, seenThrough);
        assert Makes(entries[i], r, before[r], viewer, seenThrough);
      }
      forall i | 0 <= i < k && Answerable(questions, entries[i]) ensures entries[i].ref in before {
        assert entries[..k][i] == entries[i];
      }
      assert Makes(entries[k], entries[k].ref,
                   Answered(entries[k].given, viewer, seenThrough, entries[k].note), viewer, seenThrough);
    }
  }

  // ---- The writes, each one transaction ----

  /** Items numbered: the table rebuilt or made if need be; nothing when the numbers run out. */
  function NumberedDb(d: Db, keys: seq<Key>): Db {
    if Numbered(Ready(d.table), keys).Some? then d.(table := Numbered(Ready(d.table), keys)) else d
  }

  /** Any statement of other code on the table. */
  function StatedDb(d: Db, s: Statement): Db {
    if d.table.Some? && Execute(d.table.value, s).Some? then d.(table := Execute(d.table.value, s)) else d
  }

  function FiledDb(d: Db, ref: nat, q: QuestionRow): Db {
    if ref in d.questions then d else d.(questions := d.questions[ref := q])
  }

  /** The viewer's newest view already shows this, and need not be written again. */
  predicate AlreadyShown(d: Db, viewer: nat, seenThrough: int, open: seq<nat>, dedupe: bool) {
    var newest := Newest(d.views, viewer);
    && newest.Some? && Some(d.views[newest.value - 1].store) == d.storeId
    && d.views[newest.value - 1].seenThrough == seenThrough
    && var had := d.views[newest.value - 1].open;
       (open == [] && had == []) || (dedupe && had == Plan.Ascending(open))
  }

  /** A view recorded, unless there is no store id or it is already shown. */
  function ViewedDb(d: Db, viewer: nat, seenThrough: int, open: seq<nat>, gen: int, dedupe: bool): Db {
    if d.storeId.None? || AlreadyShown(d, viewer, seenThrough, open, dedupe) then d
    else d.(views := d.views + [BandView(viewer, seenThrough, Plan.Ascending(open), d.storeId.value, gen)])
  }

  /** A planned answer written: only while its view is still the viewer's newest, in the store it names. */
  function WrittenDb(d: Db, entries: seq<Entry>, viewer: nat, store: nat, id: nat, seenThrough: int): Db {
    if StillNewest(d, viewer, store, id)
    then d.(answers := Recorded(d.answers, d.questions, entries, viewer, seenThrough)) else d
  }

  /** What follows the block of a text. */
  function RestOf(text: string): string {
    var lines := Message.Lines(text);
    var k := Message.BlockLength(lines);
    if k == 0 then text else JoinWith(lines[k..], '\n')
  }

  /** The whole text is band answers. */
  predicate AllAnswers(text: string) {
    Message.BlockLength(Message.Lines(text)) > 0 && Trim(RestOf(text)) == ""
  }

  /** `plan` is what the text plans against the view it names; nothing is planned on the view of another store. */
  ghost predicate PlanFits(d: Db, view: BandView, text: string, extras: map<nat, Plan.Item>, plan: Plan.Plan) {
    && AllAnswers(text) && (forall n :: n in extras ==> !extras[n].information)
    && if d.storeId.Some? && d.storeId.value != view.store then plan.actions == []
       else Plan.Accounts(plan, Plan.Named(BlockOf(text)) + Plan.Swept(BlockOf(text), AsShown(view)), BlockOf(text),
                          AsShown(view), Infos(d, view, extras))
  }

  // ---- The store ----

  datatype StoreError = NumbersRunOut | UnknownSource | StaleBand | NotAnswers | Busy

  /** The table a numbering works on: made if there is none, and admitting hosts. */
  function Ready(t: Option<Table>): Table {
    if t.None? then CREATED else t.value.(hosts := true)
  }

  /** The closings shown of numbers that have no row. */
  function Dangling(closed: set<nat>, rows: map<nat, Key>): set<nat> {
    set n | n in closed && n !in rows
  }

  lemma {:induction false} HasLeast(s: set<nat>, x: nat)
    requires x in s
    ensures exists n :: n in s && forall m :: m in s ==> n <= m
    decreases x
  {
    if y :| y in s && y < x {
      HasLeast(s, y);
    }
  }

  /** All parked rows but those of `left` are back. */
  ghost predicate PutSoFar(parked: map<nat, Key>, mark: Option<nat>, t: Table, left: set<nat>) {
    && Valid(t) && t.hosts && left <= parked.Keys && t.rows == parked - left
    && (t.sequence.Some? ==> mark.Some? && t.sequence.value <= mark.value)
  }

  lemma PutOne(parked: map<nat, Key>, mark: Option<nat>, t: Table, left: set<nat>, n: nat)
    requires Valid(Table(parked, mark, false)) && PutSoFar(parked, mark, t, left) && n in left
    ensures Inserted(t, Some(n), parked[n]).Some?
    ensures PutSoFar(parked, mark, Inserted(t, Some(n), parked[n]).value, left - {n})
  {
    assert forall m :: m in t.rows ==> parked[m] != parked[n];
    InsertedGrows(t, Some(n), parked[n]);
    hide Valid;
    assert (parked - left)[n := parked[n]] == parked - (left - {n});
  }

  /** The parked rows put back in the table just made, in the order of their numbers: none is refused. */
  method PutBack(parked: map<nat, Key>, mark: Option<nat>) returns (t: Table)
    requires Valid(Table(parked, mark, false))
    ensures PutSoFar(parked, mark, t, {}) && t.rows == parked
  {
    t := CREATED;
    var left := parked.Keys;
    assert parked - left == map[];
    while left != {}
      invariant PutSoFar(parked, mark, t, left)
    {
      var some :| some in left;
      HasLeast(left, some);
      var n :| n in left && forall m :: m in left ==> n <= m;
      PutOne(parked, mark, t, left, n);
      hide PutSoFar;
      t := Inserted(t, Some(n), parked[n]).value;
      left := left - {n};
    }
    assert parked - {} == parked;
  }

  /** One item numbered, unless it is, and its number read back. */
  method NumberOne(t: Table, key: Key) returns (n: nat, u: Table)
    requires Valid(t) && t.hosts && (key in t.rows.Values || High(t) < NUMBER_MAX)
    ensures Valid(u) && u.hosts && Grows(t, u) && Names(u, n, key)
    ensures if key in t.rows.Values then u == t else Inserted(t, None, key) == Some(u)
  {
    u := t;
    if key !in t.rows.Values {
      InsertedGrows(t, None, key);
      u := Inserted(t, None, key).value;
    }
    n :| n in u.rows && u.rows[n] == key;
  }

  /** The loop of a numbering: each item in turn, inside the write. */
  method NumberAll(start: Table, keys: seq<Key>) returns (r: Option<(Table, map<Key, nat>)>)
    requires Valid(start) && start.hosts
    ensures r.Some? <==> Numbered(start, keys).Some?
    ensures r.Some? ==> && r.value.0 == Numbered(start, keys).value
                        && (forall k :: k in r.value.1 <==> k in keys)
                        && forall k :: k in r.value.1 ==> Names(r.value.0, r.value.1[k], k)
  {
    hide Inserted, Grows, Names, Valid;
    var got: map<Key, nat> := map[];
    var t := start;
    assert keys[0..] == keys;
    for i := 0 to |keys|
      invariant Valid(t) && t.hosts && Numbered(start, keys) == Numbered(t, keys[i..])
      invariant forall k :: k in got <==> k in keys[..i]
      invariant forall k :: k in got ==> Names(t, got[k], k)
    {
      var key := keys[i];
      assert keys[i..][0] == key && keys[i..][1..] == keys[i + 1..];
      assert keys[..i + 1] == keys[..i] + [key];
      if key !in t.rows.Values && High(t) >= NUMBER_MAX {
        NoneLeft(t, key);
        return None;
      }
      var n, u := NumberOne(t, key);
      NamesStay(t, u);
      t := u;
      got := got[key := n];
    }
    assert keys[..|keys|] == keys;
    return Some((t, got));
  }

  lemma NoneLeft(t: Table, key: Key)
    requires High(t) >= NUMBER_MAX
    ensures Inserted(t, None, key).None?
  {
  }

  /** The loop of an answer's write: each entry in turn, written or left out. */
  method RecordAll(answers: map<nat, Answered>, questions: map<nat, QuestionRow>, entries: seq<Entry>, viewer: nat,
                   seenThrough: int) returns (now: map<nat, Answered>, done: seq<bool>)
    ensures now == Recorded(answers, questions, entries, viewer, seenThrough) && |done| == |entries|
    ensures forall i :: 0 <= i < |entries| ==>
              done[i] == Writes(Recorded(answers, questions, entries[..i], viewer, seenThrough), questions, entries[i])
  {
    now, done := answers, [];
    assert now == Recorded(answers, questions, entries[..0], viewer, seenThrough);
    hide Writes, Recorded;
    for i := 0 to |entries|
      invariant now == Recorded(answers, questions, entries[..i], viewer, seenThrough) && |done| == i
      invariant forall j :: 0 <= j < i ==>
        done[j] == Writes(Recorded(answers, questions, entries[..j], viewer, seenThrough), questions, entries[j])
    {
      RecordedNext(answers, questions, entries, viewer, seenThrough, i);
      var e := entries[i];
      var fits := Writes(now, questions, e);
      if fits {
        now := now[e.ref := Answered(e.given, viewer, seenThrough, e.note)];
      }
      done := done + [fits];
    }
    assert entries[..|entries|] == entries;
  }

  class BandStore {
    var table: Option<Table>
    var closed: set<nat>
    var views: seq<BandView>
    var questions: map<nat, QuestionRow>
    var answers: map<nat, Answered>
    var storeId: Option<nat>

    ghost function State(): Db
      reads this
    {
      Db(table, closed, views, questions, answers, storeId)
    }

    ghost predicate Valid()
      reads this
    {
      DbValid(State())
    }

    /** A table made before hosts were a source is rebuilt: parked, dropped with its sequence entry, made again, its
        rows put back under their numbers and its mark put back. All that changes is what its CHECK admits; no insert
        is refused and the check of references finds none broken. */
    method Migrate() returns (broken: bool)
      requires Valid()
      modifies this`table
      ensures table == if old(table).Some? then Some(old(table).value.(hosts := true)) else None
      ensures !broken
    {
      if table.None? || table.value.hosts {
        return false;
      }
      var mark, parked := table.value.sequence, table.value.rows;
      var before := |Dangling(closed, parked)|;
      var t := PutBack(parked, mark);
      if mark.Some? {
        t := t.(sequence := if t.sequence.Some? && t.sequence.value > mark.value then t.sequence else mark);
      }
      table := Some(t);
      broken := |Dangling(closed, t.rows)| > before;
    }

    /** Every item of `keys` numbered, in one write: its number if it has one, else the next. The lock held, nothing is
        written and nothing returned; the numbers run out, and the write is rolled back whole. */
    method Number(keys: seq<Key>, busy: bool) returns (r: Result<map<Key, nat>, StoreError>)
      requires Valid()
      modifies this`table
      ensures Valid() && DbGrows(old(State()), State())
      ensures State() == if busy then old(State()) else NumberedDb(old(State()), keys)
      ensures busy ==> r == Ok(map[])
      ensures !busy && Numbered(Ready(old(table)), keys).None? ==> r == Err(NumbersRunOut)
      ensures !busy && Numbered(Ready(old(table)), keys).Some? ==>
                && table.Some? && r.Ok?
                && (forall k :: k in r.value <==> k in keys)
                && forall k :: k in r.value ==> Names(table.value, r.value[k], k)
    {
      assert views[..|views|] == views;
      if busy {
        return Ok(map[]);
      }
      var before := table;
      var _ := Migrate();
      if table.None? {
        table := Some(CREATED);
      }
      NumberedExact(table.value, keys);
      var done := NumberAll(table.value, keys);
      if done.None? {
        table := before;
        return Err(NumbersRunOut);
      }
      table := Some(done.value.0);
      ListedStays(old(State()), State());
      return Ok(done.value.1);
    }

    /** Numbers for a caller outside: one source only, each ref once, a ref numbered before keeps its number. */
    method Allocate(source: Source, refs: seq<nat>, busy: bool) returns (r: Result<map<nat, nat>, StoreError>)
      requires Valid()
      modifies this`table
      ensures Valid() && DbGrows(old(State()), State())
      ensures State() == if busy || source != Host || refs == [] then old(State())
                         else NumberedDb(old(State()), HostKeys(refs))
      ensures source != Host ==> r == Err(UnknownSource)
      ensures r.Ok? && !busy ==>
                && (forall x :: x in r.value <==> x in refs)
                && (forall x :: x in r.value ==> table.Some? && Names(table.value, r.value[x], Key(Host, x)))
                && forall x :: x in r.value && old(table).Some? && Key(Host, x) in old(table).value.rows.Values
                               ==> r.value[x] == NumberOf(old(table).value, Key(Host, x))
      ensures r.Ok? && busy ==> r.value == map[]
    {
      assert views[..|views|] == views;
      if source != Host {
        return Err(UnknownSource);
      }
      if refs == [] {
        return Ok(map[]);
      }
      var keys := HostKeys(refs);
      var got := Number(keys, busy);
      if got.Err? {
        return Err(got.error);
      }
      var mine := map x | x in refs && Key(Host, x) in got.value :: got.value[Key(Host, x)];
      if !busy {
        forall x | x in mine && old(table).Some? && Key(Host, x) in old(table).value.rows.Values
          ensures mine[x] == NumberOf(old(table).value, Key(Host, x))
        {
          NumberStays(old(table).value, table.value, Key(Host, x));
        }
      }
      return Ok(mine);
    }

    /** Any statement of other code on the table, its triggers standing. */
    method Statement(s: Statement) returns (done: bool)
      requires Valid() && table.Some?
      modifies this`table
      ensures Valid() && DbGrows(old(State()), State())
      ensures done <==> Execute(old(table).value, s).Some?
      ensures State() == StatedDb(old(State()), s)
    {
      assert views[..|views|] == views;
      var t := Execute(table.value, s);
      if t.Some? {
        StatementsOnlyGrow(table.value, s);
        table := t;
        ListedStays(old(State()), State());
      }
      return t.Some?;
    }

    /** A question filed: a new row, never one over another. */
    method File(ref: nat, q: QuestionRow) returns (done: bool)
      requires Valid()
      modifies this`questions
      ensures Valid() && DbGrows(old(State()), State())
      ensures done <==> ref !in old(questions)
      ensures State() == FiledDb(old(State()), ref, q)
    {
      assert views[..|views|] == views;
      if ref !in questions {
        questions := questions[ref := q];
        ListedStays(old(State()), State());
        return true;
      }
      return false;
    }

    /** What a viewer was just shown, kept: the id it comes back with names a view of this viewer that lists exactly
        that, written now, or the viewer's newest when that already did. */
    method RecordView(viewer: nat, seenThrough: int, open: seq<nat>, gen: int, dedupe: bool, busy: bool)
      returns (id: Option<nat>)
      requires Valid() && (forall n :: n in open ==> table.Some? && n in table.value.rows)
      modifies this`views
      ensures Valid() && DbGrows(old(State()), State())
      ensures id.None? <==> storeId.None? || busy
      ensures State() == if busy then old(State()) else ViewedDb(old(State()), viewer, seenThrough, open, gen, dedupe)
      ensures id.Some? ==> && 1 <= id.value <= |views| && storeId.Some?
                           && var v := views[id.value - 1];
                              v == BandView(viewer, seenThrough, Plan.Ascending(open), storeId.value, v.gen)
    {
      assert views[..|views|] == views;
      if storeId.None? || busy {
        return None;
      }
      var newest := Newest(views, viewer);
      if newest.Some? && views[newest.value - 1].store == storeId.value {
        var had := views[newest.value - 1];
        if open == [] && had.open == [] && had.seenThrough == seenThrough {
          return newest;
        }
        if dedupe && had.open == Plan.Ascending(open) && had.seenThrough == seenThrough {
          return newest;
        }
      }
      views := views + [BandView(viewer, seenThrough, Plan.Ascending(open), storeId.value, gen)];
      ViewGrows(old(State()), viewer, seenThrough, open, gen, dedupe);
      hide DbValid, DbGrows;
      return Some(|views|);
    }

    /** A surface's text, planned from the view it names: every entry answers a question that view lists. */
    method PlanAnswer(text: string, viewer: nat, id: nat, extras: map<nat, Plan.Item>)
      returns (r: Result<seq<Entry>, StoreError>, ghost plan: Plan.Plan)
      requires Valid() && forall n :: n in extras ==> !extras[n].information
      ensures r == Err(StaleBand) <==> !OwnView(State(), viewer, id)
      ensures r.Ok? <==> OwnView(State(), viewer, id) && AllAnswers(text)
      ensures r.Ok? ==> forall e :: e in r.value <==> RecordedBy(State(), views[id - 1], extras, text, e)
      ensures r.Ok? ==> && PlanFits(State(), views[id - 1], text, extras, plan)
                        && Serves(State(), views[id - 1], plan, r.value)
    {
      plan := Plan.Plan([], [], []);
      if id < 1 || id > |views| || views[id - 1].viewer != viewer {
        return Err(StaleBand), plan;
      }
      var view := views[id - 1];
      var d := Db(table, closed, views, questions, answers, storeId);
      var items := Infos(d, view, extras);
      var parsed := Message.Parse(text, Some(AsShown(view)), items, storeId);
      plan := parsed.plan;
      if !parsed.matched || Trim(parsed.rest) != "" {
        return Err(NotAnswers), plan;
      }
      hide Plan.Named, Plan.Swept, Plan.Accounts, EntriesOf, Infos, Message.Lines, Message.BlockLength, Message.BlockEntries,
           RecordedBy, Serves, Valid;
      assert AllAnswers(text) && PlanFits(d, view, text, extras, plan);
      hide PlanFits, AllAnswers, BlockOf, RestOf, AsShown;
      PlannedRight(d, view, text, extras, plan);
      PlanRecords(d, view, extras, text, plan);
      return Ok(EntriesOf(d, view, parsed.plan.actions)), plan;
    }

    /** The write of a planned answer: only while its view is still the viewer's newest, in the store it names. */
    method WriteAnswer(entries: seq<Entry>, viewer: nat, store: nat, id: nat, seenThrough: int, busy: bool)
      returns (r: Result<seq<bool>, StoreError>)
      requires Valid()
      modifies this`answers
      ensures Valid() && DbGrows(old(State()), State())
      ensures r.Ok? <==> !busy && StillNewest(old(State()), viewer, store, id)
      ensures State() == if busy then old(State()) else WrittenDb(old(State()), entries, viewer, store, id, seenThrough)
      ensures r.Err? ==> r.error == if busy then Busy else StaleBand
      ensures r.Ok? ==> && |r.value| == |entries|
                        && forall i :: 0 <= i < |entries| ==>
                             r.value[i] == Writes(Recorded(old(answers), questions, entries[..i], viewer, seenThrough),
                                                  questions, entries[i])
    {
      assert views[..|views|] == views;
      if busy {
        return Err(Busy);
      }
      if storeId != Some(store) || Newest(views, viewer) != Some(id) {
        return Err(StaleBand);
      }
      var now, done := RecordAll(answers, questions, entries, viewer, seenThrough);
      RecordedExact(answers, questions, entries, viewer, seenThrough);
      answers := now;
      ListedStays(old(State()), State());
      return Ok(done);
    }
  }

  /** Each ref once, in the order first given. */
  function HostKeys(refs: seq<nat>): (keys: seq<Key>)
    ensures forall k :: k in keys <==> k.source == Host && k.ref in refs
    ensures forall i, j :: 0 <= i < j < |keys| ==> keys[i] != keys[j]
  {
    if refs == [] then []
    else
      var before := HostKeys(refs[..|refs| - 1]);
      var key := Key(Host, refs[|refs| - 1]);
      if key in before then before else before + [key]
  }

  /** The entries of a message's block. */
  function BlockOf(text: string): seq<Lexer.Raw> {
    var lines := Message.Lines(text);
    Message.BlockEntries(lines[..Message.BlockLength(lines)])
  }

  /** An action on a question of the view, with words or a letter the question has. */
  predicate Fits(d: Db, view: BandView, a: Plan.Action) {
    && a.n in QuestionsOf(d, view) && a.n <= view.seenThrough && !d.questions[QuestionsOf(d, view)[a.n]].linked
    && (a.value.PickOf? ==> 0 <= Place(a.value.letter) < |d.questions[QuestionsOf(d, view)[a.n]].options|)
  }

  /** The entries are right, and every planned answer has its entry or is on a question answered already. */
  ghost predicate Serves(d: Db, view: BandView, plan: Plan.Plan, entries: seq<Entry>) {
    && entries == EntriesOf(d, view, plan.actions)
    && (forall e :: e in entries ==> EntryRight(d, view, e))
    && forall i :: 0 <= i < |plan.actions| ==>
         && Fits(d, view, plan.actions[i])
         && (RefOf(d, view, plan.actions[i]) in d.answers || EntryFor(d, view, plan.actions[i]) in entries)
  }

  /** The question an action answers. */
  function RefOf(d: Db, view: BandView, a: Plan.Action): nat
    requires Fits(d, view, a)
  {
    QuestionsOf(d, view)[a.n]
  }

  /** The entry an action becomes. */
  function EntryFor(d: Db, view: BandView, a: Plan.Action): Entry
    requires Fits(d, view, a)
  {
    var ref := QuestionsOf(d, view)[a.n];
    Entry(a.n, ref,
          if a.value.TextOf? then Words(a.value.text) else OptionKey(d.questions[ref].options[Place(a.value.letter)]),
          a.note)
  }

  lemma ActionsFit(d: Db, view: BandView, extras: map<nat, Plan.Item>, plan: Plan.Plan, raws: seq<Lexer.Raw>)
    requires forall n :: n in extras ==> !extras[n].information
    requires Plan.Accounts(plan, Plan.Named(raws) + Plan.Swept(raws, AsShown(view)), raws, AsShown(view),
                           Infos(d, view, extras))
    ensures forall i :: 0 <= i < |plan.actions| ==> Fits(d, view, plan.actions[i])
  {
    forall i | 0 <= i < |plan.actions| ensures Fits(d, view, plan.actions[i]) {
      var a := plan.actions[i];
      assert Plan.ActionRight(a, raws, AsShown(view), Infos(d, view, extras));
      Plan.ActionIsOffered(a, raws, AsShown(view), Infos(d, view, extras));
      hide Plan.Accounts, Plan.ActionRight, Plan.Named, Plan.Swept, InfoOf;
      var q := d.questions[QuestionsOf(d, view)[a.n]];
      assert Infos(d, view, extras)[a.n] == InfoOf(q);
      InfoLetters(q);
    }
  }

  lemma InfoLetters(q: QuestionRow)
    ensures InfoOf(q).information == !q.linked
    ensures forall l :: Plan.Offered(InfoOf(q), l) || InfoOf(q).rec == Some(l) ==> 0 <= Place(l) < |q.options|
  {
  }

  lemma {:induction false} EntriesRight(d: Db, view: BandView, actions: seq<Plan.Action>)
    requires forall i :: 0 <= i < |actions| ==> Fits(d, view, actions[i])
    ensures forall e :: e in EntriesOf(d, view, actions) ==> EntryRight(d, view, e)
    ensures forall i :: 0 <= i < |actions| && RefOf(d, view, actions[i]) !in d.answers ==>
              EntryFor(d, view, actions[i]) in EntriesOf(d, view, actions)
  {
    if actions != [] {
      var k := |actions| - 1;
      forall i | 0 <= i < k ensures Fits(d, view, actions[..k][i]) {
        assert Fits(d, view, actions[i]);
      }
      EntriesRight(d, view, actions[..k]);
      assert Fits(d, view, actions[k]);
      hide QuestionsOf;
      forall i | 0 <= i < |actions| && RefOf(d, view, actions[i]) !in d.answers
        ensures EntryFor(d, view, actions[i]) in EntriesOf(d, view, actions)
      {
        if i < k {
          assert actions[..k][i] == actions[i];
        }
      }
    }
  }

  /** A plan that fits gives right entries, one for every action on a question not answered yet. */
  lemma PlannedRight(d: Db, view: BandView, text: string, extras: map<nat, Plan.Item>, plan: Plan.Plan)
    requires PlanFits(d, view, text, extras, plan)
    ensures Serves(d, view, plan, EntriesOf(d, view, plan.actions))
  {
    hide Plan.Named, Plan.Swept, Plan.Accounts, AllAnswers, Fits, EntryRight;
    if d.storeId.None? || d.storeId.value == view.store {
      ActionsFit(d, view, extras, plan, BlockOf(text));
    }
    EntriesRight(d, view, plan.actions);
  }

  // ---- What a text records, read off the question rows ----

  /** An entry of the text takes `v` on a question: the letter of one of its first six options; its recommendation, at the
      first of those that is it; or words. */
  ghost predicate Takes(raw: Lexer.Raw, q: QuestionRow, v: Plan.Value) {
    match raw.kind
    case PickKind(letter) => v == Plan.PickOf(letter) && 'a' <= letter <= 'f' && letter as int - 'a' as int < |q.options|
    case RecKind =>
      && v.PickOf? && 'a' <= v.letter <= 'f'
      && var i := v.letter as int - 'a' as int;
      i < |q.options| && q.rec == Some(q.options[i]) && forall j :: 0 <= j < i ==> q.options[j] != q.options[i]
    case TextKind(text) => v == Plan.TextOf(text)
    case SweepKind => false
  }

  /** What taking `v` records: the option at the letter's place, or the words. */
  ghost predicate Records(q: QuestionRow, v: Plan.Value, given: Given) {
    match v
    case PickOf(letter) =>
      && 0 <= letter as int - 'a' as int < |q.options|
      && given == OptionKey(q.options[letter as int - 'a' as int])
    case TextOf(text) => given == Words(text)
  }

  /** The question's recommendation is one of its first six options. */
  ghost predicate RecInReach(q: QuestionRow) {
    exists i :: 0 <= i < 6 && i < |q.options| && q.rec == Some(q.options[i])
  }

  ghost predicate Says(raw: Lexer.Raw, n: nat) {
    raw.kind != Lexer.SweepKind && raw.n == n
  }

  ghost predicate Noted(raw: Lexer.Raw) {
    raw.note.Some? && raw.note.value != ""
  }

  /** The note of the first entry on `n` that says something. */
  ghost predicate NoteOn(raws: seq<Lexer.Raw>, n: nat, note: Option<string>) {
    if note.None? then forall i :: 0 <= i < |raws| && Says(raws[i], n) ==> !Noted(raws[i])
    else exists i: nat :: FirstNotedAt(raws, n, i) && raws[i].note == note
  }

  ghost predicate FirstNotedAt(raws: seq<Lexer.Raw>, n: nat, i: nat) {
    i < |raws| && Says(raws[i], n) && Noted(raws[i]) && forall j :: 0 <= j < i && Says(raws[j], n) ==> !Noted(raws[j])
  }

  ghost predicate AllTake(raws: seq<Lexer.Raw>, q: QuestionRow, n: nat, v: Plan.Value) {
    forall i :: 0 <= i < |raws| && Says(raws[i], n) ==> Takes(raws[i], q, v)
  }

  /** `given` is due on `n`: all the entries on `n` take the one value it records, with the first note among them; or no
      entry is on `n`, and the first sweep takes its recommendation, with that sweep's note. */
  ghost predicate DueOn(raws: seq<Lexer.Raw>, q: QuestionRow, n: nat, given: Given, note: Option<string>) {
    if exists i :: 0 <= i < |raws| && Says(raws[i], n) then
      && NoteOn(raws, n, note)
      && exists v :: Records(q, v, given) && AllTake(raws, q, n, v)
    else
      && RecInReach(q) && given == OptionKey(q.rec.value)
      && exists i :: 0 <= i < |raws| && raws[i].kind == Lexer.SweepKind && raws[i].note == note
                     && forall j :: 0 <= j < i ==> raws[j].kind != Lexer.SweepKind
  }

  /** `n` stands in the view for the question `ref`, which no signing request is linked to. */
  ghost predicate AsksFor(d: Db, view: BandView, extras: map<nat, Plan.Item>, n: nat, ref: nat) {
    && n in view.open && n <= view.seenThrough && n !in extras
    && d.table.Some? && n in d.table.value.rows && d.table.value.rows[n] == Key(Question, ref)
    && ref in d.questions && !d.questions[ref].linked
  }

  lemma {:induction false} PositionIsFirst(options: seq<nat>, key: nat)
    ensures forall j :: 0 <= j < Position(options, key) ==> options[j] != key
  {
    if options != [] && options[0] != key {
      PositionIsFirst(options[1..], key);
      assert forall j :: 0 < j < |options| ==> options[j] == options[1..][j - 1];
    }
  }

  /** What the planner is told of a question lets an entry choose just what it takes. */
  lemma ChoosesIsTakes(raw: Lexer.Raw, q: QuestionRow, v: Plan.Value)
    ensures Plan.Chooses(raw, InfoOf(q), v) <==> Takes(raw, q, v)
  {
    if raw.kind.RecKind? && q.rec.Some? {
      PositionIsFirst(q.options, q.rec.value);
    }
  }

  lemma RecIsInReach(q: QuestionRow)
    ensures InfoOf(q).rec.Some? <==> RecInReach(q)
    ensures RecInReach(q) ==> Records(q, Plan.PickOf(InfoOf(q).rec.value), OptionKey(q.rec.value))
  {
    if q.rec.Some? {
      PositionIsFirst(q.options, q.rec.value);
    }
  }

  /** The entries on `n`, gathered, are those that say it. */
  lemma {:induction false} NamingSays(raws: seq<Lexer.Raw>, n: nat)
    ensures n in Plan.Named(raws) <==> exists i :: 0 <= i < |raws| && Says(raws[i], n)
    ensures forall r :: r in Plan.Naming(raws, n) <==> exists i :: 0 <= i < |raws| && Says(raws[i], n) && raws[i] == r
  {
    if raws != [] {
      var init := raws[..|raws| - 1];
      NamingSays(init, n);
      assert forall i :: 0 <= i < |init| ==> init[i] == raws[i];
    }
  }

  lemma FirstNoteAppends(a: seq<Lexer.Raw>, b: seq<Lexer.Raw>)
    ensures Plan.FirstNote(a + b) == if Plan.FirstNote(a).Some? then Plan.FirstNote(a) else Plan.FirstNote(b)
  {
    if a == [] {
      assert a + b == b;
    } else {
      assert (a + b)[1..] == a[1..] + b;
      FirstNoteAppends(a[1..], b);
    }
  }

  lemma FirstNoteNext(raws: seq<Lexer.Raw>, n: nat)
    requires raws != []
    ensures var init, last := raws[..|raws| - 1], raws[|raws| - 1];
            var note := Plan.FirstNote(Plan.Naming(init, n));
            Plan.FirstNote(Plan.Naming(raws, n)) ==
            if note.Some? then note else if Says(last, n) && Noted(last) then last.note else None
  {
    var init, last := raws[..|raws| - 1], raws[|raws| - 1];
    var named := Plan.Naming(init, n);
    FirstNoteAppends(named, [last]);
    assert named + [] == named;
    assert Plan.FirstNote([last]) == if Noted(last) then last.note else Plan.FirstNote([]);
  }

  lemma {:induction false} FirstNoteIsOn(raws: seq<Lexer.Raw>, n: nat)
    ensures NoteOn(raws, n, Plan.FirstNote(Plan.Naming(raws, n)))
  {
    if raws != [] {
      var k := |raws| - 1;
      var init := raws[..k];
      FirstNoteIsOn(init, n);
      FirstNoteNext(raws, n);
      assert forall i :: 0 <= i < k ==> init[i] == raws[i];
      var note := Plan.FirstNote(Plan.Naming(init, n));
      hide Plan.Naming, Plan.FirstNote, Says, Noted;
      if note.Some? {
        var i: nat :| FirstNotedAt(init, n, i) && init[i].note == note;
        assert FirstNotedAt(raws, n, i);
      } else if Says(raws[k], n) && Noted(raws[k]) {
        assert FirstNotedAt(raws, n, k);
      }
    }
  }

  lemma NoteOnIsOne(raws: seq<Lexer.Raw>, n: nat, a: Option<string>, b: Option<string>)
    requires NoteOn(raws, n, a) && NoteOn(raws, n, b)
    ensures a == b
  {
    if a.Some? && b.Some? {
      var i: nat :| FirstNotedAt(raws, n, i) && raws[i].note == a;
      var j: nat :| FirstNotedAt(raws, n, j) && raws[j].note == b;
    }
  }

  lemma {:induction false} FirstSweep(raws: seq<Lexer.Raw>)
    ensures Plan.Sweeps(raws) != [] <==> exists i :: 0 <= i < |raws| && raws[i].kind == Lexer.SweepKind
    ensures forall i :: 0 <= i < |raws| && raws[i].kind == Lexer.SweepKind
                        && (forall j :: 0 <= j < i ==> raws[j].kind != Lexer.SweepKind) ==>
                        Plan.Sweeps(raws) != [] && Plan.Sweeps(raws)[0] == raws[i]
    ensures Plan.Sweeps(raws) != [] ==>
              exists i :: 0 <= i < |raws| && raws[i].kind == Lexer.SweepKind && raws[i] == Plan.Sweeps(raws)[0]
                          && forall j :: 0 <= j < i ==> raws[j].kind != Lexer.SweepKind
  {
    if raws != [] {
      var init := raws[..|raws| - 1];
      FirstSweep(init);
      assert forall i :: 0 <= i < |init| ==> init[i] == raws[i];
    }
  }

  /** The entry records the action on the question its number stands for, not answered yet. */
  ghost predicate WritesDown(d: Db, view: BandView, a: Plan.Action, e: Entry) {
    && a.n == e.n && a.note == e.note && a.n in QuestionsOf(d, view) && QuestionsOf(d, view)[a.n] == e.ref
    && e.ref !in d.answers && Records(d.questions[e.ref], a.value, e.given)
  }

  /** The entries are those that write down an action. */
  lemma {:induction false} EntriesWriteDown(d: Db, view: BandView, actions: seq<Plan.Action>, e: Entry)
    ensures e in EntriesOf(d, view, actions) <==> exists a :: a in actions && WritesDown(d, view, a, e)
  {
    if actions != [] {
      var k := |actions| - 1;
      EntriesWriteDown(d, view, actions[..k], e);
      assert actions == actions[..k] + [actions[k]];
      FiledWritesDown(d, view, actions[k], e);
      hide WritesDown, Filed;
    }
  }

  lemma FiledWritesDown(d: Db, view: BandView, a: Plan.Action, e: Entry)
    ensures e in Filed(d, view, a) <==> WritesDown(d, view, a, e)
  {
    hide QuestionsOf;
  }

  /** Every planned answer is on a question the view asks for. */
  lemma ActionAsks(d: Db, view: BandView, extras: map<nat, Plan.Item>, raws: seq<Lexer.Raw>, a: Plan.Action)
    requires forall n :: n in extras ==> !extras[n].information
    requires Plan.ActionRight(a, raws, AsShown(view), Infos(d, view, extras))
    ensures a.n in QuestionsOf(d, view) && AsksFor(d, view, extras, a.n, QuestionsOf(d, view)[a.n])
  {
    Plan.ActionIsOffered(a, raws, AsShown(view), Infos(d, view, extras));
    hide Plan.ActionRight;
  }

  /** What is due on the entries of a number is what they all choose. */
  lemma DueIsChosen(raws: seq<Lexer.Raw>, q: QuestionRow, n: nat, v: Plan.Value)
    ensures Plan.AllChoose(Plan.Naming(raws, n), InfoOf(q), v) <==> AllTake(raws, q, n, v)
  {
    var named := Plan.Naming(raws, n);
    NamingSays(raws, n);
    forall r: Lexer.Raw ensures Plan.Chooses(r, InfoOf(q), v) <==> Takes(r, q, v) {
      ChoosesIsTakes(r, q, v);
    }
    hide Plan.Chooses, Takes, Plan.Naming, Says, InfoOf;
    if forall i :: 0 <= i < |raws| && Says(raws[i], n) ==> Takes(raws[i], q, v) {
      forall i | 0 <= i < |named| ensures Plan.Chooses(named[i], InfoOf(q), v) {
        assert named[i] in named;
      }
    }
    if Plan.AllChoose(named, InfoOf(q), v) {
      forall i | 0 <= i < |raws| && Says(raws[i], n) ensures Takes(raws[i], q, v) {
        assert raws[i] in named;
      }
    }
  }

  ghost predicate Planned(plan: Plan.Plan, q: QuestionRow, n: nat, given: Given, note: Option<string>) {
    exists a :: a in plan.actions && a.n == n && a.note == note && Records(q, a.value, given)
  }

  ghost predicate Acts(plan: Plan.Plan, n: nat, v: Plan.Value) {
    exists a :: a in plan.actions && a.n == n && a.value == v
  }

  ghost predicate AccountsFor(d: Db, view: BandView, extras: map<nat, Plan.Item>, raws: seq<Lexer.Raw>, plan: Plan.Plan) {
    Plan.Accounts(plan, Plan.Named(raws) + Plan.Swept(raws, AsShown(view)), raws, AsShown(view), Infos(d, view, extras))
  }

  lemma ActionsRight(d: Db, view: BandView, extras: map<nat, Plan.Item>, raws: seq<Lexer.Raw>, plan: Plan.Plan)
    requires AccountsFor(d, view, extras, raws, plan)
    ensures forall a :: a in plan.actions ==> Plan.ActionRight(a, raws, AsShown(view), Infos(d, view, extras))
  {
    hide Plan.ActionRight, Plan.SheetRight, Plan.RefusalRight;
  }

  lemma AskedInfo(d: Db, view: BandView, extras: map<nat, Plan.Item>, n: nat, ref: nat)
    requires AsksFor(d, view, extras, n, ref)
    ensures var items := Infos(d, view, extras);
            && Plan.OnTheBand(n, AsShown(view), items) && items[n] == InfoOf(d.questions[ref]) && items[n].information
  {
  }

  /** An action on a number some entry is on says what they all take, with their first note. */
  lemma NamedIsChosen(d: Db, view: BandView, extras: map<nat, Plan.Item>, raws: seq<Lexer.Raw>, plan: Plan.Plan,
                      n: nat, ref: nat, v: Plan.Value)
    requires AccountsFor(d, view, extras, raws, plan) && AsksFor(d, view, extras, n, ref) && n in Plan.Named(raws)
    ensures Acts(plan, n, v) <==> AllTake(raws, d.questions[ref], n, v)
  {
    var q := d.questions[ref];
    AskedInfo(d, view, extras, n, ref);
    DueIsChosen(raws, q, n, v);
    Plan.AnsweredIffDue(plan, n, v, raws, AsShown(view), Infos(d, view, extras));
    hide AsksFor, AccountsFor, Infos, InfoOf, AsShown, Plan.Named, Plan.Naming, Plan.OnTheBand, Plan.AllChoose, AllTake;
  }

  lemma NamedNote(d: Db, view: BandView, extras: map<nat, Plan.Item>, raws: seq<Lexer.Raw>, plan: Plan.Plan, n: nat,
                  note: Option<string>)
    requires AccountsFor(d, view, extras, raws, plan) && n in Plan.Named(raws)
    ensures forall a :: a in plan.actions && a.n == n ==> (a.note == note <==> NoteOn(raws, n, note))
  {
    ActionsRight(d, view, extras, raws, plan);
    FirstNoteIsOn(raws, n);
    hide AccountsFor, NoteOn, Plan.Naming, Plan.FirstNote;
    if NoteOn(raws, n, note) {
      NoteOnIsOne(raws, n, note, Plan.FirstNote(Plan.Naming(raws, n)));
    }
  }

  lemma NamedIsDue(d: Db, view: BandView, extras: map<nat, Plan.Item>, raws: seq<Lexer.Raw>, plan: Plan.Plan,
                   n: nat, ref: nat, given: Given, note: Option<string>)
    requires AccountsFor(d, view, extras, raws, plan) && AsksFor(d, view, extras, n, ref) && n in Plan.Named(raws)
    ensures DueOn(raws, d.questions[ref], n, given, note) <==> Planned(plan, d.questions[ref], n, given, note)
  {
    var q := d.questions[ref];
    NamingSays(raws, n);
    NamedNote(d, view, extras, raws, plan, n, note);
    forall v: Plan.Value
      ensures Acts(plan, n, v) <==> AllTake(raws, q, n, v)
    {
      NamedIsChosen(d, view, extras, raws, plan, n, ref, v);
    }
    hide AsksFor, AccountsFor, NoteOn, Records, Says, AllTake, Plan.Named, Plan.Naming;
    if Planned(plan, q, n, given, note) {
      var a :| a in plan.actions && a.n == n && a.note == note && Records(q, a.value, given);
      assert Acts(plan, n, a.value);
    }
  }

  /** What is due on a number no entry is on is the first sweep's taking of its recommendation. */
  lemma DueIsSwept(raws: seq<Lexer.Raw>, q: QuestionRow, n: nat, given: Given, note: Option<string>)
    requires n !in Plan.Named(raws)
    ensures DueOn(raws, q, n, given, note) <==>
              && Plan.Sweeps(raws) != [] && note == Plan.Sweeps(raws)[0].note
              && InfoOf(q).rec.Some? && Records(q, Plan.PickOf(InfoOf(q).rec.value), given)
  {
    NamingSays(raws, n);
    FirstSweep(raws);
    RecIsInReach(q);
    assert RecInReach(q) ==> q.rec.Some?;
    hide InfoOf, Plan.Named, Plan.Naming, Plan.Sweeps, Says, RecInReach;
  }

  lemma SweptIsDue(d: Db, view: BandView, extras: map<nat, Plan.Item>, raws: seq<Lexer.Raw>, plan: Plan.Plan,
                   n: nat, ref: nat, given: Given, note: Option<string>)
    requires AccountsFor(d, view, extras, raws, plan) && AsksFor(d, view, extras, n, ref) && n !in Plan.Named(raws)
    ensures DueOn(raws, d.questions[ref], n, given, note) <==> Planned(plan, d.questions[ref], n, given, note)
  {
    var q, shown, items := d.questions[ref], AsShown(view), Infos(d, view, extras);
    AskedInfo(d, view, extras, n, ref);
    ActionsRight(d, view, extras, raws, plan);
    DueIsSwept(raws, q, n, given, note);
    if Plan.Sweeps(raws) != [] {
      Plan.SweptIffRec(plan, n, raws, shown, items);
    }
    hide Infos, InfoOf, Plan.Named, Records, Plan.Sweeps, DueOn, AccountsFor, AsksFor;
  }

  /** What a text records: an entry is written for a question exactly when the view asks for it, it is not answered yet, and
      the text makes that answer due. */
  lemma PlannedIsDue(d: Db, view: BandView, extras: map<nat, Plan.Item>, raws: seq<Lexer.Raw>, plan: Plan.Plan, e: Entry)
    requires forall n :: n in extras ==> !extras[n].information
    requires AccountsFor(d, view, extras, raws, plan)
    ensures e in EntriesOf(d, view, plan.actions) <==>
              && AsksFor(d, view, extras, e.n, e.ref) && e.ref !in d.answers
              && DueOn(raws, d.questions[e.ref], e.n, e.given, e.note)
  {
    EntriesWriteDown(d, view, plan.actions, e);
    ActionsRight(d, view, extras, raws, plan);
    forall a | a in plan.actions ensures a.n in QuestionsOf(d, view) && AsksFor(d, view, extras, a.n, QuestionsOf(d, view)[a.n]) {
      ActionAsks(d, view, extras, raws, a);
    }
    if AsksFor(d, view, extras, e.n, e.ref) {
      assert e.n in QuestionsOf(d, view) && QuestionsOf(d, view)[e.n] == e.ref;
      if e.n in Plan.Named(raws) {
        NamedIsDue(d, view, extras, raws, plan, e.n, e.ref, e.given, e.note);
      } else {
        SweptIsDue(d, view, extras, raws, plan, e.n, e.ref, e.given, e.note);
      }
    }
    hide AccountsFor, AsksFor, DueOn, Records, QuestionsOf, EntriesOf;
  }

  /** What the text records of the view: an entry, when the view is of this store and asks for its question, the question is
      not answered yet, and the text makes what it says due. */
  ghost predicate RecordedBy(d: Db, view: BandView, extras: map<nat, Plan.Item>, text: string, e: Entry) {
    && (d.storeId.Some? ==> d.storeId.value == view.store)
    && AsksFor(d, view, extras, e.n, e.ref) && e.ref !in d.answers
    && DueOn(BlockOf(text), d.questions[e.ref], e.n, e.given, e.note)
  }

  lemma PlanRecords(d: Db, view: BandView, extras: map<nat, Plan.Item>, text: string, plan: Plan.Plan)
    requires PlanFits(d, view, text, extras, plan)
    ensures forall e :: e in EntriesOf(d, view, plan.actions) <==> RecordedBy(d, view, extras, text, e)
  {
    forall e: Entry ensures e in EntriesOf(d, view, plan.actions) <==> RecordedBy(d, view, extras, text, e) {
      if d.storeId.None? || d.storeId.value == view.store {
        assert AccountsFor(d, view, extras, BlockOf(text), plan);
        PlannedIsDue(d, view, extras, BlockOf(text), plan, e);
      }
      hide AsksFor, DueOn, BlockOf, AllAnswers, AccountsFor, Plan.Accounts, Plan.Named, Plan.Swept, Infos;
    }
  }

  lemma ViewGrows(d: Db, viewer: nat, seenThrough: int, open: seq<nat>, gen: int, dedupe: bool)
    requires DbValid(d) && forall n :: n in open ==> d.table.Some? && n in d.table.value.rows
    ensures var d' := ViewedDb(d, viewer, seenThrough, open, gen, dedupe); DbValid(d') && DbGrows(d, d')
  {
    var d' := ViewedDb(d, viewer, seenThrough, open, gen, dedupe);
    assert d'.views[..|d.views|] == d.views;
    forall i | 0 <= i < |d'.views| ensures Listed(d', d'.views[i]) {
      if i < |d.views| { assert Listed(d, d.views[i]); }
    }
  }

  lemma NamesStay(a: Table, b: Table)
    requires Grows(a, b)
    ensures forall n, k :: Names(a, n, k) ==> Names(b, n, k)
  {
  }

  /** Views stay listed as the table grows. */
  lemma ListedStays(a: Db, b: Db)
    requires DbValid(a) && b.views == a.views && (b.table.Some? ==> Valid(b.table.value))
    requires a.table.Some? ==> b.table.Some? && Grows(a.table.value, b.table.value)
    ensures DbValid(b)
  {
    forall i | 0 <= i < |b.views| ensures Listed(b, b.views[i]) {
      assert Listed(a, a.views[i]);
    }
  }
}
