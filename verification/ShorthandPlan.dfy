/** From a message's answers to what is recorded, signed or refused (levain/band_shorthand.py, `parse` and `_sheet`). */
module ShorthandPlan {
  import opened Wrappers
  import opened ShorthandText
  import opened ShorthandLexer

  datatype View = View(seenThrough: int, open: seq<nat>, store: nat)

  datatype Item = Item(information: bool, options: nat, rec: Option<char>)

  datatype Value = PickOf(letter: char) | TextOf(text: string)

  datatype Action = Action(n: nat, value: Value, note: Option<string>, viaRec: bool)

  datatype Sheet = Sheet(n: nat, letter: char, viaRec: bool)

  datatype Reason =
    | NoBandShown | OtherStore
    | AfterTheBand | NotOpen | NoRec | NoOption(letter: char) | Conflict | WordsNeverSign
    | SweepUnread | SweepNeedsSignature | SweepNoRec | NothingToSweep

  datatype Refusal = Refusal(n: Option<nat>, reason: Reason)

  datatype Plan = Plan(actions: seq<Action>, sheets: seq<Sheet>, refused: seq<Refusal>)

  // ---- What a message's entries mean ----

  /** One entry chooses `v` on an item: an offered letter, the item's rec, or words. */
  predicate Chooses(e: Raw, item: Item, v: Value) {
    match e.kind
    case PickKind(letter) => v == PickOf(letter) && Offered(item, letter)
    case RecKind => item.rec.Some? && v == PickOf(item.rec.value)
    case TextKind(text) => v == TextOf(text)
    case SweepKind => false
  }

  ghost predicate ChoosesSome(e: Raw, item: Item) {
    exists v :: Chooses(e, item, v)
  }

  predicate Offered(item: Item, letter: char) {
    OptionLetter(letter) && (letter - 'a') as nat < item.options
  }

  /** Every entry chooses `v`. */
  predicate AllChoose(entries: seq<Raw>, item: Item, v: Value) {
    forall i :: 0 <= i < |entries| ==> Chooses(entries[i], item, v)
  }

  predicate AllRecs(entries: seq<Raw>) {
    forall i :: 0 <= i < |entries| ==> entries[i].kind.RecKind?
  }

  /** The first note that says something. */
  function FirstNote(entries: seq<Raw>): Option<string> {
    if entries == [] then None
    else if entries[0].note.Some? && entries[0].note.value != "" then entries[0].note
    else FirstNote(entries[1..])
  }

  /** The entries that name `n`, in order. */
  function Naming(raws: seq<Raw>, n: nat): seq<Raw> {
    if raws == [] then []
    else Naming(raws[..|raws| - 1], n) + (if Names(raws[|raws| - 1], n) then [raws[|raws| - 1]] else [])
  }

  predicate Names(r: Raw, n: nat) {
    !r.kind.SweepKind? && r.n == n
  }

  function Named(raws: seq<Raw>): set<nat> {
    set i | 0 <= i < |raws| && !raws[i].kind.SweepKind? :: raws[i].n
  }

  function Sweeps(raws: seq<Raw>): seq<Raw> {
    if raws == [] then []
    else Sweeps(raws[..|raws| - 1]) + (if raws[|raws| - 1].kind.SweepKind? then [raws[|raws| - 1]] else [])
  }

  /** What a sweep reaches: the numbers seen, open and named by no entry. */
  function Swept(raws: seq<Raw>, view: View): set<nat> {
    if Sweeps(raws) == [] then {} else Reach(raws, view)
  }

  function Reach(raws: seq<Raw>, view: View): set<nat> {
    set n | n in view.open && n <= view.seenThrough && n !in Named(raws)
  }

  // ---- What the plan owes each number ----

  predicate OnTheBand(n: nat, view: View, items: map<nat, Item>) {
    n <= view.seenThrough && n in view.open && n in items
  }

  /** `n` is answered with `v`: an information item of the band all of whose entries choose `v`. */
  predicate Answers(n: nat, v: Value, raws: seq<Raw>, view: View, items: map<nat, Item>) {
    n in Named(raws) && OnTheBand(n, view, items) && items[n].information && AllChoose(Naming(raws, n), items[n], v)
  }

  /** `n` opens its signing sheet at a letter: an authority item of the band all of whose entries choose it. */
  predicate Signs(n: nat, letter: char, raws: seq<Raw>, view: View, items: map<nat, Item>) {
    && n in Named(raws) && OnTheBand(n, view, items) && !items[n].information
    && AllChoose(Naming(raws, n), items[n], PickOf(letter))
  }

  /** A sweep takes `n`: an information item with a rec. */
  predicate SweepTakes(n: nat, raws: seq<Raw>, view: View, items: map<nat, Item>) {
    n in Swept(raws, view) && n in items && items[n].information && items[n].rec.Some?
  }

  ghost predicate ActionRight(a: Action, raws: seq<Raw>, view: View, items: map<nat, Item>) {
    if a.n in Named(raws) then
      && Answers(a.n, a.value, raws, view, items)
      && a.note == FirstNote(Naming(raws, a.n))
      && (a.viaRec <==> a.value.PickOf? && AllRecs(Naming(raws, a.n)))
    else
      && SweepTakes(a.n, raws, view, items)
      && a.value == PickOf(items[a.n].rec.value) && a.note == Sweeps(raws)[0].note && a.viaRec
  }

  ghost predicate SheetRight(s: Sheet, raws: seq<Raw>, view: View, items: map<nat, Item>) {
    Signs(s.n, s.letter, raws, view, items) && (s.viaRec <==> AllRecs(Naming(raws, s.n)))
  }

  /** Why entries on an item of the band come to nothing: one of them is at fault, or none is and they disagree. */
  ghost predicate Fault(reason: Reason, entries: seq<Raw>, item: Item) {
    match reason
    case NoRec => item.rec.None? && exists i :: 0 <= i < |entries| && entries[i].kind.RecKind?
    case NoOption(letter) => !Offered(item, letter) && exists i :: 0 <= i < |entries| && entries[i].kind == PickKind(letter)
    case WordsNeverSign => !item.information && exists i :: 0 <= i < |entries| && entries[i].kind.TextKind?
    case Conflict => forall i :: 0 <= i < |entries| ==> ChoosesSome(entries[i], item)
    case NoBandShown => false
    case OtherStore => false
    case AfterTheBand => false
    case NotOpen => false
    case SweepUnread => false
    case SweepNeedsSignature => false
    case SweepNoRec => false
    case NothingToSweep => false
  }

  /** The reason a number is refused for is the one that holds of it. */
  ghost predicate ReasonRight(r: Refusal, raws: seq<Raw>, view: View, items: map<nat, Item>) {
    if r.n.None? then r.reason == NothingToSweep
    else
      var n := r.n.value;
      if n in Named(raws) then
        if n > view.seenThrough then r.reason == AfterTheBand
        else if n !in view.open || n !in items then r.reason == NotOpen
        else Fault(r.reason, Naming(raws, n), items[n])
      else r.reason == if n !in items then SweepUnread
                       else if items[n].information then SweepNoRec else SweepNeedsSignature
  }

  /** A number is refused only where neither an answer, a sheet nor a sweep is due, and for the reason that holds of it. */
  ghost predicate RefusalRight(r: Refusal, raws: seq<Raw>, view: View, items: map<nat, Item>) {
    && ReasonRight(r, raws, view, items)
    && (r.n.Some? ==>
      && r.n.value in Named(raws) + Swept(raws, view)
      && (forall v :: !Answers(r.n.value, v, raws, view, items))
      && (forall l :: !Signs(r.n.value, l, raws, view, items))
      && !SweepTakes(r.n.value, raws, view, items))
  }

  /** How often a plan speaks of `n`. */
  function Times(p: Plan, n: nat): nat {
    ActionsOn(p.actions, n) + SheetsOn(p.sheets, n) + RefusalsOn(p.refused, Some(n))
  }

  function ActionsOn(s: seq<Action>, n: nat): nat {
    if s == [] then 0 else ActionsOn(s[..|s| - 1], n) + (if s[|s| - 1].n == n then 1 else 0)
  }

  function SheetsOn(s: seq<Sheet>, n: nat): nat {
    if s == [] then 0 else SheetsOn(s[..|s| - 1], n) + (if s[|s| - 1].n == n then 1 else 0)
  }

  function RefusalsOn(s: seq<Refusal>, n: Option<nat>): nat {
    if s == [] then 0 else RefusalsOn(s[..|s| - 1], n) + (if s[|s| - 1].n == n then 1 else 0)
  }

  ghost predicate Accounts(p: Plan, done: set<nat>, raws: seq<Raw>, view: View, items: map<nat, Item>) {
    && (forall n :: Times(p, n) == if n in done then 1 else 0)
    && (forall i :: 0 <= i < |p.actions| ==> ActionRight(p.actions[i], raws, view, items))
    && (forall i :: 0 <= i < |p.sheets| ==> SheetRight(p.sheets[i], raws, view, items))
    && (forall i :: 0 <= i < |p.refused| ==> RefusalRight(p.refused[i], raws, view, items))
  }

  lemma AddAction(p: Plan, a: Action, done: set<nat>, raws: seq<Raw>, view: View, items: map<nat, Item>)
    requires Accounts(p, done, raws, view, items) && a.n !in done && ActionRight(a, raws, view, items)
    ensures Accounts(p.(actions := p.actions + [a]), done + {a.n}, raws, view, items)
  {
    hide ActionRight, SheetRight, RefusalRight;
    assert (p.actions + [a])[..|p.actions|] == p.actions;
  }

  lemma AddSheet(p: Plan, s: Sheet, done: set<nat>, raws: seq<Raw>, view: View, items: map<nat, Item>)
    requires Accounts(p, done, raws, view, items) && s.n !in done && SheetRight(s, raws, view, items)
    ensures Accounts(p.(sheets := p.sheets + [s]), done + {s.n}, raws, view, items)
  {
    hide ActionRight, SheetRight, RefusalRight;
    assert (p.sheets + [s])[..|p.sheets|] == p.sheets;
  }

  lemma AddRefusal(p: Plan, r: Refusal, done: set<nat>, raws: seq<Raw>, view: View, items: map<nat, Item>)
    requires Accounts(p, done, raws, view, items) && RefusalRight(r, raws, view, items)
    requires r.n.Some? ==> r.n.value !in done
    ensures Accounts(p.(refused := p.refused + [r]), if r.n.Some? then done + {r.n.value} else done, raws, view, items)
    ensures RefusalsOn(p.refused + [r], None) == RefusalsOn(p.refused, None) + if r.n.None? then 1 else 0
  {
    hide ActionRight, SheetRight, RefusalRight;
    assert (p.refused + [r])[..|p.refused|] == p.refused;
  }

  lemma {:induction false} NamingNames(raws: seq<Raw>, n: nat)
    ensures n in Named(raws) <==> Naming(raws, n) != []
    ensures forall i :: 0 <= i < |Naming(raws, n)| ==> Names(Naming(raws, n)[i], n)
  {
    if raws != [] {
      var init := raws[..|raws| - 1];
      NamingNames(init, n);
      assert forall i :: 0 <= i < |init| ==> init[i] == raws[i];
    }
  }

  // ---- The loops ----

  /** What one entry chooses on an item, or why it cannot. */
  function Choice(e: Raw, item: Item): (r: Result<Value, Reason>)
    requires !e.kind.SweepKind?
    ensures forall v :: Chooses(e, item, v) <==> r == Ok(v)
  {
    if e.kind.TextKind? then Ok(TextOf(e.kind.text))
    else if e.kind.RecKind? then
      if item.rec.None? then Err(NoRec) else Ok(PickOf(item.rec.value))
    else if !Offered(item, e.kind.letter) then Err(NoOption(e.kind.letter))
    else Ok(PickOf(e.kind.letter))
  }

  predicate Chosen(e: Raw, item: Item, values: seq<Value>) {
    !e.kind.SweepKind? && Choice(e, item).Ok? && Choice(e, item).value in values
  }

  predicate ChosenBySome(v: Value, entries: seq<Raw>, item: Item) {
    exists k :: 0 <= k < |entries| && Chooses(entries[k], item, v)
  }

  /** `values` are the choices of the entries, each once. */
  predicate Collects(values: seq<Value>, entries: seq<Raw>, item: Item) {
    && (forall k :: 0 <= k < |entries| ==> Chosen(entries[k], item, values))
    && (forall j :: 0 <= j < |values| ==> ChosenBySome(values[j], entries, item))
    && (forall j, k :: 0 <= j < k < |values| ==> values[j] != values[k])
  }

  function Adding(values: seq<Value>, v: Value): (r: seq<Value>)
    ensures forall u :: u in r <==> u == v || u in values
  {
    if v in values then values else values + [v]
  }

  lemma CollectOne(values: seq<Value>, entries: seq<Raw>, item: Item, e: Raw)
    requires Collects(values, entries, item) && !e.kind.SweepKind? && Choice(e, item).Ok?
    ensures Collects(Adding(values, Choice(e, item).value), entries + [e], item)
  {
    var v := Choice(e, item).value;
    var all := entries + [e];
    assert Chooses(all[|entries|], item, v);
    forall u | ChosenBySome(u, entries, item) ensures ChosenBySome(u, all, item) {
      var k :| 0 <= k < |entries| && Chooses(entries[k], item, u);
      assert Chooses(all[k], item, u);
    }
    hide Choice, Chooses;
  }

  /** Entries agree exactly when their choices are one value. */
  lemma OneValue(values: seq<Value>, entries: seq<Raw>, item: Item)
    requires Collects(values, entries, item) && entries != []
    ensures values != []
    ensures |values| == 1 ==> AllChoose(entries, item, values[0])
    ensures |values| > 1 ==> forall u :: !AllChoose(entries, item, u)
  {
    assert Chosen(entries[0], item, values);
    if |values| == 1 {
      forall i | 0 <= i < |entries| ensures Chooses(entries[i], item, values[0]) {
        assert Chosen(entries[i], item, values);
      }
    } else {
      assert ChosenBySome(values[0], entries, item) && ChosenBySome(values[1], entries, item);
      var k :| 0 <= k < |entries| && Chooses(entries[k], item, values[0]);
      var l :| 0 <= l < |entries| && Chooses(entries[l], item, values[1]);
      assert forall u :: AllChoose(entries, item, u) ==> Chooses(entries[k], item, u) && Chooses(entries[l], item, u);
    }
  }

  lemma NoneChosen(entries: seq<Raw>, item: Item, i: nat)
    requires i < |entries| && !entries[i].kind.SweepKind? && Choice(entries[i], item).Err?
    ensures forall u :: !AllChoose(entries, item, u)
  {
    assert forall u :: AllChoose(entries, item, u) ==> Chooses(entries[i], item, u);
  }

  lemma ChoiceFault(entries: seq<Raw>, item: Item, i: nat)
    requires i < |entries| && !entries[i].kind.SweepKind? && Choice(entries[i], item).Err?
    ensures Fault(Choice(entries[i], item).error, entries, item)
  {
  }

  lemma WordsFault(entries: seq<Raw>, item: Item, i: nat)
    requires i < |entries| && entries[i].kind.TextKind? && !item.information
    ensures Fault(WordsNeverSign, entries, item)
  {
  }

  lemma AllChosen(values: seq<Value>, entries: seq<Raw>, item: Item)
    requires Collects(values, entries, item)
    ensures Fault(Conflict, entries, item)
  {
    forall i | 0 <= i < |entries| ensures ChoosesSome(entries[i], item) {
      assert Chosen(entries[i], item, values);
      var v := Choice(entries[i], item).value;
      assert Choice(entries[i], item) == Ok(v);
      assert Chooses(entries[i], item, v);
    }
  }

  predicate NoSweep(entries: seq<Raw>) {
    forall i :: 0 <= i < |entries| ==> !entries[i].kind.SweepKind?
  }

  /** An information item's entries: the one value they all choose, or why there is none. */
  method Answer(n: nat, entries: seq<Raw>, item: Item) returns (r: Result<Action, Reason>)
    requires entries != [] && NoSweep(entries) && item.information
    ensures r.Err? ==> Fault(r.error, entries, item)
    ensures r.Ok? <==> exists v :: AllChoose(entries, item, v)
    ensures r.Ok? ==> && r.value.n == n && AllChoose(entries, item, r.value.value)
                      && r.value.note == FirstNote(entries)
                      && (r.value.viaRec <==> r.value.value.PickOf? && AllRecs(entries))
  {
    hide Choice, Chooses, Fault, Collects, FirstNote, AllChoose, Adding;
    var distinct: seq<Value> := [];
    var bad: Option<Reason> := None;
    var viaRec := true;
    assert Collects(distinct, entries[..0], item) by { CollectNone(item, entries[..0]); }
    for i := 0 to |entries|
      invariant bad.Some? ==> Fault(bad.value, entries, item) && forall v :: !AllChoose(entries, item, v)
      invariant bad.None? ==> Collects(distinct, entries[..i], item)
      invariant viaRec <==> AllRecs(entries[..i])
    {
      var e := entries[i];
      assert entries[..i + 1] == entries[..i] + [e];
      var choice := Choice(e, item);
      viaRec := viaRec && e.kind.RecKind?;
      if choice.Err? {
        NoneChosen(entries, item, i);
        ChoiceFault(entries, item, i);
        bad := Some(choice.error);
      } else {
        if bad.None? {
          CollectOne(distinct, entries[..i], item, e);
        }
        distinct := Adding(distinct, choice.value);
      }
    }
    assert entries[..|entries|] == entries;
    if bad.Some? {
      return Err(bad.value);
    }
    OneValue(distinct, entries, item);
    if |distinct| > 1 {
      AllChosen(distinct, entries, item);
      return Err(Conflict);
    }
    r := Ok(Action(n, distinct[0], FirstNote(entries), distinct[0].PickOf? && viaRec));
  }

  lemma CollectNone(item: Item, none: seq<Raw>)
    requires none == []
    ensures Collects([], none, item)
  {
  }

  /** An authority item's entries: the one letter to preselect, or why there is none. Words are never a pick. */
  method SheetOf(n: nat, entries: seq<Raw>, item: Item) returns (r: Result<Sheet, Reason>)
    requires entries != [] && NoSweep(entries) && !item.information
    ensures r.Err? ==> Fault(r.error, entries, item)
    ensures r.Ok? <==> exists l :: AllChoose(entries, item, PickOf(l))
    ensures r.Ok? ==> && r.value.n == n && AllChoose(entries, item, PickOf(r.value.letter))
                      && (r.value.viaRec <==> AllRecs(entries))
  {
    hide Collects, Adding, Choice, Fault;
    var letters: seq<Value> := [];
    var byRec: map<Value, bool> := map[];
    assert Collects(letters, entries[..0], item) by { CollectNone(item, entries[..0]); }
    for i := 0 to |entries|
      invariant Collects(letters, entries[..i], item)
      invariant forall v :: v in byRec <==> v in letters
      invariant forall v :: v in letters ==> v.PickOf?
      invariant forall v :: v in byRec && byRec[v] ==> forall k :: 0 <= k < i && Chooses(entries[k], item, v) ==> entries[k].kind.RecKind?
      invariant forall v :: v in byRec && !byRec[v] ==> exists k :: 0 <= k < i && entries[k].kind.PickKind?
    {
      var e := entries[i];
      assert entries[..i + 1] == entries[..i] + [e];
      if e.kind.TextKind? {
        assert forall l :: AllChoose(entries, item, PickOf(l)) ==> Chooses(entries[i], item, PickOf(l));
        WordsFault(entries, item, i);
        return Err(WordsNeverSign);
      }
      var choice := Choice(e, item);
      if choice.Err? {
        NoneChosen(entries, item, i);
        ChoiceFault(entries, item, i);
        return Err(choice.error);
      }
      var v := choice.value;
      assert Chooses(e, item, v);
      CollectOne(letters, entries[..i], item, e);
      if v !in letters {
        NotChosen(letters, entries[..i], item, v);
        assert forall k :: 0 <= k < i ==> !Chooses(entries[..i][k], item, v);
      }
      if e.kind.RecKind? {
        byRec := if v in byRec then byRec else byRec[v := true];
      } else {
        byRec := byRec[v := false];
      }
      letters := Adding(letters, v);
    }
    assert entries[..|entries|] == entries;
    OneValue(letters, entries, item);
    if |letters| > 1 {
      AllChosen(letters, entries, item);
      return Err(Conflict);
    }
    r := Ok(Sheet(n, letters[0].letter, byRec[letters[0]]));
  }

  lemma NotChosen(values: seq<Value>, entries: seq<Raw>, item: Item, v: Value)
    requires Collects(values, entries, item) && v !in values
    ensures forall k :: 0 <= k < |entries| ==> !Chooses(entries[k], item, v)
  {
    assert forall k :: 0 <= k < |entries| ==> Chosen(entries[k], item, values);
  }

  /** The entries by number, numbers in the order first named, and the sweeps. */
  method Group(raws: seq<Raw>) returns (order: seq<nat>, byNumber: map<nat, seq<Raw>>, sweeps: seq<Raw>)
    ensures sweeps == Sweeps(raws)
    ensures byNumber.Keys == Named(raws) && (forall n :: n in byNumber ==> byNumber[n] == Naming(raws, n))
    ensures (set n | n in order) == Named(raws)
    ensures forall i, j :: 0 <= i < j < |order| ==> order[i] != order[j]
  {
    order, byNumber, sweeps := [], map[], [];
    for i := 0 to |raws|
      invariant sweeps == Sweeps(raws[..i])
      invariant byNumber.Keys == Named(raws[..i])
      invariant forall n :: n in byNumber ==> byNumber[n] == Naming(raws[..i], n)
      invariant (set n | n in order) == byNumber.Keys
      invariant forall j, k :: 0 <= j < k < |order| ==> order[j] != order[k]
    {
      var r := raws[i];
      assert raws[..i + 1][..i] == raws[..i];
      assert Named(raws[..i + 1]) == if r.kind.SweepKind? then Named(raws[..i]) else Named(raws[..i]) + {r.n};
      if r.kind.SweepKind? {
        sweeps := sweeps + [r];
      } else if r.n in byNumber {
        byNumber := byNumber[r.n := byNumber[r.n] + [r]];
      } else {
        NamingNames(raws[..i], r.n);
        byNumber := byNumber[r.n := [r]];
        order := order + [r.n];
      }
    }
    assert raws[..|raws|] == raws;
  }

  predicate Climbs(s: seq<nat>) {
    forall i, j :: 0 <= i < j < |s| ==> s[i] < s[j]
  }

  /** Numbers each once, ascending. */
  function Ascending(numbers: seq<nat>): (r: seq<nat>)
    ensures Climbs(r) && forall n :: n in r <==> n in numbers
  {
    if numbers == [] then [] else Insert(numbers[0], Ascending(numbers[1..]))
  }

  function Insert(n: nat, s: seq<nat>): (r: seq<nat>)
    requires Climbs(s)
    ensures Climbs(r) && forall m :: m in r <==> m == n || m in s
  {
    if s == [] || n < s[0] then [n] + s
    else if n == s[0] then s
    else
      var r := Insert(n, s[1..]);
      HeadIsLeast(s);
      ClimbsBehind(s[0], r);
      [s[0]] + r
  }

  lemma HeadIsLeast(s: seq<nat>)
    requires Climbs(s) && s != []
    ensures s == [s[0]] + s[1..] && forall m :: m in s[1..] ==> s[0] < m
  {
  }

  lemma ClimbsBehind(n: nat, s: seq<nat>)
    requires Climbs(s) && forall m :: m in s ==> n < m
    ensures Climbs([n] + s)
  {
    var t := [n] + s;
    forall i, j | 0 <= i < j < |t| ensures t[i] < t[j] {
      assert t[j] == s[j - 1] && s[j - 1] in s;
      assert i > 0 ==> t[i] == s[i - 1];
    }
  }

  // ---- The plan ----

  /** The plan of a message's entries against the band its sender saw. */
  method Decide(raws: seq<Raw>, view: View, items: map<nat, Item>) returns (p: Plan)
    ensures Accounts(p, Named(raws) + Swept(raws, view), raws, view, items)
    ensures RefusalsOn(p.refused, None) == |Sweeps(raws)| - if Swept(raws, view) == {} then 0 else 1
  {
    var order, byNumber, sweeps := Group(raws);
    p := Plan([], [], []);
    ghost var done: set<nat> := {};
    for i := 0 to |order|
      invariant done == set k | 0 <= k < i :: order[k]
      invariant Accounts(p, done, raws, view, items)
      invariant RefusalsOn(p.refused, None) == 0
    {
      var n := order[i];
      p := DecideNamed(p, n, byNumber[n], raws, view, items, done);
      done := done + {n};
    }
    assert done == Named(raws);
    p := SweepAll(p, sweeps, byNumber.Keys, raws, view, items);
  }

  /** One named number gets its answer, its sheet or its refusal. */
  method DecideNamed(p: Plan, n: nat, entries: seq<Raw>, raws: seq<Raw>, view: View, items: map<nat, Item>,
                     ghost done: set<nat>) returns (q: Plan)
    requires Accounts(p, done, raws, view, items) && n !in done
    requires n in Named(raws) && entries == Naming(raws, n)
    ensures Accounts(q, done + {n}, raws, view, items)
    ensures RefusalsOn(q.refused, None) == RefusalsOn(p.refused, None)
  {
    hide Accounts, AllChoose, Naming, Named, FirstNote, AllRecs, Swept, RefusalsOn, Fault;
    NamingNames(raws, n);
    NamedNotSwept(raws, view, n);
    var r: Refusal;
    if n > view.seenThrough {
      r := Refusal(Some(n), AfterTheBand);
    } else if n !in view.open || n !in items {
      r := Refusal(Some(n), NotOpen);
    } else if !items[n].information {
      var sheet := SheetOf(n, entries, items[n]);
      if sheet.Ok? {
        AddSheet(p, sheet.value, done, raws, view, items);
        return p.(sheets := p.sheets + [sheet.value]);
      }
      r := Refusal(Some(n), sheet.error);
    } else {
      var answer := Answer(n, entries, items[n]);
      if answer.Ok? {
        AddAction(p, answer.value, done, raws, view, items);
        return p.(actions := p.actions + [answer.value]);
      }
      r := Refusal(Some(n), answer.error);
    }
    AddRefusal(p, r, done, raws, view, items);
    return p.(refused := p.refused + [r]);
  }

  lemma NamedNotSwept(raws: seq<Raw>, view: View, n: nat)
    requires n in Named(raws)
    ensures n !in Swept(raws, view)
  {
  }

  /** The sweeps, in turn: the first reaches every number it may, a later one finds nothing left. */
  method SweepAll(p: Plan, sweeps: seq<Raw>, named: set<nat>, raws: seq<Raw>, view: View, items: map<nat, Item>)
    returns (q: Plan)
    requires Accounts(p, Named(raws), raws, view, items) && RefusalsOn(p.refused, None) == 0
    requires sweeps == Sweeps(raws) && named == Named(raws)
    ensures Accounts(q, Named(raws) + Swept(raws, view), raws, view, items)
    ensures RefusalsOn(q.refused, None) == |Sweeps(raws)| - if Swept(raws, view) == {} then 0 else 1
  {
    hide Accounts, Named, Sweeps, RefusalsOn, RefusalRight;
    q := p;
    var taken: set<nat> := named;
    for j := 0 to |sweeps|
      invariant Accounts(q, taken, raws, view, items)
      invariant taken == Named(raws) + if j == 0 then {} else Reach(raws, view)
      invariant RefusalsOn(q.refused, None) == if j == 0 || Reach(raws, view) == {} then j else j - 1
    {
      var covered: nat := 0;
      var before := |q.refused|;
      var open := Ascending(view.open);
      ghost var start: set<nat> := taken;
      ghost var none := RefusalsOn(q.refused, None);
      for i := 0 to |open|
        invariant Accounts(q, taken, raws, view, items)
        invariant taken == start + Left(open[..i], view, start)
        invariant RefusalsOn(q.refused, None) == none
        invariant |q.refused| >= before
        invariant covered > 0 || |q.refused| > before <==> Left(open[..i], view, start) != {}
      {
        var n := open[i];
        LeftGrows(open, i, view, start);
        if n !in taken && n <= view.seenThrough {
          assert n in open;
          assert j == 0 && n in Swept(raws, view);
          var took: bool;
          q, took := SweepOnto(q, n, sweeps[j].note, raws, view, items, taken);
          taken := taken + {n};
          covered := covered + if took then 1 else 0;
        }
      }
      assert open[..|open|] == open;
      LeftIsReach(open, raws, view);
      assert taken == Named(raws) + Reach(raws, view);
      if covered == 0 && |q.refused| == before {
        NothingLeft(raws, view, items);
        AddRefusal(q, Refusal(None, NothingToSweep), taken, raws, view, items);
        q := q.(refused := q.refused + [Refusal(None, NothingToSweep)]);
      }
    }
  }

  lemma NothingLeft(raws: seq<Raw>, view: View, items: map<nat, Item>)
    ensures RefusalRight(Refusal(None, NothingToSweep), raws, view, items)
  {
  }

  /** The numbers of `open` that a sweep still has to take, `start` being taken. */
  ghost function Left(open: seq<nat>, view: View, start: set<nat>): set<nat> {
    set n: nat | n in open && n <= view.seenThrough && n !in start
  }

  lemma LeftGrows(open: seq<nat>, i: nat, view: View, start: set<nat>)
    requires i < |open| && Climbs(open)
    ensures open[i] !in Left(open[..i], view, start)
    ensures Left(open[..i + 1], view, start) ==
            Left(open[..i], view, start) + if open[i] <= view.seenThrough && open[i] !in start then {open[i]} else {}
  {
    assert open[..i + 1] == open[..i] + [open[i]];
  }

  lemma LeftIsReach(open: seq<nat>, raws: seq<Raw>, view: View)
    requires forall n :: n in open <==> n in view.open
    ensures Left(open, view, Named(raws)) == Reach(raws, view)
    ensures Left(open, view, Named(raws) + Reach(raws, view)) == {}
  {
  }

  /** A sweep at one number it reaches: its rec is taken, or the number refused. */
  method SweepOnto(p: Plan, n: nat, note: Option<string>, raws: seq<Raw>, view: View, items: map<nat, Item>,
                   ghost done: set<nat>) returns (q: Plan, took: bool)
    requires Accounts(p, done, raws, view, items) && n !in done
    requires n in Swept(raws, view) && Sweeps(raws) != [] && note == Sweeps(raws)[0].note
    ensures Accounts(q, done + {n}, raws, view, items)
    ensures RefusalsOn(q.refused, None) == RefusalsOn(p.refused, None)
    ensures |q.refused| == |p.refused| + if took then 0 else 1
    ensures took <==> SweepTakes(n, raws, view, items)
  {
    hide Accounts, RefusalsOn;
    took := n in items && items[n].information && items[n].rec.Some?;
    if took {
      var a := Action(n, PickOf(items[n].rec.value), note, true);
      AddAction(p, a, done, raws, view, items);
      q := p.(actions := p.actions + [a]);
    } else {
      var r := Refusal(Some(n), if n !in items then SweepUnread
                                else if !items[n].information then SweepNeedsSignature else SweepNoRec);
      AddRefusal(p, r, done, raws, view, items);
      q := p.(refused := p.refused + [r]);
    }
  }

  // ---- What an accounted plan means ----

  /** Every due answer, and nothing but it, is in the plan: `n` is answered with `v` exactly when an action says so. */
  lemma AnsweredIffDue(p: Plan, n: nat, v: Value, raws: seq<Raw>, view: View, items: map<nat, Item>)
    requires Accounts(p, Named(raws) + Swept(raws, view), raws, view, items) && n in Named(raws)
    ensures Answers(n, v, raws, view, items) <==> exists a :: a in p.actions && a.n == n && a.value == v
  {
    NamingNames(raws, n);
    hide Naming, Named;
    if Answers(n, v, raws, view, items) {
      assert Times(p, n) == 1;
      ActionPresent(p.actions, n);
      SheetPresent(p.sheets, n);
      RefusalPresent(p.refused, n);
      var i :| 0 <= i < |p.actions| && p.actions[i].n == n;
      assert ActionRight(p.actions[i], raws, view, items);
      assert Chooses(Naming(raws, n)[0], items[n], v) && Chooses(Naming(raws, n)[0], items[n], p.actions[i].value);
      assert p.actions[i] in p.actions;
    }
  }

  /** A signing sheet opens exactly for an authority item whose entries agree on a letter. */
  lemma SheetIffDue(p: Plan, n: nat, letter: char, raws: seq<Raw>, view: View, items: map<nat, Item>)
    requires Accounts(p, Named(raws) + Swept(raws, view), raws, view, items)
    ensures Signs(n, letter, raws, view, items) <==> exists s :: s in p.sheets && s.n == n && s.letter == letter
  {
    NamingNames(raws, n);
    hide Naming, Named;
    if Signs(n, letter, raws, view, items) {
      assert Times(p, n) == 1;
      ActionPresent(p.actions, n);
      SheetPresent(p.sheets, n);
      RefusalPresent(p.refused, n);
      var i :| 0 <= i < |p.sheets| && p.sheets[i].n == n;
      assert SheetRight(p.sheets[i], raws, view, items);
      assert Chooses(Naming(raws, n)[0], items[n], PickOf(letter))
             && Chooses(Naming(raws, n)[0], items[n], PickOf(p.sheets[i].letter));
      assert p.sheets[i] in p.sheets;
    }
  }

  /** A sweep answers, with its rec, every information item it reaches that has one, and no authority item. */
  lemma SweptIffRec(p: Plan, n: nat, raws: seq<Raw>, view: View, items: map<nat, Item>)
    requires Accounts(p, Named(raws) + Swept(raws, view), raws, view, items) && n in Swept(raws, view)
    ensures SweepTakes(n, raws, view, items) <==> exists a :: a in p.actions && a.n == n
    ensures n in items && !items[n].information ==> RefusalsOn(p.refused, Some(n)) == 1
  {
    assert n !in Named(raws);
    hide Named, Swept;
    assert Times(p, n) == 1;
    ActionPresent(p.actions, n);
    SheetPresent(p.sheets, n);
    RefusalPresent(p.refused, n);
    if SweepTakes(n, raws, view, items) {
      var i :| 0 <= i < |p.actions| && p.actions[i].n == n;
      assert p.actions[i] in p.actions;
    }
  }

  /** Every action is on an open, seen, information item, with words, an offered letter or the item's rec. */
  lemma ActionIsOffered(a: Action, raws: seq<Raw>, view: View, items: map<nat, Item>)
    requires ActionRight(a, raws, view, items)
    ensures OnTheBand(a.n, view, items) && items[a.n].information
    ensures a.value.PickOf? ==> Offered(items[a.n], a.value.letter) || items[a.n].rec == Some(a.value.letter)
  {
    if a.n in Named(raws) {
      NamingNames(raws, a.n);
      assert Chooses(Naming(raws, a.n)[0], items[a.n], a.value);
    }
  }

  lemma {:induction false} ActionPresent(s: seq<Action>, n: nat)
    ensures ActionsOn(s, n) > 0 <==> exists i :: 0 <= i < |s| && s[i].n == n
  {
    if s != [] {
      ActionPresent(s[..|s| - 1], n);
      assert forall i :: 0 <= i < |s| - 1 ==> s[..|s| - 1][i] == s[i];
    }
  }

  lemma {:induction false} SheetPresent(s: seq<Sheet>, n: nat)
    ensures SheetsOn(s, n) > 0 <==> exists i :: 0 <= i < |s| && s[i].n == n
  {
    if s != [] {
      SheetPresent(s[..|s| - 1], n);
      assert forall i :: 0 <= i < |s| - 1 ==> s[..|s| - 1][i] == s[i];
    }
  }

  lemma {:induction false} RefusalPresent(s: seq<Refusal>, n: nat)
    ensures RefusalsOn(s, Some(n)) > 0 <==> exists i :: 0 <= i < |s| && s[i].n == Some(n)
  {
    if s != [] {
      RefusalPresent(s[..|s| - 1], n);
      assert forall i :: 0 <= i < |s| - 1 ==> s[..|s| - 1][i] == s[i];
    }
  }
}
