/** The table of band numbers: its triggers, its AUTOINCREMENT mark, its rebuild and its one way to give numbers
    (levain/band_view.py, `BAND_SCHEMA`, `_migrate_band_items`, `_number`). */
module BandNumbers {
  import opened Wrappers

  datatype Source = Question | Consent | Sign | Extend | Host

  /** What a number names: an item of a source. */
  datatype Key = Key(source: Source, ref: nat)

  /** The table: its rows, its entry in the sequence table, and whether its CHECK admits hosts. */
  datatype Table = Table(rows: map<nat, Key>, sequence: Option<nat>, hosts: bool)

  const NUMBER_MAX: nat := 0x7FFF_FFFF_FFFF_FFFF

  /** The high-water mark. */
  function High(t: Table): nat {
    if t.sequence.Some? then t.sequence.value else 0
  }

  ghost predicate Valid(t: Table) {
    && (forall n :: n in t.rows ==> t.sequence.Some? && n <= t.sequence.value)
    && (forall m, n :: m in t.rows && n in t.rows && t.rows[m] == t.rows[n] ==> m == n)
    && High(t) <= NUMBER_MAX
    && (!t.hosts ==> forall n :: n in t.rows ==> t.rows[n].source != Host)
  }

  const CREATED := Table(map[], None, true)

  // ---- Statements ----

  datatype Statement =
    | Insert(number: Option<nat>, key: Key, replace: bool)
    | Update(n: nat, to: nat, key: Key)
    | Delete(n: nat)

  /** A row inserted under the table's own constraints: CHECK, primary key and unique key; none when it is refused. */
  function Inserted(t: Table, n: Option<nat>, key: Key): Option<Table> {
    if (key.source.Host? && !t.hosts) || key in t.rows.Values || (n.Some? && (n.value in t.rows || n.value > NUMBER_MAX))
       || (n.None? && High(t) >= NUMBER_MAX)
    then None
    else
      var m := if n.Some? then n.value else High(t) + 1;
      Some(Table(t.rows[m := key], Some(if m < High(t) then High(t) else m), t.hosts))
  }

  /** Any statement on the table while its triggers stand; none when it aborts. */
  function Execute(t: Table, s: Statement): Option<Table> {
    match s
    case Insert(n, key, replace) =>
      if key in t.rows.Values || (n.Some? && n.value in t.rows) then None else Inserted(t, n, key)
    case Update(n, to, key) => if n in t.rows then None else Some(t)
    case Delete(n) => if n in t.rows then None else Some(t)
  }

  /** The rows an INSERT OR REPLACE leaves of those it collides with. */
  function Without(t: Table, number: Option<nat>, key: Key): map<nat, Key> {
    map m | m in t.rows && t.rows[m] != key && Some(m) != number :: t.rows[m]
  }

  /** The same statement with the triggers gone, as a table just made has none. */
  function Unguarded(t: Table, s: Statement): Option<Table> {
    match s
    case Insert(n, key, replace) =>
      if replace then
        Inserted(t.(rows := Without(t, n, key)), n, key)
      else Inserted(t, n, key)
    case Update(n, to, key) =>
      if n !in t.rows then Some(t)
      else
        var others := t.rows - {n};
        if to in others || key in others.Values || (key.source.Host? && !t.hosts) then None
        else Some(t.(rows := others[to := key]))
    case Delete(n) => Some(t.(rows := t.rows - {n}))
  }

  // ---- Growth ----

  /** Every number keeps its item, and the mark never falls. */
  ghost predicate Grows(a: Table, b: Table) {
    && (forall n :: n in a.rows ==> n in b.rows && b.rows[n] == a.rows[n])
    && High(a) <= High(b)
  }

  lemma InsertedGrows(t: Table, n: Option<nat>, key: Key)
    requires Valid(t) && Inserted(t, n, key).Some?
    ensures var u := Inserted(t, n, key).value;
            && Valid(u) && Grows(t, u) && key in u.rows.Values
            && (n.None? ==> High(t) + 1 in u.rows && u.rows[High(t) + 1] == key)
  {
    var u := Inserted(t, n, key).value;
    var m := if n.Some? then n.value else High(t) + 1;
    assert m in u.rows && u.rows[m] == key && m !in t.rows;
    assert forall i :: i in t.rows ==> t.rows[i] != key;
  }

  /** No statement, of any kind, changes, removes or reuses a number while the triggers stand. */
  lemma StatementsOnlyGrow(t: Table, s: Statement)
    requires Valid(t) && Execute(t, s).Some?
    ensures Valid(Execute(t, s).value) && Grows(t, Execute(t, s).value)
  {
    if s.Insert? {
      InsertedGrows(t, s.number, s.key);
    }
  }

  /** The statement names a row that is there. */
  predicate Hits(t: Table, s: Statement) {
    match s
    case Insert(number, key, _) => key in t.rows.Values || (number.Some? && number.value in t.rows)
    case Update(n, _, _) => n in t.rows
    case Delete(n) => n in t.rows
  }

  /** What the triggers are for: a statement they let through does what it would do without them, and one they stop
      would without them have failed, broken a number, or written a row over itself. */
  lemma TriggersAreExact(t: Table, s: Statement)
    requires Valid(t)
    ensures Execute(t, s).Some? ==> Execute(t, s) == Unguarded(t, s)
    ensures Execute(t, s).None? && Unguarded(t, s).Some? ==>
              Hits(t, s) && (!Grows(t, Unguarded(t, s).value) || Unguarded(t, s).value.rows == t.rows)
  {
    if s.Insert? {
      var kept := Without(t, s.number, s.key);
      if Execute(t, s).Some? {
        assert kept == t.rows;
      } else if Unguarded(t, s).Some? && s.replace {
        ReplaceBreaks(t, s.number, s.key);
      }
    } else if s.Update? && s.n in t.rows && Unguarded(t, s).Some? {
      var u := Unguarded(t, s).value;
      if s.to == s.n && s.key == t.rows[s.n] {
        assert u.rows == t.rows;
      } else {
        assert s.n !in u.rows || u.rows[s.n] != t.rows[s.n];
      }
    } else if s.Delete? {
      assert s.n !in Unguarded(t, s).value.rows;
      assert s.n !in t.rows ==> t.rows - {s.n} == t.rows;
    }
  }

  lemma ReplaceBreaks(t: Table, number: Option<nat>, key: Key)
    requires Valid(t) && Inserted(t.(rows := Without(t, number, key)), number, key).Some?
    requires key in t.rows.Values || (number.Some? && number.value in t.rows)
    ensures var u := Inserted(t.(rows := Without(t, number, key)), number, key).value;
            !Grows(t, u) || u.rows == t.rows
  {
    var u := Inserted(t.(rows := Without(t, number, key)), number, key).value;
    var m := if number.Some? then number.value else High(t) + 1;
    if m in t.rows && t.rows[m] == key {
      assert u.rows == t.rows;
    } else if m in t.rows {
      assert u.rows[m] == key;
    } else {
      var n :| n in t.rows && t.rows[n] == key;
      assert n !in u.rows;
    }
  }

  // ---- Numbering ----

  /** The number of an item that has one. */
  ghost function NumberOf(t: Table, key: Key): (n: nat)
    requires key in t.rows.Values
    ensures n in t.rows && t.rows[n] == key
  {
    var n :| n in t.rows && t.rows[n] == key;
    n
  }

  /** Every item without a number given the next, in order; none when the numbers run out. */
  function Numbered(t: Table, keys: seq<Key>): Option<Table>
    decreases |keys|
  {
    if keys == [] then Some(t)
    else if keys[0] in t.rows.Values then Numbered(t, keys[1..])
    else
      var u := Inserted(t, None, keys[0]);
      if u.None? then None else Numbered(u.value, keys[1..])
  }

  /** The items of `keys` with no number yet, each once, in order. */
  function Unnumbered(t: Table, keys: seq<Key>): seq<Key>
    decreases |keys|
  {
    if keys == [] then []
    else if keys[0] in t.rows.Values then Unnumbered(t, keys[1..])
    else
      [keys[0]] + Unnumbered(t.(rows := t.rows[High(t) + 1 := keys[0]], sequence := Some(High(t) + 1)), keys[1..])
  }

  /** `u` is `t` with the items of `more` under the numbers straight above its mark, in order. */
  ghost predicate Adds(t: Table, u: Table, more: seq<Key>) {
    && Valid(u) && Grows(t, u) && u.hosts == t.hosts && High(u) == High(t) + |more|
    && (forall n :: n in u.rows ==> n in t.rows || High(t) < n <= High(u))
    && (forall i :: 0 <= i < |more| ==> Names(u, High(t) + 1 + i, more[i]))
  }

  predicate Names(t: Table, n: nat, key: Key) {
    n in t.rows && t.rows[n] == key
  }

  lemma AddsOne(t: Table, v: Table, u: Table, key: Key, more: seq<Key>)
    requires Valid(t) && Inserted(t, None, key) == Some(v) && Adds(v, u, more)
    ensures Adds(t, u, [key] + more) && key in u.rows.Values
  {
    InsertedGrows(t, None, key);
    ValuesStay(v, u, key);
    assert High(t) + 1 in v.rows && v.rows[High(t) + 1] == key && High(v) == High(t) + 1;
    var all := [key] + more;
    forall i | 0 <= i < |all| ensures Names(u, High(t) + 1 + i, all[i]) {
      if i > 0 {
        assert Names(u, High(v) + 1 + (i - 1), more[i - 1]);
        assert High(v) + 1 + (i - 1) == High(t) + 1 + i;
      }
    }
    assert Adds(t, u, all);
  }

  /** Numbering keeps every number there was, gives the unnumbered items the numbers straight above the mark in the
      order they came, gives every item one, and fails only for want of numbers. */
  lemma {:induction false} NumberedExact(t: Table, keys: seq<Key>)
    requires Valid(t) && t.hosts
    ensures Numbered(t, keys).Some? <==> High(t) + |Unnumbered(t, keys)| <= NUMBER_MAX
    ensures Numbered(t, keys).Some? ==> && Adds(t, Numbered(t, keys).value, Unnumbered(t, keys))
                                        && forall k :: k in keys ==> k in Numbered(t, keys).value.rows.Values
    decreases |keys|
  {
    if keys != [] {
      if keys[0] in t.rows.Values {
        NumberedExact(t, keys[1..]);
        if Numbered(t, keys).Some? {
          ValuesStay(t, Numbered(t, keys).value, keys[0]);
        }
      } else if High(t) < NUMBER_MAX {
        var v := Inserted(t, None, keys[0]).value;
        InsertedGrows(t, None, keys[0]);
        NumberedExact(v, keys[1..]);
        if Numbered(t, keys).Some? {
          AddsOne(t, v, Numbered(t, keys).value, keys[0], Unnumbered(v, keys[1..]));
        }
      }
    }
  }

  lemma ValuesStay(a: Table, b: Table, key: Key)
    requires Grows(a, b) && key in a.rows.Values
    ensures key in b.rows.Values
  {
    var n := NumberOf(a, key);
    assert b.rows[n] == key;
  }

  /** Through any growth an item keeps the one number it has. */
  lemma NumberStays(a: Table, b: Table, key: Key)
    requires Valid(b) && Grows(a, b) && key in a.rows.Values
    ensures key in b.rows.Values && NumberOf(b, key) == NumberOf(a, key)
  {
    ValuesStay(a, b, key);
  }
}
