/** Reading values between literals, from the left and from the right (levain/answers.py, `_split`). */
module AnswerAnchors {
  import opened Wrappers

  // ---- Occurrences ----

  predicate Hit(t: string, w: string, i: nat) {
    i + |w| <= |t| && t[i..i + |w|] == w
  }

  /** The first occurrence of `w` within `from..stop`. */
  function Find(t: string, w: string, from: nat, stop: nat): (r: Option<nat>)
    requires stop <= |t|
    ensures r.Some? ==> from <= r.value && r.value + |w| <= stop && Hit(t, w, r.value)
    ensures forall i :: from <= i && i + |w| <= stop && Hit(t, w, i) ==> r.Some? && r.value <= i
    decreases stop - from
  {
    if from + |w| > stop then None
    else if Hit(t, w, from) then Some(from)
    else Find(t, w, from + 1, stop)
  }

  /** The last occurrence of `w` within `from..stop`. */
  function FindLast(t: string, w: string, from: nat, stop: nat): (r: Option<nat>)
    requires stop <= |t|
    ensures r.Some? ==> from <= r.value && r.value + |w| <= stop && Hit(t, w, r.value)
    ensures forall i :: from <= i && i + |w| <= stop && Hit(t, w, i) ==> r.Some? && i <= r.value
    decreases stop - from
  {
    if from + |w| > stop then None
    else if Hit(t, w, stop - |w|) then Some(stop - |w|)
    else FindLast(t, w, from, stop - 1)
  }

  // ---- Placements ----

  /** Where the value before the `i`th literal starts and stops, the literals being placed at `at`. */
  function Start(inner: seq<string>, at: seq<nat>, lo: nat, i: nat): nat
    requires i <= |at| <= |inner|
  {
    if i == 0 then lo else at[i - 1] + |inner[i - 1]|
  }

  function Stop(at: seq<nat>, hi: nat, i: nat): nat
    requires i <= |at|
  {
    if i == |at| then hi else at[i]
  }

  /** The literals stand at `at` in the text between `lo` and `hi`, in order and without overlap. */
  predicate Placed(t: string, inner: seq<string>, at: seq<nat>, lo: nat, hi: nat) {
    && |at| == |inner| && hi <= |t|
    && (forall i :: 0 <= i < |inner| ==> Hit(t, inner[i], at[i]))
    && (forall i :: 0 <= i <= |inner| ==> Start(inner, at, lo, i) <= Stop(at, hi, i))
  }

  /** Each literal at its first occurrence behind the one before it. */
  function LeftPlaces(t: string, inner: seq<string>, lo: nat, hi: nat): (r: Option<seq<nat>>)
    requires hi <= |t|
    ensures r.Some? ==> |r.value| == |inner|
  {
    if inner == [] then Some([])
    else
      var f := Find(t, inner[0], lo, hi);
      if f.None? then None
      else
        var more := LeftPlaces(t, inner[1..], f.value + |inner[0]|, hi);
        if more.None? then None else Some([f.value] + more.value)
  }

  /** Each literal at its last occurrence before the one behind it. */
  function RightPlaces(t: string, inner: seq<string>, lo: nat, hi: nat): (r: Option<seq<nat>>)
    requires hi <= |t|
    ensures r.Some? ==> |r.value| == |inner|
  {
    if inner == [] then Some([])
    else
      var k := |inner| - 1;
      var f := FindLast(t, inner[k], lo, hi);
      if f.None? then None
      else
        var more := RightPlaces(t, inner[..k], lo, f.value);
        if more.None? then None else Some(more.value + [f.value])
  }

  lemma PlacedTail(t: string, inner: seq<string>, at: seq<nat>, lo: nat, hi: nat)
    requires inner != [] && |at| == |inner| && hi <= |t|
    ensures Placed(t, inner, at, lo, hi) <==>
            lo <= at[0] && Hit(t, inner[0], at[0]) && Placed(t, inner[1..], at[1..], at[0] + |inner[0]|, hi)
  {
    var w, a := inner[1..], at[1..];
    var s := at[0] + |inner[0]|;
    assert forall i :: 0 <= i < |w| ==> inner[i + 1] == w[i] && at[i + 1] == a[i];
    assert forall i :: 0 <= i <= |w| ==> Start(w, a, s, i) == Start(inner, at, lo, i + 1) && Stop(a, hi, i) == Stop(at, hi, i + 1);
    if lo <= at[0] && Hit(t, inner[0], at[0]) && Placed(t, w, a, s, hi) {
      forall i | 0 <= i < |inner| ensures Hit(t, inner[i], at[i]) {
        if i > 0 { assert Hit(t, w[i - 1], a[i - 1]); }
      }
      forall i | 0 <= i <= |inner| ensures Start(inner, at, lo, i) <= Stop(at, hi, i) {
        if i > 0 { assert Start(w, a, s, i - 1) <= Stop(a, hi, i - 1); }
      }
    }
    if Placed(t, inner, at, lo, hi) {
      assert Start(inner, at, lo, 0) <= Stop(at, hi, 0);
      forall i | 0 <= i < |w| ensures Hit(t, w[i], a[i]) {
        assert Hit(t, inner[i + 1], at[i + 1]);
      }
    }
  }

  lemma PlacedInit(t: string, inner: seq<string>, at: seq<nat>, lo: nat, hi: nat)
    requires inner != [] && |at| == |inner| && hi <= |t|
    ensures var k := |inner| - 1;
            Placed(t, inner, at, lo, hi) <==>
            at[k] + |inner[k]| <= hi && Hit(t, inner[k], at[k]) && Placed(t, inner[..k], at[..k], lo, at[k])
  {
    var k := |inner| - 1;
    var w, a := inner[..k], at[..k];
    assert forall i :: 0 <= i <= k ==> Start(w, a, lo, i) == Start(inner, at, lo, i) && Stop(a, at[k], i) == Stop(at, hi, i);
    if at[k] + |inner[k]| <= hi && Hit(t, inner[k], at[k]) && Placed(t, w, a, lo, at[k]) {
      forall i | 0 <= i < |inner| ensures Hit(t, inner[i], at[i]) {
        if i < k { assert Hit(t, w[i], a[i]); }
      }
    }
    if Placed(t, inner, at, lo, hi) {
      assert Start(inner, at, lo, k + 1) <= Stop(at, hi, k + 1);
      forall i | 0 <= i < k ensures Hit(t, w[i], a[i]) {
        assert Hit(t, inner[i], at[i]);
      }
    }
  }

  /** A scan from the left that ends has placed every literal. */
  lemma {:induction false} LeftIsPlaced(t: string, inner: seq<string>, lo: nat, hi: nat)
    requires lo <= hi <= |t| && LeftPlaces(t, inner, lo, hi).Some?
    ensures Placed(t, inner, LeftPlaces(t, inner, lo, hi).value, lo, hi)
  {
    if inner != [] {
      var at := LeftPlaces(t, inner, lo, hi).value;
      LeftIsPlaced(t, inner[1..], at[0] + |inner[0]|, hi);
      PlacedTail(t, inner, at, lo, hi);
    }
  }

  /** A scan from the right that ends has placed every literal. */
  lemma {:induction false} RightIsPlaced(t: string, inner: seq<string>, lo: nat, hi: nat)
    requires lo <= hi <= |t| && RightPlaces(t, inner, lo, hi).Some?
    ensures Placed(t, inner, RightPlaces(t, inner, lo, hi).value, lo, hi)
  {
    if inner != [] {
      var at := RightPlaces(t, inner, lo, hi).value;
      var k := |inner| - 1;
      RightIsPlaced(t, inner[..k], lo, at[k]);
      PlacedInit(t, inner, at, lo, hi);
    }
  }

  /** Where the literals can be placed at all, the scan from the left places them, none later than any placement. */
  lemma {:induction false} LeftComplete(t: string, inner: seq<string>, at: seq<nat>, from: nat, lo: nat, hi: nat)
    requires from <= lo && Placed(t, inner, at, lo, hi)
    ensures LeftPlaces(t, inner, from, hi).Some?
    ensures forall i :: 0 <= i < |inner| ==> LeftPlaces(t, inner, from, hi).value[i] <= at[i]
    decreases |inner|
  {
    if inner != [] {
      PlacedTail(t, inner, at, lo, hi);
      assert Start(inner[1..], at[1..], at[0] + |inner[0]|, 0) <= Stop(at[1..], hi, 0);
      BelowEnd(t, inner[1..], at[1..], at[0] + |inner[0]|, hi);
      var f := Find(t, inner[0], from, hi).value;
      LeftComplete(t, inner[1..], at[1..], f + |inner[0]|, at[0] + |inner[0]|, hi);
      hide Placed, Hit, Find;
      assert forall i :: 1 <= i < |inner| ==> at[i] == at[1..][i - 1];
    }
  }

  /** Where the literals can be placed at all, the scan from the right places them, none earlier than any placement. */
  lemma {:induction false} RightComplete(t: string, inner: seq<string>, at: seq<nat>, lo: nat, hi: nat, end: nat)
    requires hi <= end <= |t| && Placed(t, inner, at, lo, hi)
    ensures RightPlaces(t, inner, lo, end).Some?
    ensures forall i :: 0 <= i < |inner| ==> at[i] <= RightPlaces(t, inner, lo, end).value[i]
    decreases |inner|
  {
    if inner != [] {
      var k := |inner| - 1;
      PlacedInit(t, inner, at, lo, hi);
      BelowEnd(t, inner[..k], at[..k], lo, at[k]);
      var f := FindLast(t, inner[k], lo, end).value;
      RightComplete(t, inner[..k], at[..k], lo, at[k], f);
    }
  }

  lemma {:induction false} BelowEnd(t: string, inner: seq<string>, at: seq<nat>, lo: nat, hi: nat)
    requires Placed(t, inner, at, lo, hi)
    ensures lo <= hi
  {
    assert Start(inner, at, lo, 0) <= Stop(at, hi, 0);
    if inner != [] {
      PlacedTail(t, inner, at, lo, hi);
      BelowEnd(t, inner[1..], at[1..], at[0] + |inner[0]|, hi);
    }
  }

  /** Each scan succeeds exactly when the literals can be placed in order without overlap. */
  lemma ScansAreComplete(t: string, inner: seq<string>, lo: nat, hi: nat)
    requires lo <= hi <= |t|
    ensures LeftPlaces(t, inner, lo, hi).Some? <==> exists at :: Placed(t, inner, at, lo, hi)
    ensures RightPlaces(t, inner, lo, hi).Some? <==> exists at :: Placed(t, inner, at, lo, hi)
  {
    if LeftPlaces(t, inner, lo, hi).Some? { LeftIsPlaced(t, inner, lo, hi); }
    if RightPlaces(t, inner, lo, hi).Some? { RightIsPlaced(t, inner, lo, hi); }
    if at :| Placed(t, inner, at, lo, hi) {
      LeftComplete(t, inner, at, lo, lo, hi);
      RightComplete(t, inner, at, lo, hi, hi);
    }
  }

  /** The two scans agree exactly when there is one placement. */
  lemma ScansAgreeIffUnique(t: string, inner: seq<string>, lo: nat, hi: nat)
    requires lo <= hi <= |t| && LeftPlaces(t, inner, lo, hi).Some?
    ensures LeftPlaces(t, inner, lo, hi) == RightPlaces(t, inner, lo, hi) <==>
            forall at, at' :: Placed(t, inner, at, lo, hi) && Placed(t, inner, at', lo, hi) ==> at == at'
  {
    var left := LeftPlaces(t, inner, lo, hi).value;
    LeftIsPlaced(t, inner, lo, hi);
    RightComplete(t, inner, left, lo, hi, hi);
    RightIsPlaced(t, inner, lo, hi);
    var right := RightPlaces(t, inner, lo, hi).value;
    if left == right {
      forall at | Placed(t, inner, at, lo, hi) ensures at == left {
        LeftComplete(t, inner, at, lo, lo, hi);
        RightComplete(t, inner, at, lo, hi, hi);
        assert forall i :: 0 <= i < |at| ==> at[i] == left[i];
      }
    }
  }

  // ---- Values ----

  function ValueAt(t: string, inner: seq<string>, at: seq<nat>, lo: nat, hi: nat, i: nat): string
    requires |at| == |inner| && i <= |at|
  {
    if Start(inner, at, lo, i) <= Stop(at, hi, i) <= |t| then t[Start(inner, at, lo, i)..Stop(at, hi, i)] else ""
  }

  function Values(t: string, inner: seq<string>, at: seq<nat>, lo: nat, hi: nat): seq<string>
    requires |at| == |inner|
  {
    seq(|inner| + 1, i requires 0 <= i <= |inner| => ValueAt(t, inner, at, lo, hi, i))
  }

  /** Values with a literal between each and the next. */
  function Woven(values: seq<string>, inner: seq<string>): string
    requires |values| == |inner| + 1
  {
    if inner == [] then values[0] else values[0] + inner[0] + Woven(values[1..], inner[1..])
  }

  lemma ValuesTail(t: string, inner: seq<string>, at: seq<nat>, lo: nat, hi: nat)
    requires inner != [] && Placed(t, inner, at, lo, hi)
    ensures var s := at[0] + |inner[0]|;
            && lo <= at[0] <= s <= hi && Placed(t, inner[1..], at[1..], s, hi)
            && Values(t, inner, at, lo, hi) == [t[lo..at[0]]] + Values(t, inner[1..], at[1..], s, hi)
  {
    PlacedTail(t, inner, at, lo, hi);
    var s := at[0] + |inner[0]|;
    BelowEnd(t, inner[1..], at[1..], s, hi);
    hide Placed, Hit;
    assert ValueAt(t, inner, at, lo, hi, 0) == t[lo..at[0]];
    forall i | 0 <= i <= |inner| - 1
      ensures ValueAt(t, inner, at, lo, hi, i + 1) == ValueAt(t, inner[1..], at[1..], s, hi, i)
    {
      ValueTail(t, inner, at, lo, hi, i);
    }
    hide ValueAt;
    assert Values(t, inner, at, lo, hi) == [t[lo..at[0]]] + Values(t, inner[1..], at[1..], s, hi);
  }

  lemma ValueTail(t: string, inner: seq<string>, at: seq<nat>, lo: nat, hi: nat, i: nat)
    requires |at| == |inner| > i
    ensures ValueAt(t, inner, at, lo, hi, i + 1) == ValueAt(t, inner[1..], at[1..], at[0] + |inner[0]|, hi, i)
  {
    assert Start(inner[1..], at[1..], at[0] + |inner[0]|, i) == Start(inner, at, lo, i + 1);
    assert Stop(at[1..], hi, i) == Stop(at, hi, i + 1);
  }

  lemma ValuesInit(t: string, inner: seq<string>, at: seq<nat>, lo: nat, hi: nat)
    requires inner != [] && Placed(t, inner, at, lo, hi)
    ensures var k := |inner| - 1;
            && at[k] + |inner[k]| <= hi && Placed(t, inner[..k], at[..k], lo, at[k])
            && Values(t, inner, at, lo, hi) ==
               Values(t, inner[..k], at[..k], lo, at[k]) + [t[at[k] + |inner[k]|..hi]]
  {
    PlacedInit(t, inner, at, lo, hi);
    var k := |inner| - 1;
    hide Placed, Hit;
    assert ValueAt(t, inner, at, lo, hi, k + 1) == t[at[k] + |inner[k]|..hi];
    forall i | 0 <= i <= k
      ensures ValueAt(t, inner, at, lo, hi, i) == ValueAt(t, inner[..k], at[..k], lo, at[k], i)
    {
      assert Start(inner[..k], at[..k], lo, i) == Start(inner, at, lo, i);
      assert Stop(at[..k], at[k], i) == Stop(at, hi, i);
    }
    hide ValueAt;
    assert Values(t, inner, at, lo, hi)
        == Values(t, inner[..k], at[..k], lo, at[k]) + [t[at[k] + |inner[k]|..hi]];
  }

  /** The literals and the values between them, nothing stripped, are the text again. */
  lemma {:induction false} ValuesRebuild(t: string, inner: seq<string>, at: seq<nat>, lo: nat, hi: nat)
    requires Placed(t, inner, at, lo, hi)
    ensures lo <= hi && Woven(Values(t, inner, at, lo, hi), inner) == t[lo..hi]
  {
    BelowEnd(t, inner, at, lo, hi);
    if inner != [] {
      ValuesTail(t, inner, at, lo, hi);
      var s := at[0] + |inner[0]|;
      ValuesRebuild(t, inner[1..], at[1..], s, hi);
      assert Hit(t, inner[0], at[0]);
      hide Placed, Values;
      assert t[lo..hi] == t[lo..at[0]] + t[at[0]..s] + t[s..hi];
    }
  }

  // ---- The scans ----

  /** `out` before and after what is still to come, if anything comes. */
  function Before(out: seq<string>, more: Option<seq<string>>): Option<seq<string>> {
    if more.None? then None else Some(out + more.value)
  }

  function After(more: Option<seq<string>>, out: seq<string>): Option<seq<string>> {
    if more.None? then None else Some(more.value + out)
  }

  lemma Joins(a: seq<string>, b: seq<string>, more: Option<seq<string>>)
    ensures Before(a, Before(b, more)) == Before(a + b, more)
    ensures After(After(more, a), b) == After(more, a + b)
    ensures Before([], more) == more == After(more, [])
  {
    if more.Some? {
      assert a + (b + more.value) == (a + b) + more.value && (more.value + a) + b == more.value + (a + b);
      assert [] + more.value == more.value == more.value + [];
    }
  }

  /** The values a scan from the left reads. */
  function LeftValues(t: string, inner: seq<string>, lo: nat, hi: nat): Option<seq<string>>
    requires lo <= hi <= |t|
  {
    if inner == [] then Some([t[lo..hi]])
    else
      var f := Find(t, inner[0], lo, hi);
      if f.None? then None else Before([t[lo..f.value]], LeftValues(t, inner[1..], f.value + |inner[0]|, hi))
  }

  /** The values a scan from the right reads. */
  function RightValues(t: string, inner: seq<string>, lo: nat, hi: nat): Option<seq<string>>
    requires lo <= hi <= |t|
  {
    if inner == [] then Some([t[lo..hi]])
    else
      var k := |inner| - 1;
      var f := FindLast(t, inner[k], lo, hi);
      if f.None? then None else After(RightValues(t, inner[..k], lo, f.value), [t[f.value + |inner[k]|..hi]])
  }

  lemma OneValue(t: string, lo: nat, hi: nat)
    requires lo <= hi <= |t|
    ensures Values(t, [], [], lo, hi) == [t[lo..hi]]
  {
    assert ValueAt(t, [], [], lo, hi, 0) == t[lo..hi];
  }

  /** They are the values between the literals of its placement; it reads none only when there is no placement. */
  lemma {:induction false} LeftValuesPlaced(t: string, inner: seq<string>, lo: nat, hi: nat)
    requires lo <= hi <= |t|
    ensures LeftValues(t, inner, lo, hi).Some? <==> LeftPlaces(t, inner, lo, hi).Some?
    ensures LeftPlaces(t, inner, lo, hi).Some? ==>
              LeftValues(t, inner, lo, hi).value == Values(t, inner, LeftPlaces(t, inner, lo, hi).value, lo, hi)
    decreases |inner|
  {
    hide Values, Placed, Find;
    assert inner == [] ==> Values(t, [], [], lo, hi) == [t[lo..hi]] by { OneValue(t, lo, hi); }
    if inner != [] && Find(t, inner[0], lo, hi).Some? {
      LeftValuesPlaced(t, inner[1..], Find(t, inner[0], lo, hi).value + |inner[0]|, hi);
      if LeftPlaces(t, inner, lo, hi).Some? {
        LeftIsPlaced(t, inner, lo, hi);
        ValuesTail(t, inner, LeftPlaces(t, inner, lo, hi).value, lo, hi);
      }
    }
  }

  lemma {:induction false} RightValuesPlaced(t: string, inner: seq<string>, lo: nat, hi: nat)
    requires lo <= hi <= |t|
    ensures RightValues(t, inner, lo, hi).Some? <==> RightPlaces(t, inner, lo, hi).Some?
    ensures RightPlaces(t, inner, lo, hi).Some? ==>
              RightValues(t, inner, lo, hi).value == Values(t, inner, RightPlaces(t, inner, lo, hi).value, lo, hi)
    decreases |inner|
  {
    hide Values, Placed, FindLast;
    assert inner == [] ==> Values(t, [], [], lo, hi) == [t[lo..hi]] by { OneValue(t, lo, hi); }
    if inner != [] {
      var k := |inner| - 1;
      var f := FindLast(t, inner[k], lo, hi);
      if f.Some? {
        RightValuesPlaced(t, inner[..k], lo, f.value);
        if RightPlaces(t, inner, lo, hi).Some? {
          RightIsPlaced(t, inner, lo, hi);
          ValuesInit(t, inner, RightPlaces(t, inner, lo, hi).value, lo, hi);
        }
      }
    }
  }

  /** Each scan reads the values between the literals of a placement, and none exactly when there is no placement. */
  lemma LeftExact(t: string, inner: seq<string>, lo: nat, hi: nat) returns (at: seq<nat>)
    requires lo <= hi <= |t|
    ensures LeftValues(t, inner, lo, hi).Some? <==> exists at' :: Placed(t, inner, at', lo, hi)
    ensures LeftValues(t, inner, lo, hi).Some? ==>
              Placed(t, inner, at, lo, hi) && LeftValues(t, inner, lo, hi).value == Values(t, inner, at, lo, hi)
  {
    hide Placed, Values;
    ScansAreComplete(t, inner, lo, hi);
    LeftValuesPlaced(t, inner, lo, hi);
    at := [];
    if LeftPlaces(t, inner, lo, hi).Some? {
      LeftIsPlaced(t, inner, lo, hi);
      at := LeftPlaces(t, inner, lo, hi).value;
    }
  }

  lemma RightExact(t: string, inner: seq<string>, lo: nat, hi: nat) returns (at: seq<nat>)
    requires lo <= hi <= |t|
    ensures RightValues(t, inner, lo, hi).Some? <==> exists at' :: Placed(t, inner, at', lo, hi)
    ensures RightValues(t, inner, lo, hi).Some? ==>
              Placed(t, inner, at, lo, hi) && RightValues(t, inner, lo, hi).value == Values(t, inner, at, lo, hi)
  {
    hide Placed, Values;
    ScansAreComplete(t, inner, lo, hi);
    RightValuesPlaced(t, inner, lo, hi);
    at := [];
    if RightPlaces(t, inner, lo, hi).Some? {
      RightIsPlaced(t, inner, lo, hi);
      at := RightPlaces(t, inner, lo, hi).value;
    }
  }

  /** The scan from the left. */
  method ScanLeft(t: string, inner: seq<string>, lo: nat, hi: nat) returns (values: Option<seq<string>>)
    requires lo <= hi <= |t|
    ensures values == LeftValues(t, inner, lo, hi)
  {
    var out: seq<string> := [];
    var pos := lo;
    assert inner[0..] == inner;
    Joins([], [], LeftValues(t, inner, lo, hi));
    for i := 0 to |inner|
      invariant lo <= pos <= hi
      invariant LeftValues(t, inner, lo, hi) == Before(out, LeftValues(t, inner[i..], pos, hi))
    {
      var f := Find(t, inner[i], pos, hi);
      if f.None? {
        return None;
      }
      assert inner[i..][1..] == inner[i + 1..];
      Joins(out, [t[pos..f.value]], LeftValues(t, inner[i + 1..], f.value + |inner[i]|, hi));
      out := out + [t[pos..f.value]];
      pos := f.value + |inner[i]|;
    }
    values := Some(out + [t[pos..hi]]);
  }

  /** Values collected from the right, in reverse. */
  function Reversed<T>(s: seq<T>): (r: seq<T>)
    ensures |r| == |s| && forall i :: 0 <= i < |s| ==> r[i] == s[|s| - 1 - i]
  {
    if s == [] then [] else [s[|s| - 1]] + Reversed(s[..|s| - 1])
  }

  lemma ReversedPush<T>(s: seq<T>, x: T)
    ensures Reversed(s + [x]) == [x] + Reversed(s)
  {
    assert (s + [x])[..|s|] == s;
  }

  /** The scan from the right. */
  method ScanRight(t: string, inner: seq<string>, lo: nat, hi: nat) returns (values: Option<seq<string>>)
    requires lo <= hi <= |t|
    ensures values == RightValues(t, inner, lo, hi)
  {
    var out: seq<string> := [];
    var end := hi;
    var left := |inner|;
    assert inner[..left] == inner && Reversed(out) == [];
    hide Reversed, Hit;
    Joins([], [], RightValues(t, inner, lo, hi));
    while left > 0
      invariant lo <= end <= hi && left <= |inner|
      invariant RightValues(t, inner, lo, hi) == After(RightValues(t, inner[..left], lo, end), Reversed(out))
    {
      var w := inner[left - 1];
      var f := FindLast(t, w, lo, end);
      if f.None? {
        return None;
      }
      var value := t[f.value + |w|..end];
      assert inner[..left][..left - 1] == inner[..left - 1];
      Joins([value], Reversed(out), RightValues(t, inner[..left - 1], lo, f.value));
      ReversedPush(out, value);
      out := out + [value];
      end := f.value;
      left := left - 1;
    }
    ReversedPush(out, t[lo..end]);
    out := out + [t[lo..end]];
    values := Some(Reversed(out));
  }
}
