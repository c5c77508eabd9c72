/** From an edited seed back to the one answer set that renders to it (levain/answers.py, `_split`, `extract_answers`). */
module AnswerExtract {
  import opened Wrappers
  import opened Strings
  import opened AnswerAnchors

  type Answers = map<string, string>

  datatype AdoptError = TooManyCombinations | SideBySide | Differs | Ambiguous

  // ---- Skeletons ----

  const OPEN_MARK := '\U{E000}'
  const CLOSE_MARK := '\U{E001}'

  /** A render with a marked name in place of each value: its literals, and the names between them. */
  datatype Skeleton = Skeleton(lits: seq<string>, names: seq<string>)

  function Sentinel(slot: string): string {
    [OPEN_MARK] + slot + [CLOSE_MARK]
  }

  function NameOf(piece: string): string {
    piece[..FirstOf(piece, CLOSE_MARK)]
  }

  function LitOf(piece: string): string {
    var n := FirstOf(piece, CLOSE_MARK);
    if n == |piece| then "" else piece[n + 1..]
  }

  function ReadSkeleton(s: string): (sk: Skeleton)
    ensures |sk.lits| == |sk.names| + 1
  {
    FromPieces(SplitOn(s, OPEN_MARK))
  }

  function FromPieces(parts: seq<string>): (sk: Skeleton)
    requires parts != []
    ensures |sk.lits| == |sk.names| + 1
  {
    Skeleton([parts[0]] + seq(|parts| - 1, i requires 0 <= i < |parts| - 1 => LitOf(parts[i + 1])),
             seq(|parts| - 1, i requires 0 <= i < |parts| - 1 => NameOf(parts[i + 1])))
  }

  /** The text with these literals around sentinels of these names. */
  function WriteSkeleton(sk: Skeleton): string
    requires |sk.lits| == |sk.names| + 1
    decreases |sk.names|
  {
    if sk.names == [] then sk.lits[0]
    else sk.lits[0] + Sentinel(sk.names[0]) + WriteSkeleton(Skeleton(sk.lits[1..], sk.names[1..]))
  }

  predicate Markless(s: string) {
    OPEN_MARK !in s && CLOSE_MARK !in s
  }

  function Pieces(sk: Skeleton): seq<string>
    requires |sk.lits| == |sk.names| + 1
  {
    [sk.lits[0]] + seq(|sk.names|, i requires 0 <= i < |sk.names| => sk.names[i] + [CLOSE_MARK] + sk.lits[i + 1])
  }

  lemma {:induction false} WrittenIsJoined(sk: Skeleton)
    requires |sk.lits| == |sk.names| + 1
    ensures WriteSkeleton(sk) == JoinWith(Pieces(sk), OPEN_MARK)
    decreases |sk.names|
  {
    if sk.names != [] {
      var tail := Skeleton(sk.lits[1..], sk.names[1..]);
      WrittenIsJoined(tail);
      var ps, qs := Pieces(sk), Pieces(tail);
      assert ps[1..][1..] == qs[1..];
      assert ps[1] == sk.names[0] + [CLOSE_MARK] + qs[0];
      var head := sk.names[0] + [CLOSE_MARK];
      JoinHead(head, qs[0], qs[1..], OPEN_MARK);
      assert ps[1..] == [head + qs[0]] + qs[1..] && qs == [qs[0]] + qs[1..];
    }
  }

  lemma JoinHead(head: string, first: string, more: seq<string>, c: char)
    ensures JoinWith([head + first] + more, c) == head + JoinWith([first] + more, c)
  {
    assert ([head + first] + more)[1..] == more && ([first] + more)[1..] == more;
  }

  /** A render of sentinels is read back as the literals and names it was made of. */
  lemma SkeletonRoundTrip(sk: Skeleton)
    requires |sk.lits| == |sk.names| + 1
    requires forall i :: 0 <= i < |sk.lits| ==> Markless(sk.lits[i])
    requires forall i :: 0 <= i < |sk.names| ==> Markless(sk.names[i])
    ensures ReadSkeleton(WriteSkeleton(sk)) == sk
  {
    WrittenIsJoined(sk);
    var ps := Pieces(sk);
    forall i | 0 <= i < |ps| ensures OPEN_MARK !in ps[i] {
      if i > 0 { assert Markless(sk.names[i - 1]) && Markless(sk.lits[i]); }
    }
    JoinSplits(ps, OPEN_MARK);
    hide SplitOn, JoinWith, WriteSkeleton, Markless;
    PiecesRead(sk);
  }

  lemma PiecesRead(sk: Skeleton)
    requires |sk.lits| == |sk.names| + 1
    requires forall i :: 0 <= i < |sk.names| ==> Markless(sk.names[i])
    ensures FromPieces(Pieces(sk)) == sk
  {
    var ps := Pieces(sk);
    forall i | 0 <= i < |sk.names| ensures NameOf(ps[i + 1]) == sk.names[i] && LitOf(ps[i + 1]) == sk.lits[i + 1] {
      PieceReads(sk.names[i], sk.lits[i + 1]);
    }
    hide NameOf, LitOf, Markless;
    assert FromPieces(ps).names == sk.names;
    assert FromPieces(ps).lits == sk.lits;
  }

  lemma PieceReads(name: string, lit: string)
    requires CLOSE_MARK !in name
    ensures NameOf(name + [CLOSE_MARK] + lit) == name && LitOf(name + [CLOSE_MARK] + lit) == lit
  {
    var piece := name + [CLOSE_MARK] + lit;
    assert piece[|name|] == CLOSE_MARK && forall i :: 0 <= i < |name| ==> piece[i] == name[i];
    assert FirstOf(piece, CLOSE_MARK) == |name|;
  }

  // ---- One skeleton against the seed ----

  function Trimmed(lits: seq<string>): (r: seq<string>)
    ensures |r| == |lits|
  {
    seq(|lits|, i requires 0 <= i < |lits| => Trim(lits[i]))
  }

  /** The literals strictly between two fields, stripped. */
  function Inner(sk: Skeleton): (r: seq<string>)
    requires |sk.lits| == |sk.names| + 1 && sk.names != []
    ensures |r| + 1 == |sk.names|
  {
    Trimmed(sk.lits[1..|sk.names|])
  }

  function First(sk: Skeleton): string
    requires |sk.lits| == |sk.names| + 1
  {
    TrimEnd(sk.lits[0])
  }

  function Last(sk: Skeleton): string
    requires |sk.lits| == |sk.names| + 1
  {
    TrimStart(sk.lits[|sk.names|])
  }

  /** The seed starts with the first literal and ends, clear of it, with the last. */
  predicate EndsFit(target: string, sk: Skeleton)
    requires |sk.lits| == |sk.names| + 1
  {
    && |First(sk)| + |Last(sk)| <= |target|
    && target[..|First(sk)|] == First(sk) && target[|target| - |Last(sk)|..] == Last(sk)
  }

  /** A seed fits a skeleton's ends when it starts with the first literal, the white space at its end off, and ends behind that
      with the last, the white space at its start off; between fields a literal counts without the white space around it. */
  lemma LiteralsAreStripped(target: string, sk: Skeleton)
    requires |sk.lits| == |sk.names| + 1
    ensures EndsFit(target, sk) <==>
              exists a: nat, b: nat :: a <= b <= |target| && target[..a] == TrimEnd(sk.lits[0])
                                       && target[b..] == TrimStart(sk.lits[|sk.names|])
    ensures sk.names != [] ==> forall i :: 0 <= i < |Inner(sk)| ==> Inner(sk)[i] == Trim(sk.lits[i + 1])
  {
    hide TrimEnd, TrimStart, Trim;
    if EndsFit(target, sk) {
      var a, b := |First(sk)|, |target| - |Last(sk)|;
      assert a <= b <= |target| && target[..a] == TrimEnd(sk.lits[0]) && target[b..] == TrimStart(sk.lits[|sk.names|]);
    }
  }

  /** The value of every name; none when a name has two. */
  function Gather<K(==), V(==)>(names: seq<K>, values: seq<V>): Option<map<K, V>>
    requires |names| == |values|
  {
    if names == [] then Some(map[])
    else
      var k := |names| - 1;
      var before := Gather(names[..k], values[..k]);
      if before.None? || (names[k] in before.value && before.value[names[k]] != values[k]) then None
      else Some(before.value[names[k] := values[k]])
  }

  /** It gives every name its own value, unless two of a name's values differ: then those two are at `i` and `j`. */
  lemma {:induction false} GatherExact<K, V>(names: seq<K>, values: seq<V>) returns (i: nat, j: nat)
    requires |names| == |values|
    ensures Gather(names, values).None? ==> i < j < |names| && names[i] == names[j] && values[i] != values[j]
    ensures Gather(names, values).Some? ==>
              && (forall n :: n in Gather(names, values).value <==> n in names)
              && forall k :: 0 <= k < |names| ==> Gather(names, values).value[names[k]] == values[k]
  {
    i, j := 0, 0;
    if names != [] {
      var k := |names| - 1;
      i, j := GatherExact(names[..k], values[..k]);
      var before := Gather(names[..k], values[..k]);
      assert names == names[..k] + [names[k]];
      if before.Some? && names[k] in before.value && before.value[names[k]] != values[k] {
        i :| 0 <= i < k && names[..k][i] == names[k];
        j := k;
      }
    }
  }

  /** What one scan of the seed by one skeleton gives: its values, nothing, or a refusal outright. */
  function ReadBack(target: string, skeleton: string, fromRight: bool): Result<Option<Answers>, AdoptError> {
    var sk := ReadSkeleton(skeleton);
    if sk.names == [] then Ok(if target == skeleton then Some(map[]) else None)
    else if !EndsFit(target, sk) then Ok(None)
    else if "" in Inner(sk) then Err(SideBySide)
    else
      var values := ScanValues(target, sk, fromRight);
      if values.None? || |values.value| != |sk.names| then Ok(None) else Ok(Gather(sk.names, Trimmed(values.value)))
  }

  function ScanValues(target: string, sk: Skeleton, fromRight: bool): Option<seq<string>>
    requires |sk.lits| == |sk.names| + 1 && sk.names != [] && EndsFit(target, sk)
  {
    var lo, hi := |First(sk)|, |target| - |Last(sk)|;
    if fromRight then RightValues(target, Inner(sk), lo, hi) else LeftValues(target, Inner(sk), lo, hi)
  }

  /** The inner literals of the skeleton stand at `at`, between its ends. */
  predicate Fits(target: string, sk: Skeleton, at: seq<nat>)
    requires |sk.lits| == |sk.names| + 1 && sk.names != [] && EndsFit(target, sk)
  {
    Placed(target, Inner(sk), at, |First(sk)|, |target| - |Last(sk)|)
  }

  /** The values between the literals at `at`, nothing stripped. */
  function ValuesOf(target: string, sk: Skeleton, at: seq<nat>): (r: seq<string>)
    requires |sk.lits| == |sk.names| + 1 && sk.names != [] && EndsFit(target, sk) && Fits(target, sk, at)
    ensures |r| == |sk.names|
  {
    Values(target, Inner(sk), at, |First(sk)|, |target| - |Last(sk)|)
  }

  lemma ScanExact(target: string, sk: Skeleton, fromRight: bool) returns (at: seq<nat>)
    requires |sk.lits| == |sk.names| + 1 && sk.names != [] && EndsFit(target, sk)
    ensures ScanValues(target, sk, fromRight).Some? <==> exists at' :: Fits(target, sk, at')
    ensures ScanValues(target, sk, fromRight).Some? ==>
              Fits(target, sk, at) && ScanValues(target, sk, fromRight).value == ValuesOf(target, sk, at)
  {
    var lo, hi := |First(sk)|, |target| - |Last(sk)|;
    var inner := Inner(sk);
    hide First, Last, Inner, Placed, Values, LeftValues, RightValues;
    if fromRight {
      at := RightExact(target, inner, lo, hi);
    } else {
      at := LeftExact(target, inner, lo, hi);
    }
    assert forall at' :: Fits(target, sk, at') <==> Placed(target, inner, at', lo, hi);
  }

  /** The literals and the values between them, nothing stripped, make the seed again. */
  lemma FitRebuilds(target: string, sk: Skeleton, at: seq<nat>)
    requires |sk.lits| == |sk.names| + 1 && sk.names != [] && EndsFit(target, sk) && Fits(target, sk, at)
    ensures First(sk) + Woven(ValuesOf(target, sk, at), Inner(sk)) + Last(sk) == target
  {
    hide Placed, Values, Woven, First, Last, Inner;
    ValuesRebuild(target, Inner(sk), at, |First(sk)|, |target| - |Last(sk)|);
    InThree(target, First(sk), Last(sk));
  }

  lemma InThree(t: string, first: string, last: string)
    requires |first| + |last| <= |t| && t[..|first|] == first && t[|t| - |last|..] == last
    ensures first + t[|first|..|t| - |last|] + last == t
  {
  }

  /** One scan is complete and exact. It finds a reading only as the stripped values between a placement of the
      literals, which with them make the seed again; it finds none only where the literals can be placed nowhere, or
      where in some placement one slot reads two ways. */
  lemma ReadBackExact(target: string, skeleton: string, fromRight: bool) returns (at: seq<nat>)
    requires ReadSkeleton(skeleton).names != [] && EndsFit(target, ReadSkeleton(skeleton))
    requires "" !in Inner(ReadSkeleton(skeleton))
    ensures var sk, r := ReadSkeleton(skeleton), ReadBack(target, skeleton, fromRight);
            && r.Ok?
            && (r.value.Some? ==> && Fits(target, sk, at) && r.value == Gather(sk.names, Trimmed(ValuesOf(target, sk, at)))
                                  && First(sk) + Woven(ValuesOf(target, sk, at), Inner(sk)) + Last(sk) == target)
            && (r.value.None? ==> || (forall at' :: !Fits(target, sk, at'))
                                  || (Fits(target, sk, at) && Gather(sk.names, Trimmed(ValuesOf(target, sk, at))).None?))
  {
    var sk := ReadSkeleton(skeleton);
    hide First, Last, Inner, Fits, Gather, ScanValues, ReadSkeleton, EndsFit, Woven, ValuesOf;
    at := ScanExact(target, sk, fromRight);
    if ScanValues(target, sk, fromRight).Some? {
      FitRebuilds(target, sk, at);
    }
  }

  /** Literals that can be placed in one way only give one reading, from either side: the values between them. */
  lemma OnePlacementOneReading(target: string, skeleton: string, at: seq<nat>)
    requires ReadSkeleton(skeleton).names != [] && EndsFit(target, ReadSkeleton(skeleton))
    requires "" !in Inner(ReadSkeleton(skeleton))
    requires Fits(target, ReadSkeleton(skeleton), at)
    requires forall at' :: Fits(target, ReadSkeleton(skeleton), at') ==> at' == at
    ensures forall fromRight ::
      ReadBack(target, skeleton, fromRight)
      == Ok(Gather(ReadSkeleton(skeleton).names, Trimmed(ValuesOf(target, ReadSkeleton(skeleton), at))))
  {
    hide ReadSkeleton, EndsFit, Inner, Fits, ValuesOf, Gather, ReadBack;
    forall fromRight
      ensures ReadBack(target, skeleton, fromRight)
              == Ok(Gather(ReadSkeleton(skeleton).names, Trimmed(ValuesOf(target, ReadSkeleton(skeleton), at))))
    {
      var at' := ReadBackExact(target, skeleton, fromRight);
    }
  }

  /** The loops of one scan. */
  method Split(target: string, skeleton: string, fromRight: bool) returns (r: Result<Option<Answers>, AdoptError>)
    ensures r == ReadBack(target, skeleton, fromRight)
  {
    hide ReadSkeleton, Inner, First, Last, Gather, LeftValues, RightValues;
    var sk := ReadSkeleton(skeleton);
    if sk.names == [] {
      return Ok(if target == skeleton then Some(map[]) else None);
    }
    if !EndsFit(target, sk) {
      return Ok(None);
    }
    var lo, hi := |First(sk)|, |target| - |Last(sk)|;
    var inner := Inner(sk);
    for i := 0 to |inner|
      invariant "" !in inner[..i]
    {
      if inner[i] == "" {
        return Err(SideBySide);
      }
    }
    assert inner[..|inner|] == inner;
    var values: Option<seq<string>>;
    if fromRight {
      values := ScanRight(target, inner, lo, hi);
    } else {
      values := ScanLeft(target, inner, lo, hi);
    }
    if values.None? {
      return Ok(None);
    }
    ghost var at := ScanExact(target, sk, fromRight);
    var found := GatherAll(sk.names, values.value);
    return Ok(found);
  }

  /** The stripped values by name, in one pass; a slot seen twice must read the same both times. */
  method GatherAll(names: seq<string>, values: seq<string>) returns (r: Option<Answers>)
    requires |names| == |values|
    ensures r == Gather(names, Trimmed(values))
  {
    hide Trim;
    var out: Answers := map[];
    ghost var stripped := Trimmed(values);
    for i := 0 to |names|
      invariant Gather(names[..i], stripped[..i]) == Some(out)
    {
      assert names[..i + 1][..i] == names[..i] && stripped[..i + 1][..i] == stripped[..i];
      var value := Trim(values[i]);
      if names[i] in out && out[names[i]] != value {
        GatherStaysNone(names, stripped, i + 1);
        return None;
      }
      out := out[names[i] := value];
    }
    assert names[..|names|] == names && stripped[..|values|] == stripped;
    return Some(out);
  }

  lemma {:induction false} GatherStaysNone<K, V>(names: seq<K>, values: seq<V>, k: nat)
    requires |names| == |values| && k <= |names| && Gather(names[..k], values[..k]).None?
    ensures Gather(names, values).None?
    decreases |names| - k
  {
    if k < |names| {
      assert names[..k + 1][..k] == names[..k] && values[..k + 1][..k] == values[..k];
      GatherStaysNone(names, values, k + 1);
    } else {
      assert names[..k] == names && values[..k] == values;
    }
  }
}
