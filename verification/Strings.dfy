/** White space and splitting, as the standard library of the program's language has them, over ASCII. */
module Strings {
  predicate IsSpace(c: char) {
    c == ' ' || '\t' <= c <= '\r' || '\U{1c}' <= c <= '\U{1f}'
  }

  /** The first position at which white space stops. */
  function SpanSpaces(s: string): (n: nat)
    ensures n <= |s| && (n < |s| ==> !IsSpace(s[n]))
  {
    if s != "" && IsSpace(s[0]) then 1 + SpanSpaces(s[1..]) else 0
  }

  function TrimEnd(s: string): string {
    if s != "" && IsSpace(s[|s| - 1]) then TrimEnd(s[..|s| - 1]) else s
  }

  function TrimStart(s: string): string {
    s[SpanSpaces(s)..]
  }

  function Trim(s: string): string {
    TrimEnd(TrimStart(s))
  }

  /** Stripping takes the white space off the end and the start, and nothing else. */
  lemma {:induction false} TrimEndStrips(s: string)
    ensures TrimEnd(s) <= s && (TrimEnd(s) != "" ==> !IsSpace(TrimEnd(s)[|TrimEnd(s)| - 1]))
    ensures forall i :: |TrimEnd(s)| <= i < |s| ==> IsSpace(s[i])
  {
    if s != "" && IsSpace(s[|s| - 1]) {
      TrimEndStrips(s[..|s| - 1]);
    }
  }

  lemma {:induction false} SpanIsSpace(s: string)
    ensures forall i :: 0 <= i < SpanSpaces(s) ==> IsSpace(s[i])
  {
    if s != "" && IsSpace(s[0]) {
      SpanIsSpace(s[1..]);
      assert forall i :: 0 < i < |s| ==> s[i] == s[1..][i - 1];
    }
  }

  lemma TrimStrips(s: string) returns (a: nat, b: nat)
    ensures a <= b <= |s| && Trim(s) == s[a..b]
    ensures forall i :: 0 <= i < |s| && (i < a || b <= i) ==> IsSpace(s[i])
    ensures a < b ==> !IsSpace(s[a]) && !IsSpace(s[b - 1])
  {
    a := SpanSpaces(s);
    SpanIsSpace(s);
    TrimEndStrips(s[a..]);
    b := a + |Trim(s)|;
  }

  /** Where `c` first stands, or the length. */
  function FirstOf(text: string, c: char): (n: nat)
    ensures n <= |text| && (n < |text| ==> text[n] == c)
    ensures forall i :: 0 <= i < n ==> text[i] != c
  {
    if text == "" || text[0] == c then 0 else 1 + FirstOf(text[1..], c)
  }

  /** The text between the occurrences of `c`. */
  function SplitOn(text: string, c: char): (parts: seq<string>)
    ensures parts != []
    decreases |text|
  {
    var n := FirstOf(text, c);
    if n == |text| then [text] else [text[..n]] + SplitOn(text[n + 1..], c)
  }

  function JoinWith(parts: seq<string>, c: char): string {
    if parts == [] then "" else if |parts| == 1 then parts[0] else parts[0] + [c] + JoinWith(parts[1..], c)
  }

  lemma {:induction false} SplitJoins(text: string, c: char)
    ensures JoinWith(SplitOn(text, c), c) == text
    decreases |text|
  {
    var n := FirstOf(text, c);
    if n < |text| {
      SplitJoins(text[n + 1..], c);
      var parts, rest := SplitOn(text, c), SplitOn(text[n + 1..], c);
      assert parts == [text[..n]] + rest && parts[1..] == rest;
      hide SplitOn, FirstOf;
      assert JoinWith(parts, c) == text[..n] + [c] + JoinWith(rest, c);
      hide JoinWith;
      assert text == text[..n] + [c] + text[n + 1..];
    }
  }

  lemma {:induction false} JoinSplits(parts: seq<string>, c: char)
    requires parts != [] && forall i :: 0 <= i < |parts| ==> c !in parts[i]
    ensures SplitOn(JoinWith(parts, c), c) == parts
  {
    var text := JoinWith(parts, c);
    if |parts| > 1 {
      JoinSplits(parts[1..], c);
      var first, rest := parts[0], JoinWith(parts[1..], c);
      assert text == first + [c] + rest;
      assert text[|first|] == c && forall i :: 0 <= i < |first| ==> text[i] == first[i];
      hide JoinWith;
      assert FirstOf(text, c) == |first|;
      assert text[..|first|] == first && text[|first| + 1..] == rest;
    }
  }

  lemma {:induction false} JoinCut(parts: seq<string>, c: char, k: nat)
    requires 0 < k < |parts|
    ensures JoinWith(parts, c) == JoinWith(parts[..k], c) + [c] + JoinWith(parts[k..], c)
  {
    if k == 1 {
      assert parts[..1] == [parts[0]];
    } else {
      JoinCut(parts[1..], c, k - 1);
      assert parts[1..][..k - 1] == parts[..k][1..] && parts[1..][k - 1..] == parts[k..];
    }
  }
}
