/** The patterns of the band shorthand, each matched at the head of the rest of a line
    (levain/band_shorthand.py, the module's compiled patterns). Character classes are ASCII. */
module ShorthandText {
  import opened Wrappers
  import opened Strings

  predicate IsDigit(c: char) {
    '0' <= c <= '9'
  }

  predicate IsAlpha(c: char) {
    'a' <= c <= 'z' || 'A' <= c <= 'Z'
  }

  predicate IsAlnum(c: char) {
    IsDigit(c) || IsAlpha(c)
  }

  predicate IsSepChar(c: char) {
    c == ',' || c == ';' || IsSpace(c)
  }

  function Lower(c: char): char {
    if 'A' <= c <= 'Z' then c - 'A' + 'a' else c
  }

  function SpanDigits(s: string): (n: nat)
    ensures n <= |s| && (n < |s| ==> !IsDigit(s[n]))
    ensures forall i :: 0 <= i < n ==> IsDigit(s[i])
  {
    if s != "" && IsDigit(s[0]) then 1 + SpanDigits(s[1..]) else 0
  }

  /** The separators at the head. */
  function SpanSeps(s: string): (n: nat)
    ensures n <= |s| && (n < |s| ==> !IsSepChar(s[n]))
  {
    if s != "" && IsSepChar(s[0]) then 1 + SpanSeps(s[1..]) else 0
  }

  function DigitValue(c: char): nat
    requires IsDigit(c)
  {
    (c - '0') as nat
  }

  function Value(digits: string): nat
    requires forall i :: 0 <= i < |digits| ==> IsDigit(digits[i])
  {
    if digits == "" then 0 else 10 * Value(digits[..|digits| - 1]) + DigitValue(digits[|digits| - 1])
  }

  /** A number: 1 to 7 digits, no leading zero, no digit after. Its value and length. */
  function Num(s: string): (r: Option<(nat, nat)>)
    ensures r.Some? ==> 0 < r.value.1 <= |s|
  {
    var n := SpanDigits(s);
    if 1 <= n <= 7 && s[0] != '0' then Some((Value(s[..n]), n)) else None
  }

  /** The word at the head, in any case. */
  predicate Word(s: string, w: string) {
    |w| <= |s| && forall i :: 0 <= i < |w| ==> Lower(s[i]) == w[i]
  }

  predicate AlnumAt(s: string, n: nat) {
    n < |s| && IsAlnum(s[n])
  }

  /** `first`, one or more spaces, then `second`: its length. */
  function TwoWords(s: string, first: string, second: string): (r: Option<nat>)
    ensures r.Some? ==> |first| + |second| < r.value <= |s|
  {
    if !Word(s, first) then None
    else
      var gap := SpanSpaces(s[|first|..]);
      if gap > 0 && Word(s[|first| + gap..], second) then Some(|first| + gap + |second|) else None
  }

  /** A rec, by its alternatives in order, none followed by a letter or digit: its length. */
  function Rec(s: string): (r: Option<nat>)
    ensures r.Some? ==> 0 < r.value <= |s|
  {
    var your, you := TwoWords(s, "your", "rec"), TwoWords(s, "you", "rec");
    if your.Some? && !AlnumAt(s, your.value) then your
    else if you.Some? && !AlnumAt(s, you.value) then you
    else if Word(s, "recs") && !AlnumAt(s, 4) then Some(4)
    else if Word(s, "rec") && !AlnumAt(s, 3) then Some(3)
    else if Word(s, "r") && !AlnumAt(s, 1) then Some(1)
    else None
  }

  /** After `n` characters, one or more spaces and a rec: the whole length. */
  function ThenRec(s: string, n: nat): (r: Option<nat>)
    requires n <= |s|
    ensures r.Some? ==> n < r.value <= |s|
  {
    var gap := SpanSpaces(s[n..]);
    if gap == 0 || Rec(s[n + gap..]).None? then None else Some(n + gap + Rec(s[n + gap..]).value)
  }

  /** A sweep: `all others`, `all`, `rest` or `others`, then a rec. */
  function Sweep(s: string): (r: Option<nat>)
    ensures r.Some? ==> 0 < r.value <= |s|
  {
    var all := TwoWords(s, "all", "others");
    if all.Some? && ThenRec(s, all.value).Some? then ThenRec(s, all.value)
    else if Word(s, "all") && ThenRec(s, 3).Some? then ThenRec(s, 3)
    else if Word(s, "rest") && ThenRec(s, 4).Some? then ThenRec(s, 4)
    else if Word(s, "others") && ThenRec(s, 6).Some? then ThenRec(s, 6)
    else None
  }

  datatype Choice = TakeRec | Letter(c: char)

  predicate OptionLetter(c: char) {
    'a' <= c <= 'f'
  }

  /** A pick: a rec, a letter in brackets, or a bare letter no letter or digit follows. Its length. */
  function Pick(s: string): (r: Option<(Choice, nat)>)
    ensures r.Some? ==> 0 < r.value.1 <= |s|
    ensures r.Some? && r.value.0.Letter? ==> OptionLetter(r.value.0.c)
  {
    if Rec(s).Some? then Some((TakeRec, Rec(s).value))
    else if |s| >= 3 && s[0] == '(' && OptionLetter(Lower(s[1])) && s[2] == ')' then Some((Letter(Lower(s[1])), 3))
    else if |s| >= 1 && OptionLetter(Lower(s[0])) && !AlnumAt(s, 1) then Some((Letter(Lower(s[0])), 1))
    else None
  }

  /** What stands between a number and its pick: spaces, at most one mark, spaces. */
  function PickGap(s: string): (n: nat)
    ensures n <= |s|
  {
    var a := SpanSpaces(s);
    if a < |s| && s[a] in {':', '.', ')'} then a + 1 + SpanSpaces(s[a + 1..]) else a
  }

  /** A numbered pick: its number, choice and length. */
  function Entry(s: string): (r: Option<(nat, Choice, nat)>)
    ensures r.Some? ==> 0 < r.value.2 <= |s|
    ensures r.Some? && r.value.1.Letter? ==> OptionLetter(r.value.1.c)
  {
    if Num(s).None? then None
    else
      var (n, k) := Num(s).value;
      var g := k + PickGap(s[k..]);
      if Pick(s[g..]).None? then None else Some((n, Pick(s[g..]).value.0, g + Pick(s[g..]).value.1))
  }

  /** The head of a free text: a number, a colon and a first word. Its number, and where the words start. */
  function TextHead(s: string): (r: Option<(nat, nat)>)
    ensures r.Some? ==> 0 < r.value.1 < |s|
  {
    if Num(s).None? then None
    else
      var (n, k) := Num(s).value;
      var c := k + SpanSpaces(s[k..]);
      if c < |s| && s[c] == ':' && c + 1 + SpanSpaces(s[c + 1..]) < |s|
      then Some((n, c + 1 + SpanSpaces(s[c + 1..]))) else None
  }

  /** A note: spaces, `because`, `but` or a dash, spaces, and a first word. Where the words start. */
  function NoteStart(s: string): (r: Option<nat>)
    ensures r.Some? ==> 0 < r.value < |s|
  {
    var a := SpanSpaces(s);
    if a == 0 then None
    else
      var rest := s[a..];
      var k := if Word(rest, "because") then 7 else if Word(rest, "but") then 3
               else if rest != "" && (rest[0] == '-' || rest[0] == '\U{2014}') then 1 else 0;
      if k == 0 then None
      else
        var b := SpanSpaces(rest[k..]);
        if b > 0 && a + k + b < |s| then Some(a + k + b) else None
  }

  /** What opens his own words: an arrow, a double dash, or dots and bangs before a space or the end. */
  predicate WordsMark(s: string) {
    || Word(s, "->") || Word(s, "=>") || Word(s, "--")
    || (var n := SpanMarks(s); n > 0 && (n == |s| || IsSpace(s[n])))
  }

  function SpanMarks(s: string): (n: nat)
    ensures n <= |s|
  {
    if s != "" && (s[0] == '.' || s[0] == '!') then 1 + SpanMarks(s[1..]) else 0
  }

  predicate HasSpace(s: string) {
    exists i :: 0 <= i < |s| && IsSpace(s[i])
  }
}
