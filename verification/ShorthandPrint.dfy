/** Printing answers and lexing them back (levain/band_shorthand.py, the grammar's `entry` and separators). */
module ShorthandPrint {
  import opened Wrappers
  import opened Strings
  import opened ShorthandText
  import opened ShorthandLexer

  /** A number as the shorthand writes it. */
  function Decimal(n: nat): (s: string)
    ensures s != "" && forall i :: 0 <= i < |s| ==> IsDigit(s[i])
  {
    if n < 10 then [DigitChar(n)] else Decimal(n / 10) + [DigitChar(n % 10)]
  }

  function DigitChar(d: nat): (c: char)
    requires d < 10
    ensures IsDigit(c) && DigitValue(c) == d
  {
    '0' + d as char
  }

  lemma {:induction false} DecimalValue(n: nat)
    ensures Value(Decimal(n)) == n
    ensures n > 0 ==> Decimal(n)[0] != '0'
  {
    if n >= 10 {
      DecimalValue(n / 10);
      assert Decimal(n)[..|Decimal(n)| - 1] == Decimal(n / 10);
    } else {
      assert Decimal(n)[..0] == "";
    }
  }

  lemma {:induction false} DecimalLength(n: nat, k: nat)
    requires 0 < k && n < Power10(k)
    ensures |Decimal(n)| <= k
  {
    if n >= 10 {
      DecimalLength(n / 10, k - 1);
    }
  }

  function Power10(k: nat): nat {
    if k == 0 then 1 else 10 * Power10(k - 1)
  }

  lemma SevenDigits(n: nat)
    requires n < 10000000
    ensures |Decimal(n)| <= 7
  {
    assert Power10(7) == 10 * Power10(6) && Power10(6) == 10 * Power10(5) && Power10(5) == 10 * Power10(4);
    assert Power10(4) == 10 * Power10(3) && Power10(3) == 10 * Power10(2) && Power10(2) == 100;
    DecimalLength(n, 7);
  }

  lemma {:induction false} SpanDigitsPrefix(d: string, rest: string)
    requires forall i :: 0 <= i < |d| ==> IsDigit(d[i])
    requires rest == "" || !IsDigit(rest[0])
    ensures SpanDigits(d + rest) == |d|
  {
    if d != "" {
      assert (d + rest)[1..] == d[1..] + rest;
      SpanDigitsPrefix(d[1..], rest);
    } else {
      assert d + rest == rest;
    }
  }

  lemma {:induction false} SpanSepsPrefix(gap: string, rest: string)
    requires forall i :: 0 <= i < |gap| ==> IsSepChar(gap[i])
    requires rest == "" || !IsSepChar(rest[0])
    ensures SpanSeps(gap + rest) == |gap|
  {
    if gap != "" {
      assert (gap + rest)[1..] == gap[1..] + rest;
      SpanSepsPrefix(gap[1..], rest);
    } else {
      assert gap + rest == rest;
    }
  }

  /** A number and an option letter. */
  datatype Answer = Answer(n: nat, letter: char)

  predicate Printable(a: Answer) {
    1 <= a.n < 10000000 && OptionLetter(a.letter)
  }

  predicate Separator(s: string) {
    s != "" && forall i :: 0 <= i < |s| ==> IsSepChar(s[i])
  }

  function Show(a: Answer): string {
    Decimal(a.n) + [a.letter]
  }

  /** The answers, each after its own separator, and a last one. */
  function Printed(answers: seq<Answer>, gaps: seq<string>, end: string): string
    requires |gaps| == |answers|
  {
    if answers == [] then end
    else gaps[0] + Show(answers[0]) + Printed(answers[1..], gaps[1..], end)
  }

  function AsEntry(a: Answer): Raw {
    Raw(PickKind(a.letter), a.n, None)
  }

  function AsEntries(answers: seq<Answer>): seq<Raw> {
    if answers == [] then [] else [AsEntry(answers[0])] + AsEntries(answers[1..])
  }

  lemma ShownNumber(n: nat, tail: string)
    requires 1 <= n < 10000000 && (tail == "" || !IsDigit(tail[0]))
    ensures var s := Decimal(n) + tail;
            && Num(s) == Some((n, |Decimal(n)|))
            && s[|Decimal(n)|..] == tail
            && IsDigit(s[0])
  {
    hide Value;
    var d, s := Decimal(n), Decimal(n) + tail;
    SpanDigitsPrefix(d, tail);
    assert s[..|d|] == d && s[|d|..] == tail;
    DecimalValue(n);
    SevenDigits(n);
  }

  lemma NoGap(letter: char, rest: string)
    requires OptionLetter(letter)
    ensures SpanSpaces([letter] + rest) == 0 && PickGap([letter] + rest) == 0
  {
  }

  /** A shown answer, followed by the end or a separator, is matched as itself and as nothing else. */
  lemma ShownIsEntry(a: Answer, rest: string)
    requires Printable(a) && (rest == "" || IsSepChar(rest[0]))
    ensures var s := Show(a) + rest;
            && EntryAt(s).Some? && EntryAt(s).value.0 == AsEntry(a) && EntryAt(s).value.1 == |Show(a)|
            && TextHead(s).None? && !IsSepChar(s[0]) && s != ""
            && s[|Show(a)|..] == rest
  {
    hide Decimal, Num, Pick, Sweep, SpanSpaces, PickGap, HasSpace;
    var k, s := |Decimal(a.n)|, Show(a) + rest;
    ShownNumber(a.n, [a.letter] + rest);
    assert s == Decimal(a.n) + ([a.letter] + rest);
    NoGap(a.letter, rest);
    LetterIsPick(a.letter, rest);
    assert s[k + 0..] == s[k..];
    assert s[k] == a.letter;
    assert Entry(s) == Some((a.n, Letter(a.letter), k + 1));
    DigitIsNoSweep(s);
  }

  lemma LetterIsPick(letter: char, rest: string)
    requires OptionLetter(letter) && (rest == "" || IsSepChar(rest[0]))
    ensures Pick([letter] + rest) == Some((Letter(letter), 1))
  {
    var s := [letter] + rest;
    assert s[0] == letter && Lower(letter) == letter;
    assert "your"[0] == 'y' && "you"[0] == 'y' && "recs"[0] == 'r' && "rec"[0] == 'r' && "r"[0] == 'r';
    assert !Word(s, "your") && !Word(s, "you") && !Word(s, "recs") && !Word(s, "rec") && !Word(s, "r");
    assert |s| > 1 ==> s[1] == rest[0];
  }

  lemma DigitIsNoSweep(s: string)
    requires s != "" && IsDigit(s[0])
    ensures Sweep(s).None?
  {
    assert Lower(s[0]) == s[0];
    assert "all"[0] == 'a' && "rest"[0] == 'r' && "others"[0] == 'o';
    assert !Word(s, "all") && !Word(s, "rest") && !Word(s, "others");
  }

  /** Spaces and separators before an answer or the end open no note. */
  lemma NoNoteBefore(gap: string, rest: string)
    requires forall i :: 0 <= i < |gap| ==> IsSepChar(gap[i])
    requires rest == "" || IsDigit(rest[0])
    ensures NoteStart(gap + rest).None?
  {
    var s := gap + rest;
    var a := SpanSpaces(s);
    if a < |s| {
      assert s[a..][0] == s[a];
      assert IsSepChar(s[a]) || IsDigit(s[a]) by {
        if a >= |gap| { SpacesStop(gap, rest); }
      }
      assert Lower(s[a]) == s[a];
      assert "because"[0] == 'b' && "but"[0] == 'b';
      assert !Word(s[a..], "because") && !Word(s[a..], "but");
    }
  }

  lemma {:induction false} SpacesStop(gap: string, rest: string)
    requires rest == "" || IsDigit(rest[0])
    ensures SpanSpaces(gap + rest) <= |gap|
  {
    if gap != "" {
      assert (gap + rest)[1..] == gap[1..] + rest;
      SpacesStop(gap[1..], rest);
    } else {
      assert gap + rest == rest;
    }
  }

  lemma PrintedStarts(answers: seq<Answer>, gaps: seq<string>, end: string)
    requires |gaps| == |answers|
    requires forall i :: 0 <= i < |answers| ==> Printable(answers[i]) && Separator(gaps[i])
    requires forall i :: 0 <= i < |end| ==> IsSepChar(end[i])
    ensures var s := Printed(answers, gaps, end);
            && (s == "" || IsSepChar(s[0])) && NoteStart(s).None?
  {
    if answers == [] {
      NoNoteBefore(end, "");
      assert end + "" == end;
    } else {
      var rest := Show(answers[0]) + Printed(answers[1..], gaps[1..], end);
      assert Printed(answers, gaps, end) == gaps[0] + rest;
      assert rest[0] == Decimal(answers[0].n)[0];
      NoNoteBefore(gaps[0], rest);
    }
  }

  lemma EndReads(end: string, at: nat, before: seq<Raw>, compact: bool)
    requires forall i :: 0 <= i < |end| ==> IsSepChar(end[i])
    ensures Reading(end, at, before, compact, false) == Some(Entries(before))
  {
    SpanSepsPrefix(end, "");
    assert end + "" == end;
  }

  /** One shown answer after its separators is read, and the reading goes on behind it. */
  lemma OneReads(a: Answer, gap: string, more: string, at: nat, before: seq<Raw>, compact: bool)
    requires Printable(a) && (forall i :: 0 <= i < |gap| ==> IsSepChar(gap[i]))
    requires (more == "" || IsSepChar(more[0])) && NoteStart(more).None?
    ensures EntryAt(Show(a) + more).Some?
    ensures Reading(gap + (Show(a) + more), at, before, compact, false)
            == Reading(more, at + |gap| + |Show(a)|, before + [AsEntry(a)], EntryAt(Show(a) + more).value.2, false)
  {
    hide EntryAt, TextHead, NoteStart, TextRaw, Show, Reading, Printable, SpanSeps, IsSepChar, OptionLetter;
    var rest := Show(a) + more;
    ShownIsEntry(a, more);
    SpanSepsPrefix(gap, rest);
    assert (gap + rest)[|gap|..] == rest;
    CleanReads(gap + rest, at, before, compact, false);
  }

  /** The reading of a printed list, from any point: its answers, in order, and nothing else. */
  lemma {:induction false} PrintedReads(answers: seq<Answer>, gaps: seq<string>, end: string, at: nat,
                                        before: seq<Raw>, compact: bool)
    requires |gaps| == |answers|
    requires forall i :: 0 <= i < |answers| ==> Printable(answers[i]) && (Separator(gaps[i]) || (i == 0 && gaps[i] == ""))
    requires forall i :: 0 <= i < |end| ==> IsSepChar(end[i])
    ensures Reading(Printed(answers, gaps, end), at, before, compact, false) == Some(Entries(before + AsEntries(answers)))
    decreases |answers|
  {
    hide Reading, EntryAt, NoteStart, Show, Words;
    var s := Printed(answers, gaps, end);
    if answers == [] {
      EndReads(end, at, before, compact);
      assert before + [] == before;
    } else {
      var more := Printed(answers[1..], gaps[1..], end);
      PrintedStarts(answers[1..], gaps[1..], end);
      OneReads(answers[0], gaps[0], more, at, before, compact);
      PrintedReads(answers[1..], gaps[1..], end, at + |gaps[0]| + |Show(answers[0])|,
                   before + [AsEntry(answers[0])], EntryAt(Show(answers[0]) + more).value.2);
      assert gaps[0] + (Show(answers[0]) + more) == s;
      assert before + [AsEntry(answers[0])] + AsEntries(answers[1..]) == before + AsEntries(answers);
    }
  }

  /** Printing any list of number-letter picks, with any separators between them, lexes back to that list. */
  lemma PrintLexRoundTrip(answers: seq<Answer>, gaps: seq<string>, end: string)
    requires |gaps| == |answers|
    requires forall i :: 0 <= i < |answers| ==> Printable(answers[i]) && (Separator(gaps[i]) || (i == 0 && gaps[i] == ""))
    requires forall i :: 0 <= i < |end| ==> IsSepChar(end[i])
    ensures ReadLine(Printed(answers, gaps, end)) == Entries(AsEntries(answers))
  {
    hide Reading, Printed, Printable, Separator;
    PrintedReads(answers, gaps, end, 0, [], false);
    assert [] + AsEntries(answers) == AsEntries(answers);
  }

  lemma ColonGap(letter: char)
    requires OptionLetter(letter)
    ensures PickGap(":" + [letter]) == 1 && SpanSpaces(":" + [letter]) == 0
    ensures (":" + [letter])[1..] == [letter] && SpanSpaces([letter]) == 0
  {
  }

  /** With a colon between number and letter an entry is both: a clean pick, and the head of a free text. */
  lemma ColonReadsBothWays(a: Answer)
    requires Printable(a)
    ensures var s := Decimal(a.n) + (":" + [a.letter]);
            && SpanSeps(s) == 0 && TextHead(s).Some? && CleanAt(s) && EntryAt(s).value.0 == AsEntry(a)
  {
    var k, s := |Decimal(a.n)|, Decimal(a.n) + (":" + [a.letter]);
    assert SpanSeps(s) == 0 by { assert IsDigit(s[0]); }
    hide Decimal, Num, Pick, Sweep, SpanSpaces, PickGap, HasSpace, SpanSeps;
    ShownNumber(a.n, ":" + [a.letter]);
    ColonGap(a.letter);
    LetterIsPick(a.letter, "");
    assert [a.letter] + "" == [a.letter] && s[k + 1..] == [a.letter] && s[k] == ':';
    assert s[k + 0..] == s[k..] && s[k + 1 + 0..] == s[k + 1..];
    assert Entry(s) == Some((a.n, Letter(a.letter), k + 2));
    DigitIsNoSweep(s);
    assert s[k + 2..] == "";
    NothingIsNoNote();
  }

  lemma NothingIsNoNote()
    ensures NoteStart("").None?
  {
  }
}
