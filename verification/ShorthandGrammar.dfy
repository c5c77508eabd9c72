/** The grammar of the band shorthand, and that each pattern matches just its words of it, and one way only
    (levain/band_shorthand.py, the module's compiled patterns). */
module ShorthandGrammar {
  import opened Wrappers
  import opened Strings
  import opened ShorthandText

  predicate AllSpaces(w: string) {
    forall i :: 0 <= i < |w| ==> IsSpace(w[i])
  }

  predicate Gap(w: string) {
    w != "" && AllSpaces(w)
  }

  /** `w` is `text`, in any case. */
  predicate Spells(w: string, text: string) {
    |w| == |text| && forall i :: 0 <= i < |w| ==> Lower(w[i]) == text[i]
  }

  /** `w` is `first`, a gap and `second`. */
  ghost predicate SpellsTwo(w: string, first: string, second: string) {
    exists i, j :: 0 <= i < j <= |w| && Spells(w[..i], first) && Gap(w[i..j]) && Spells(w[j..], second)
  }

  ghost predicate RecWord(w: string) {
    Spells(w, "r") || Spells(w, "rec") || Spells(w, "recs") || SpellsTwo(w, "your", "rec") || SpellsTwo(w, "you", "rec")
  }

  ghost predicate SweepWord(w: string) {
    Spells(w, "all") || Spells(w, "rest") || Spells(w, "others") || SpellsTwo(w, "all", "others")
  }

  /** No letter or digit is at `k`. */
  predicate EndsAt(s: string, k: nat) {
    k <= |s| && (k < |s| ==> !('0' <= s[k] <= '9') && !('a' <= s[k] <= 'z') && !('A' <= s[k] <= 'Z'))
  }

  lemma {:induction false} SpacesSpan(s: string, n: nat)
    requires n <= |s| && AllSpaces(s[..n]) && (n < |s| ==> !IsSpace(s[n]))
    ensures SpanSpaces(s) == n
  {
    if n > 0 {
      assert s[..n][0] == s[0];
      var rest := s[1..][..n - 1];
      forall i | 0 <= i < n - 1 ensures IsSpace(rest[i]) {
        assert s[..n][i + 1] == rest[i];
      }
      SpacesSpan(s[1..], n - 1);
    }
  }

  lemma {:induction false} SpanIsSpaces(s: string)
    ensures AllSpaces(s[..SpanSpaces(s)])
  {
    if s != "" && IsSpace(s[0]) {
      SpanIsSpaces(s[1..]);
      assert s[..SpanSpaces(s)] == [s[0]] + s[1..][..SpanSpaces(s[1..])];
    }
  }

  /** The spaces from `a` on end at `b`. */
  lemma SpanTo(s: string, a: nat, b: nat)
    requires a <= b <= |s| && AllSpaces(s[a..b]) && (b < |s| ==> !IsSpace(s[b]))
    ensures SpanSpaces(s[a..]) == b - a
  {
    assert s[a..][..b - a] == s[a..b];
    assert b < |s| ==> s[a..][b - a] == s[b];
    hide AllSpaces;
    SpacesSpan(s[a..], b - a);
  }

  lemma SpanFrom(s: string, a: nat)
    requires a <= |s|
    ensures var b := a + SpanSpaces(s[a..]); b <= |s| && AllSpaces(s[a..b]) && (b < |s| ==> !IsSpace(s[b]))
  {
    SpanIsSpaces(s[a..]);
    assert s[a..][..SpanSpaces(s[a..])] == s[a..a + SpanSpaces(s[a..])];
    hide AllSpaces;
  }

  lemma WordSpells(s: string, text: string)
    ensures Word(s, text) <==> |text| <= |s| && Spells(s[..|text|], text)
  {
  }

  lemma TwoWordsSpell(s: string, first: string, second: string)
    requires TwoWords(s, first, second).Some?
    ensures SpellsTwo(s[..TwoWords(s, first, second).value], first, second)
  {
    var f, k := |first|, TwoWords(s, first, second).value;
    var gap := SpanSpaces(s[f..]);
    SpanIsSpaces(s[f..]);
    WordSpells(s, first);
    WordSpells(s[f + gap..], second);
    var w := s[..k];
    assert w[..f] == s[..f] && w[f..f + gap] == s[f..][..gap] && w[f + gap..] == s[f + gap..][..|second|];
    hide Word, SpanSpaces, Spells, AllSpaces;
  }

  lemma SpeltIsTwoWords(s: string, first: string, second: string, i: nat, j: nat, k: nat)
    requires second != "" && 'a' <= second[0] <= 'z'
    requires i < j <= k <= |s| && Spells(s[..i], first) && Gap(s[i..j]) && Spells(s[j..k], second)
    ensures TwoWords(s, first, second) == Some(k)
  {
    WordSpells(s, first);
    assert s[j..k][0] == s[j];
    assert s[i..][..j - i] == s[i..j];
    SpacesSpan(s[i..], j - i);
    assert s[j..][..|second|] == s[j..k];
    WordSpells(s[j..], second);
    assert s[|first| + SpanSpaces(s[|first|..])..] == s[j..];
  }

  /** Two words at the head, exactly. */
  lemma TwoWordsIff(s: string, first: string, second: string, k: nat)
    requires second != "" && 'a' <= second[0] <= 'z'
    ensures TwoWords(s, first, second) == Some(k) <==> k <= |s| && SpellsTwo(s[..k], first, second)
  {
    hide TwoWords, Spells, Gap;
    if TwoWords(s, first, second) == Some(k) {
      TwoWordsSpell(s, first, second);
    }
    if k <= |s| && SpellsTwo(s[..k], first, second) {
      var i, j := SpeltWhere(s, first, second, k);
      SpeltIsTwoWords(s, first, second, i, j, k);
    }
  }

  lemma SpeltWhere(s: string, first: string, second: string, k: nat) returns (i: nat, j: nat)
    requires k <= |s| && SpellsTwo(s[..k], first, second)
    ensures i < j <= k && Spells(s[..i], first) && Gap(s[i..j]) && Spells(s[j..k], second)
  {
    hide Spells, Gap;
    var w := s[..k];
    i, j :| 0 <= i < j <= |w| && Spells(w[..i], first) && Gap(w[i..j]) && Spells(w[j..], second);
    assert w[..i] == s[..i];
    assert w[i..j] == s[i..j];
    assert w[j..] == s[j..k];
  }

  lemma RecIff(s: string, k: nat)
    ensures Rec(s) == Some(k) <==> EndsAt(s, k) && RecWord(s[..k])
  {
    TwoWordsIff(s, "your", "rec", k);
    TwoWordsIff(s, "you", "rec", k);
    WordSpells(s, "recs");
    WordSpells(s, "rec");
    WordSpells(s, "r");
    hide SpellsTwo;
  }

  lemma RecOpens(w: string)
    requires RecWord(w)
    ensures w != "" && Lower(w[0]) in {'r', 'y'}
  {
  }

  /** From `n` to `k`: a gap and a rec, with no letter or digit behind. */
  ghost predicate RecBehind(s: string, n: nat, j: nat, k: nat) {
    n < j <= k && EndsAt(s, k) && Gap(s[n..j]) && RecWord(s[j..k])
  }

  lemma RecFromTo(s: string, j: nat, k: nat)
    requires j <= k && j <= |s|
    ensures Rec(s[j..]) == Some(k - j) <==> EndsAt(s, k) && RecWord(s[j..k])
  {
    RecIff(s[j..], k - j);
    if k <= |s| {
      assert s[j..][..k - j] == s[j..k];
    }
    hide Rec, RecWord;
  }

  lemma ThenRecIsBehind(s: string, n: nat)
    requires n <= |s| && ThenRec(s, n).Some?
    ensures RecBehind(s, n, n + SpanSpaces(s[n..]), ThenRec(s, n).value)
  {
    hide Rec, RecWord, AllSpaces, EndsAt;
    var j, k := n + SpanSpaces(s[n..]), ThenRec(s, n).value;
    assert Rec(s[j..]) == Some(k - j) && n < j;
    hide ThenRec;
    SpanFrom(s, n);
    hide SpanSpaces;
    RecFromTo(s, j, k);
  }

  lemma ThenRecOf(s: string, n: nat, j: nat, k: nat)
    requires n < j <= k && j <= |s| && SpanSpaces(s[n..]) == j - n && Rec(s[j..]) == Some(k - j)
    ensures ThenRec(s, n) == Some(k)
  {
    hide Rec, SpanSpaces;
  }

  lemma BehindIsThenRec(s: string, n: nat, j: nat, k: nat)
    requires RecBehind(s, n, j, k)
    ensures ThenRec(s, n) == Some(k) && j < |s| && Lower(s[j]) in {'r', 'y'} && SpanSpaces(s[n..]) == j - n
  {
    hide Rec, RecWord, AllSpaces, ThenRec, SpanSpaces;
    RecOpens(s[j..k]);
    assert s[j..k][0] == s[j];
    RecFromTo(s, j, k);
    SpanTo(s, n, j);
    ThenRecOf(s, n, j, k);
  }

  /** What stands between entries, exactly: commas, semicolons and spaces. */
  lemma {:induction false} SepsIff(s: string, n: nat)
    ensures SpanSeps(s) == n <==>
              && n <= |s| && (forall i :: 0 <= i < n ==> s[i] == ',' || s[i] == ';' || IsSpace(s[i]))
              && (n < |s| ==> s[n] != ',' && s[n] != ';' && !IsSpace(s[n]))
  {
    if s != "" && IsSepChar(s[0]) {
      if n > 0 {
        SepsIff(s[1..], n - 1);
        assert forall i :: 0 < i < |s| ==> s[i] == s[1..][i - 1];
      }
    }
  }

  /** What a sweep is, up to `k`: its words, a gap and a rec, with no letter or digit behind. */
  ghost predicate SweepTo(s: string, i: nat, j: nat, k: nat) {
    0 < i && RecBehind(s, i, j, k) && SweepWord(s[..i])
  }

  lemma SweepBehind(s: string, i: nat, k: nat)
    requires 0 < i <= |s| && ThenRec(s, i) == Some(k) && SweepWord(s[..i])
    ensures exists j: nat :: SweepTo(s, i, j, k)
  {
    hide ThenRec, RecBehind, SweepWord;
    ThenRecIsBehind(s, i);
    assert SweepTo(s, i, i + SpanSpaces(s[i..]), k);
  }

  lemma SweepIsWords(s: string)
    requires Sweep(s).Some?
    ensures exists i: nat, j: nat :: SweepTo(s, i, j, Sweep(s).value)
  {
    var k := Sweep(s).value;
    var all := TwoWords(s, "all", "others");
    WordSpells(s, "all");
    WordSpells(s, "rest");
    WordSpells(s, "others");
    if all.Some? {
      TwoWordsSpell(s, "all", "others");
    }
    hide ThenRec, SweepTo, Word, Spells, TwoWords, SpellsTwo;
    if all.Some? && ThenRec(s, all.value).Some? {
      SweepBehind(s, all.value, k);
    } else {
      SweepBehind(s, if Word(s, "all") && ThenRec(s, 3).Some? then 3
                     else if Word(s, "rest") && ThenRec(s, 4).Some? then 4 else 6, k);
    }
  }

  lemma WordsAreSweep(s: string, i: nat, j: nat, k: nat)
    requires SweepTo(s, i, j, k)
    ensures Sweep(s) == Some(k)
  {
    BehindIsThenRec(s, i, j, k);
    WordSpells(s, "all");
    WordSpells(s, "rest");
    WordSpells(s, "others");
    TwoWordsIff(s, "all", "others", i);
    hide RecBehind, ThenRec, SpellsTwo;
    if Spells(s[..i], "all") {
      assert s[3 + SpanSpaces(s[3..])..][0] == s[j];
    }
    hide SpanSpaces;
  }

  /** A sweep, exactly. */
  lemma SweepIff(s: string, k: nat)
    ensures Sweep(s) == Some(k) <==> exists i: nat, j: nat :: SweepTo(s, i, j, k)
  {
    if Sweep(s) == Some(k) {
      SweepIsWords(s);
    }
    if i: nat, j: nat :| SweepTo(s, i, j, k) {
      WordsAreSweep(s, i, j, k);
    }
  }

  /** A pick, exactly: a rec, a letter from a to f in brackets, or one no letter or digit is behind. */
  lemma PickIff(s: string, k: nat, c: char)
    ensures Pick(s) == Some((TakeRec, k)) <==> EndsAt(s, k) && RecWord(s[..k])
    ensures Pick(s) == Some((Letter(c), k)) <==>
              && 'a' <= c <= 'f'
              && ((k == 3 <= |s| && s[0] == '(' && Lower(s[1]) == c && s[2] == ')')
                  || (k == 1 <= |s| && Lower(s[0]) == c && EndsAt(s, 1)))
  {
    RecIff(s, k);
    if Rec(s).Some? {
      RecIff(s, Rec(s).value);
      RecOpens(s[..Rec(s).value]);
    }
    hide Rec, RecWord;
  }

  /** A number of at most seven digits that does not start with 0, and no digit behind it. */
  ghost predicate Number(s: string, n: nat, k: nat) {
    && 1 <= k <= 7 && k <= |s| && s[0] != '0' && (k < |s| ==> !('0' <= s[k] <= '9'))
    && (forall i :: 0 <= i < k ==> '0' <= s[..k][i] <= '9') && n == Value(s[..k])
  }

  lemma {:induction false} DigitsSpan(s: string, k: nat)
    requires k <= |s| && (forall i :: 0 <= i < k ==> IsDigit(s[i])) && (k < |s| ==> !IsDigit(s[k]))
    ensures SpanDigits(s) == k
  {
    if k > 0 {
      DigitsSpan(s[1..], k - 1);
    }
  }

  /** A number, exactly. */
  lemma NumIff(s: string, n: nat, k: nat)
    ensures Num(s) == Some((n, k)) <==> Number(s, n, k)
  {
    if Number(s, n, k) {
      assert forall i :: 0 <= i < k ==> s[..k][i] == s[i];
      DigitsSpan(s, k);
    }
  }

  /** Between a number and its pick, `g` long: spaces, at most one mark, spaces. */
  ghost predicate PickGapTo(s: string, g: nat) {
    g <= |s|
    && (AllSpaces(s[..g]) || exists i :: 0 <= i < g && AllSpaces(s[..i]) && s[i] in {':', '.', ')'} && AllSpaces(s[i + 1..g]))
  }

  lemma GapIsPickGap(s: string, g: nat)
    requires PickGapTo(s, g) && g < |s| && !IsSpace(s[g]) && s[g] !in {':', '.', ')'}
    ensures PickGap(s) == g
  {
    if AllSpaces(s[..g]) {
      SpacesSpan(s, g);
    } else {
      var i :| 0 <= i < g && AllSpaces(s[..i]) && s[i] in {':', '.', ')'} && AllSpaces(s[i + 1..g]);
      SpacesSpan(s, i);
      SpanTo(s, i + 1, g);
    }
    hide AllSpaces, SpanSpaces;
  }

  lemma PickGapIsGap(s: string)
    ensures PickGapTo(s, PickGap(s))
  {
    var i := SpanSpaces(s);
    SpanIsSpaces(s);
    if i < |s| && s[i] in {':', '.', ')'} {
      SpanFrom(s, i + 1);
    }
    hide AllSpaces, SpanSpaces;
  }

  lemma PickOpens(s: string)
    requires Pick(s).Some?
    ensures s != "" && !IsSpace(s[0]) && s[0] !in {':', '.', ')'}
  {
    if Rec(s).Some? {
      RecIff(s, Rec(s).value);
      RecOpens(s[..Rec(s).value]);
    }
    hide Rec, RecWord;
  }

  /** The pick at `b`. */
  function PickAt(s: string, b: nat): Option<(Choice, nat)> {
    if b <= |s| then Pick(s[b..]) else None
  }

  /** A number of length `a` and a gap after it, up to `b`. */
  ghost predicate NumberThenGap(s: string, n: nat, a: nat, b: nat) {
    Number(s, n, a) && a <= b <= |s| && PickGapTo(s[a..], b - a)
  }

  lemma EntryIsSpelt(s: string)
    requires Entry(s).Some?
    ensures var (n, choice, k) := Entry(s).value;
            exists a: nat, b: nat :: NumberThenGap(s, n, a, b) && b <= k && PickAt(s, b) == Some((choice, k - b))
  {
    hide Pick, Number, PickGapTo, Num, PickGap;
    var (n, a) := Num(s).value;
    NumIff(s, n, a);
    PickGapIsGap(s[a..]);
    assert NumberThenGap(s, n, a, a + PickGap(s[a..]));
  }

  lemma SpeltIsEntry(s: string, n: nat, choice: Choice, k: nat, a: nat, b: nat)
    requires NumberThenGap(s, n, a, b) && b <= k && PickAt(s, b) == Some((choice, k - b))
    ensures Entry(s) == Some((n, choice, k))
  {
    hide Pick, Number, PickGapTo, Num, PickGap;
    NumIff(s, n, a);
    PickOpens(s[b..]);
    assert s[a..][b - a] == s[b..][0];
    GapIsPickGap(s[a..], b - a);
  }

  /** A numbered pick, exactly: a number, at most one mark among spaces, and a pick. */
  lemma EntryIff(s: string, n: nat, choice: Choice, k: nat)
    ensures Entry(s) == Some((n, choice, k)) <==>
              exists a: nat, b: nat :: NumberThenGap(s, n, a, b) && b <= k && PickAt(s, b) == Some((choice, k - b))
  {
    hide Entry, NumberThenGap, PickAt;
    if Entry(s) == Some((n, choice, k)) {
      EntryIsSpelt(s);
    }
    if a: nat, b: nat :| NumberThenGap(s, n, a, b) && b <= k && PickAt(s, b) == Some((choice, k - b)) {
      SpeltIsEntry(s, n, choice, k, a, b);
    }
  }

  /** A number of length `a`, a colon at `c` among spaces, and a word at `k`. */
  ghost predicate TextHeadTo(s: string, n: nat, a: nat, c: nat, k: nat) {
    && a <= c < k < |s| && Number(s, n, a)
    && AllSpaces(s[a..c]) && s[c] == ':' && AllSpaces(s[c + 1..k]) && !IsSpace(s[k])
  }

  lemma HeadIsSpelt(s: string)
    requires TextHead(s).Some?
    ensures exists a: nat, c: nat :: TextHeadTo(s, TextHead(s).value.0, a, c, TextHead(s).value.1)
  {
    hide Number, Num, AllSpaces, SpanSpaces;
    var (n, a) := Num(s).value;
    var c := a + SpanSpaces(s[a..]);
    var k := c + 1 + SpanSpaces(s[c + 1..]);
    assert TextHead(s).value == (n, k) && s[c] == ':';
    hide TextHead;
    NumIff(s, n, a);
    SpanFrom(s, a);
    SpanFrom(s, c + 1);
    assert TextHeadTo(s, n, a, c, k);
  }

  lemma SpeltIsHead(s: string, n: nat, a: nat, c: nat, k: nat)
    requires TextHeadTo(s, n, a, c, k)
    ensures TextHead(s) == Some((n, k))
  {
    hide Number, Num, AllSpaces, SpanSpaces;
    NumIff(s, n, a);
    SpanTo(s, a, c);
    SpanTo(s, c + 1, k);
  }

  /** The head of a free text, exactly: a number, a colon among spaces, and a word behind. */
  lemma TextHeadIff(s: string, n: nat, k: nat)
    ensures TextHead(s) == Some((n, k)) <==> exists a: nat, c: nat :: TextHeadTo(s, n, a, c, k)
  {
    hide TextHead, TextHeadTo;
    if TextHead(s) == Some((n, k)) {
      HeadIsSpelt(s);
    }
    if a: nat, c: nat :| TextHeadTo(s, n, a, c, k) {
      SpeltIsHead(s, n, a, c, k);
    }
  }

  /** What opens a note. */
  predicate NoteWord(w: string) {
    Spells(w, "because") || Spells(w, "but") || w == "-" || w == "\U{2014}"
  }

  lemma NoteWordIs(s: string, a: nat, b: nat)
    requires a <= b <= |s| && NoteWord(s[a..b]) && b < |s| && IsSpace(s[b])
    ensures var rest := s[a..];
            b - a == if Word(rest, "because") then 7 else if Word(rest, "but") then 3
                     else if rest != "" && (rest[0] == '-' || rest[0] == '\U{2014}') then 1 else 0
    ensures a < b && !IsSpace(s[a])
  {
    var rest := s[a..];
    WordSpells(rest, "because");
    WordSpells(rest, "but");
    assert rest[..b - a] == s[a..b];
    assert s[a..b][0] == s[a] == rest[0];
  }

  /** A gap up to `a`, a note's opening up to `b`, a gap, and a word at `k`. */
  ghost predicate NoteTo(s: string, a: nat, b: nat, k: nat) {
    a < b < k < |s| && Gap(s[0..a]) && NoteWord(s[a..b]) && Gap(s[b..k]) && !IsSpace(s[k])
  }

  lemma OpensNote(rest: string)
    ensures var w := if Word(rest, "because") then 7 else if Word(rest, "but") then 3
                     else if rest != "" && (rest[0] == '-' || rest[0] == '\U{2014}') then 1 else 0;
            w <= |rest| && (w > 0 ==> NoteWord(rest[..w]))
  {
    WordSpells(rest, "because");
    WordSpells(rest, "but");
    assert rest != "" ==> rest[..1] == [rest[0]];
  }

  lemma NoteIsOpened(s: string)
    requires NoteStart(s).Some?
    ensures exists a: nat, b: nat :: NoteTo(s, a, b, NoteStart(s).value)
  {
    hide NoteWord, Word, Gap, SpanSpaces;
    var a := SpanSpaces(s);
    var rest := s[a..];
    var w := if Word(rest, "because") then 7 else if Word(rest, "but") then 3 else 1;
    OpensNote(rest);
    SliceOf(s, a, w);
    GapAt(s, 0);
    GapAt(s, a + w);
    assert s[0..] == s;
    assert NoteTo(s, a, a + w, NoteStart(s).value);
  }

  lemma SliceOf(s: string, a: nat, w: nat)
    requires a + w <= |s|
    ensures s[a..][..w] == s[a..a + w] && s[a..][w..] == s[a + w..]
  {
  }

  lemma GapAt(s: string, b: nat)
    requires b <= |s|
    ensures var n := SpanSpaces(s[b..]); b + n <= |s| && (n > 0 ==> Gap(s[b..b + n])) && (b + n < |s| ==> !IsSpace(s[b + n]))
  {
    hide AllSpaces;
    SpanFrom(s, b);
    hide SpanSpaces;
  }

  lemma NoteStartOf(s: string, a: nat, w: nat, n: nat)
    requires a > 0 && w > 0 && n > 0 && a + w + n < |s| && SpanSpaces(s) == a && SpanSpaces(s[a..][w..]) == n
    requires w == if Word(s[a..], "because") then 7 else if Word(s[a..], "but") then 3
                  else if s[a] == '-' || s[a] == '\U{2014}' then 1 else 0
    ensures NoteStart(s) == Some(a + w + n)
  {
    hide Word, SpanSpaces;
  }

  lemma OpenedIsNote(s: string, a: nat, b: nat, k: nat)
    requires NoteTo(s, a, b, k)
    ensures NoteStart(s) == Some(k)
  {
    hide AllSpaces, SpanSpaces, NoteWord, Word, NoteStart;
    assert s[b..k][0] == s[b] && IsSpace(s[b]) by { FirstOfGap(s, b, k); }
    NoteWordIs(s, a, b);
    assert s[0..] == s;
    SpanTo(s, 0, a);
    SpanTo(s, b, k);
    SliceOf(s, a, b - a);
    NoteStartOf(s, a, b - a, k - b);
  }

  lemma FirstOfGap(s: string, b: nat, k: nat)
    requires b < k <= |s| && Gap(s[b..k])
    ensures IsSpace(s[b]) && s[b..k][0] == s[b]
  {
  }

  /** A note, exactly: a gap, its opening, a gap, and a word behind. */
  lemma NoteIff(s: string, k: nat)
    ensures NoteStart(s) == Some(k) <==> exists a: nat, b: nat :: NoteTo(s, a, b, k)
  {
    hide NoteStart, NoteTo;
    if NoteStart(s) == Some(k) {
      NoteIsOpened(s);
    }
    if a: nat, b: nat :| NoteTo(s, a, b, k) {
      OpenedIsNote(s, a, b, k);
    }
  }

  lemma {:induction false} MarksSpan(s: string, n: nat)
    requires n <= |s| && (forall i :: 0 <= i < n ==> s[i] == '.' || s[i] == '!') && (n < |s| ==> s[n] != '.' && s[n] != '!')
    ensures SpanMarks(s) == n
  {
    if n > 0 {
      MarksSpan(s[1..], n - 1);
    }
  }

  lemma {:induction false} SpanIsMarks(s: string)
    ensures forall i :: 0 <= i < SpanMarks(s) ==> s[i] == '.' || s[i] == '!'
  {
    if s != "" && (s[0] == '.' || s[0] == '!') {
      SpanIsMarks(s[1..]);
      assert forall i :: 0 < i < |s| ==> s[i] == s[1..][i - 1];
    }
  }

  /** Dots and bangs up to `n`, then a space or the end. */
  ghost predicate MarksTo(s: string, n: nat) {
    0 < n <= |s| && (forall i :: 0 <= i < n ==> s[i] == '.' || s[i] == '!') && (n == |s| || IsSpace(s[n]))
  }

  /** What opens the operator's own words, exactly. */
  lemma WordsMarkIff(s: string)
    ensures WordsMark(s) <==>
              || (|s| >= 2 && (s[0], s[1]) in {('-', '>'), ('=', '>'), ('-', '-')})
              || exists n: nat :: MarksTo(s, n)
  {
    SpanIsMarks(s);
    if n: nat :| MarksTo(s, n) {
      MarksSpan(s, n);
    }
    TwoMarks(s, '-', '>');
    TwoMarks(s, '=', '>');
    TwoMarks(s, '-', '-');
    hide Word;
    assert SpanMarks(s) > 0 && (SpanMarks(s) == |s| || IsSpace(s[SpanMarks(s)])) ==> MarksTo(s, SpanMarks(s));
    hide MarksTo, SpanMarks;
  }

  lemma TwoMarks(s: string, a: char, b: char)
    requires !IsAlpha(a) && !IsAlpha(b)
    ensures Word(s, [a, b]) <==> |s| >= 2 && s[0] == a && s[1] == b
  {
    assert [a, b][0] == a && [a, b][1] == b;
  }
}
