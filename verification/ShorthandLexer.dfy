/** The one-pass lexer and the backtracking reading it equals (levain/band_shorthand.py, `_lex` and `_words`). */
module ShorthandLexer {
  import opened Wrappers
  import opened Strings
  import opened ShorthandText

  datatype Kind = PickKind(letter: char) | RecKind | TextKind(text: string) | SweepKind

  datatype Raw = Raw(kind: Kind, n: nat, note: Option<string>)

  datatype LexError = WordsAfterSweep | NotAnEntry(at: nat) | WordsNeedMark(at: nat)

  /** A lexed line: its entries, or why it is refused; where his own words, and text not read, begin. */
  datatype Line = Line(entries: seq<Raw>, error: Option<LexError>, wordsAt: Option<nat>, saidAt: Option<nat>)

  function Entries(entries: seq<Raw>): Line {
    Line(entries, None, None, None)
  }

  function TextRaw(s: string, head: (nat, nat)): Raw
    requires head.1 <= |s|
  {
    Raw(TextKind(TrimEnd(s[head.1..])), head.0, None)
  }

  /** A sweep or a numbered pick at the head, its length, and whether it holds no space. */
  function EntryAt(s: string): (r: Option<(Raw, nat, bool)>)
    ensures r.Some? ==> 0 < r.value.1 <= |s|
    ensures r.Some? ==> !r.value.0.kind.TextKind? && r.value.0.note.None?
    ensures r.Some? && r.value.0.kind.PickKind? ==> OptionLetter(r.value.0.kind.letter)
  {
    if Sweep(s).Some? then
      Some((Raw(SweepKind, 0, None), Sweep(s).value, !HasSpace(s[..Sweep(s).value])))
    else if Entry(s).Some? then
      var (n, choice, k) := Entry(s).value;
      Some((Raw(if choice.TakeRec? then RecKind else PickKind(choice.c), n, None), k, !HasSpace(s[..k])))
    else None
  }

  /** The run of entries is over at `s`: his words begin here only when nothing about them could be an answer. */
  function Words(entries: seq<Raw>, s: string, at: nat, compact: bool): Line
    requires s != ""
  {
    var c := s[0];
    if exists i :: 0 <= i < |entries| && entries[i].kind.SweepKind?
    then Line(entries, Some(WordsAfterSweep), None, None)
    else if IsDigit(c) || c == '(' || Pick(s).Some? then Line(entries, Some(NotAnEntry(at)), None, None)
    else if WordsMark(s) || (IsAlpha(c) && compact) then Line(entries, None, Some(at), Some(at))
    else if IsAlpha(c) then Line(entries, Some(WordsNeedMark(at)), None, None)
    else Line(entries, Some(NotAnEntry(at)), None, None)
  }

  /** The backtracking reading of the rest `s` of a line, at offset `at`, after `before`. An entry that reads both as a
      pick and as the head of a free text is the pick when the rest of the line lexes cleanly, else the text. `forked`:
      under such an entry, where only entries are clean; none: this reading fails, and the entry above is the text. */
  function Reading(s: string, at: nat, before: seq<Raw>, compact: bool, forked: bool): (r: Option<Line>)
    ensures !forked ==> r.Some?
    decreases |s|
  {
    var k := SpanSeps(s);
    var rest, here := s[k..], at + k;
    if rest == "" then Some(Entries(before))
    else
      var entry, head := EntryAt(rest), TextHead(rest);
      if entry.None? then
        if head.Some? then Some(Entries(before + [TextRaw(rest, head.value)]))
        else if forked then None
        else if before != [] then Some(Words(before, rest, here, compact))
        else Some(Line([], Some(NotAnEntry(here)), None, None))
      else
        var (raw, end, tight) := entry.value;
        var tail := rest[end..];
        if NoteStart(tail).Some? then
          var n := NoteStart(tail).value;
          Some(Line(before + [raw.(note := Some(TrimEnd(tail[n..])))], None, None, Some(here + end + n)))
        else if tail == "" || IsSepChar(tail[0]) then
          if !raw.kind.SweepKind? && head.Some? then
            var pick := Reading(tail, here + end, before + [raw], tight, true);
            if pick.Some? then pick
            else Some(Line(before + [TextRaw(rest, head.value)], None, None, Some(here + head.value.1)))
          else Reading(tail, here + end, before + [raw], tight, forked)
        else if head.Some? then Some(Entries(before + [TextRaw(rest, head.value)]))
        else if forked then None
        else if WordsMark(tail) then Some(Words(before + [raw], tail, here + end, false))
        else if before != [] then Some(Words(before, rest, here, compact))
        else Some(Line([], Some(NotAnEntry(here)), None, None))
  }

  /** A whole line, read with backtracking. */
  function ReadLine(line: string): Line {
    Reading(line, 0, [], false, false).value
  }

  /** The last entry that could also be a text: its index, its free-text head, and where it stands. */
  datatype Fork = Fork(index: nat, head: (nat, nat), at: nat)

  /** What a failed reading under a fork leaves: the entries before it, and the text. */
  function Fallback(line: string, entries: seq<Raw>, f: Fork): Line
    requires f.at + f.head.1 <= |line| && f.index <= |entries|
  {
    Line(entries[..f.index] + [TextRaw(line[f.at..], f.head)], None, None, Some(f.at + f.head.1))
  }

  /** A fork inside the line and the entries. */
  predicate ForkFits(line: string, entries: seq<Raw>, fork: Option<Fork>) {
    fork.Some? ==> fork.value.index < |entries| && fork.value.at + fork.value.head.1 <= |line|
  }

  /** What the backtracking reading gives from `pos` on, with the last fork standing for every open choice. */
  function Rest(line: string, pos: nat, entries: seq<Raw>, compact: bool, fork: Option<Fork>): Line
    requires pos <= |line| && ForkFits(line, entries, fork)
  {
    var r := Reading(line[pos..], pos, entries, compact, fork.Some?);
    if r.Some? then r.value else Fallback(line, entries, fork.value)
  }

  /** The head of what is left, after its separators. */
  function Head(line: string, pos: nat): (h: nat)
    requires pos <= |line|
    ensures pos <= h <= |line| && line[h..] == line[pos..][SpanSeps(line[pos..])..]
  {
    pos + SpanSeps(line[pos..])
  }

  lemma AtStart(line: string)
    ensures ReadLine(line) == Rest(line, 0, [], false, None)
  {
    assert line[0..] == line;
  }

  lemma AtEnd(line: string, pos: nat, entries: seq<Raw>, compact: bool, fork: Option<Fork>)
    requires pos <= |line| && ForkFits(line, entries, fork) && Head(line, pos) == |line|
    ensures Rest(line, pos, entries, compact, fork) == Entries(entries)
  {
  }

  /** An entry with a note ends the line, whatever the fork. */
  lemma AtNote(line: string, pos: nat, entries: seq<Raw>, compact: bool, fork: Option<Fork>)
    requires pos <= |line| && ForkFits(line, entries, fork) && Head(line, pos) < |line|
    requires EntryAt(line[Head(line, pos)..]).Some?
    requires NoteStart(line[Head(line, pos)..][EntryAt(line[Head(line, pos)..]).value.1..]).Some?
    ensures var h := Head(line, pos);
            var (raw, end, tight) := EntryAt(line[h..]).value;
            var tail := line[h..][end..];
            var n := NoteStart(tail).value;
            Rest(line, pos, entries, compact, fork) ==
            Line(entries + [raw.(note := Some(TrimEnd(tail[n..])))], None, None, Some(h + end + n))
  {
    hide EntryAt, TextHead, NoteStart, WordsMark, SpanSeps, TrimEnd;
  }

  predicate CleanAt(s: string)
  {
    EntryAt(s).Some? && NoteStart(s[EntryAt(s).value.1..]).None?
    && (s[EntryAt(s).value.1..] == "" || IsSepChar(s[EntryAt(s).value.1..][0]))
  }

  /** One step of the reading: a clean entry, then the rest of the line. */
  lemma CleanReads(s: string, at: nat, before: seq<Raw>, compact: bool, forked: bool)
    requires SpanSeps(s) < |s| && CleanAt(s[SpanSeps(s)..])
    ensures var k := SpanSeps(s);
            var (raw, end, tight) := EntryAt(s[k..]).value;
            var head := TextHead(s[k..]);
            var tail := s[k..][end..];
            if !raw.kind.SweepKind? && head.Some? then
              var pick := Reading(tail, at + k + end, before + [raw], tight, true);
              Reading(s, at, before, compact, forked) ==
              if pick.Some? then pick
              else Some(Line(before + [TextRaw(s[k..], head.value)], None, None, Some(at + k + head.value.1)))
            else Reading(s, at, before, compact, forked) == Reading(tail, at + k + end, before + [raw], tight, forked)
  {
    hide EntryAt, TextHead, NoteStart, WordsMark, SpanSeps, TrimEnd, Words, TextRaw, HasSpace, IsSepChar;
  }

  /** A clean entry is taken; one that could be a text becomes the last fork. */
  lemma AtClean(line: string, pos: nat, entries: seq<Raw>, compact: bool, fork: Option<Fork>)
    requires pos <= |line| && ForkFits(line, entries, fork) && Head(line, pos) < |line|
    requires CleanAt(line[Head(line, pos)..])
    ensures var h := Head(line, pos);
            var (raw, end, tight) := EntryAt(line[h..]).value;
            var head := TextHead(line[h..]);
            var fork' := if !raw.kind.SweepKind? && head.Some? then Some(Fork(|entries|, head.value, h)) else fork;
            && ForkFits(line, entries + [raw], fork')
            && Rest(line, pos, entries, compact, fork) == Rest(line, h + end, entries + [raw], tight, fork')
  {
    hide EntryAt, TextHead, NoteStart, WordsMark, SpanSeps, TrimEnd, Words, TextRaw, HasSpace, Reading, IsSepChar;
    var h := Head(line, pos);
    var (raw, end, tight) := EntryAt(line[h..]).value;
    CleanReads(line[pos..], pos, entries, compact, fork.Some?);
    assert line[h..][end..] == line[h + end..];
    assert (entries + [raw])[..|entries|] == entries;
    if fork.Some? {
      assert (entries + [raw])[..fork.value.index] == entries[..fork.value.index];
    }
  }

  /** No clean entry, but a free text. */
  lemma AtText(line: string, pos: nat, entries: seq<Raw>, compact: bool, fork: Option<Fork>)
    requires pos <= |line| && ForkFits(line, entries, fork) && Head(line, pos) < |line|
    requires var s := line[Head(line, pos)..];
             !CleanAt(s) && (EntryAt(s).Some? ==> NoteStart(s[EntryAt(s).value.1..]).None?) && TextHead(s).Some?
    ensures var s := line[Head(line, pos)..];
            Rest(line, pos, entries, compact, fork) == Entries(entries + [TextRaw(s, TextHead(s).value)])
  {
    hide EntryAt, TextHead, NoteStart, WordsMark, SpanSeps, TrimEnd, Words;
  }

  /** Neither: under a fork the fork is a text; else his words, or the line refused. */
  lemma AtStuck(line: string, pos: nat, entries: seq<Raw>, compact: bool, fork: Option<Fork>)
    requires pos <= |line| && ForkFits(line, entries, fork) && Head(line, pos) < |line|
    requires var s := line[Head(line, pos)..];
             !CleanAt(s) && (EntryAt(s).Some? ==> NoteStart(s[EntryAt(s).value.1..]).None?) && TextHead(s).None?
    ensures var h := Head(line, pos);
            var s := line[h..];
            Rest(line, pos, entries, compact, fork) ==
            if fork.Some? then Fallback(line, entries, fork.value)
            else if EntryAt(s).Some? && WordsMark(s[EntryAt(s).value.1..])
            then Words(entries + [EntryAt(s).value.0], s[EntryAt(s).value.1..], h + EntryAt(s).value.1, false)
            else if entries != [] then Words(entries, s, h, compact)
            else Line([], Some(NotAnEntry(h)), None, None)
  {
    hide EntryAt, TextHead, NoteStart, WordsMark, SpanSeps, TrimEnd, Words;
  }

  // ----- what a line carries, read off the line

  /** The entry behind the separators at `pos`, where it starts and where it ends. */
  ghost function Next(line: string, pos: nat): (r: Option<(Raw, nat, nat)>)
    requires pos <= |line|
    ensures r.Some? ==> pos <= r.value.1 < r.value.2 <= |line| && r.value.1 == Head(line, pos)
    ensures r.Some? ==> !r.value.0.kind.TextKind? && r.value.0.note.None?
  {
    var h := Head(line, pos);
    if EntryAt(line[h..]).None? then None else Some((EntryAt(line[h..]).value.0, h, h + EntryAt(line[h..]).value.1))
  }

  /** Where the first `k` entries of the line end, each standing behind separators; none when one of them is no entry. */
  ghost function Ends(line: string, k: nat): (r: Option<nat>)
    ensures r.Some? ==> r.value <= |line|
  {
    if k == 0 then Some(0)
    else if Ends(line, k - 1).None? || Next(line, Ends(line, k - 1).value).None? then None
    else Some(Next(line, Ends(line, k - 1).value).value.2)
  }

  /** The entry behind the first `i`. */
  ghost function EntryNo(line: string, i: nat): Option<Raw> {
    if Ends(line, i).None? || Next(line, Ends(line, i).value).None? then None
    else Some(Next(line, Ends(line, i).value).value.0)
  }

  /** The line starts with these entries, and with no others between them. */
  ghost predicate Stand(line: string, entries: seq<Raw>) {
    Ends(line, |entries|).Some? && forall i :: 0 <= i < |entries| ==> EntryNo(line, i) == Some(entries[i])
  }

  lemma EndsStep(line: string, k: nat)
    ensures Ends(line, k + 1).Some? <==> Ends(line, k).Some? && Next(line, Ends(line, k).value).Some?
    ensures Ends(line, k + 1).Some? ==> Ends(line, k + 1).value == Next(line, Ends(line, k).value).value.2
    ensures Ends(line, k + 1).Some? ==> EntryNo(line, k) == Some(Next(line, Ends(line, k).value).value.0)
  {
    hide Next;
  }

  /** Where the run's last entry starts, where it ends, and where the text behind it starts. */
  ghost predicate Run(line: string, entries: seq<Raw>, start: nat, end: nat, at: nat) {
    && entries != [] && Stand(line, entries)
    && Ends(line, |entries| - 1).Some? && start == Head(line, Ends(line, |entries| - 1).value)
    && Ends(line, |entries|) == Some(end) && at == Head(line, end)
  }

  /** The operator's own words may open at `at`, behind a run without a sweep: no digit, no bracket and no pick is there, but
      a mark of words, or a letter when the run's last entry, from `start` to `end`, has no space in it. */
  ghost predicate MayOpen(line: string, entries: seq<Raw>, start: nat, end: nat, at: nat)
    requires end <= at < |line|
  {
    && (forall i :: 0 <= i < |entries| ==> entries[i].kind != SweepKind)
    && !('0' <= line[at] <= '9') && line[at] != '(' && Pick(line[at..]).None?
    && (WordsMark(line[at..])
        || (('a' <= line[at] <= 'z' || 'A' <= line[at] <= 'Z') && forall i :: start <= i < end ==> !IsSpace(line[i])))
  }

  /** Text is left behind a run: it is the operator's words when those may open there, else the line is refused. */
  ghost predicate TextBehind(line: string, l: Line, start: nat, end: nat, at: nat)
    requires end <= at < |line|
  {
    if MayOpen(line, l.entries, start, end, at) then l.error.None? && l.wordsAt == Some(at) == l.saidAt
    else l.error.Some? && l.wordsAt.None?
  }

  /** The last entry is a free text, from its head to the end of the line, or carries a note of all that is behind it. */
  ghost predicate TakesTheRest(line: string, l: Line) {
    && l.entries != [] && Stand(line, l.entries[..|l.entries| - 1])
    && RestTaken(line, Ends(line, |l.entries| - 1).value, l.entries[|l.entries| - 1])
  }

  ghost predicate RestTaken(line: string, pos: nat, last: Raw)
    requires pos <= |line|
  {
    var rest := line[Head(line, pos)..];
    || (TextHead(rest).Some? && last == Raw(TextKind(TrimEnd(rest[TextHead(rest).value.1..])), TextHead(rest).value.0, None))
    || (Next(line, pos).Some?
        && var (raw, start, end) := Next(line, pos).value;
        NoteStart(line[end..]).Some? && last == raw.(note := Some(TrimEnd(line[end + NoteStart(line[end..]).value..]))))
  }

  /** What a line read to `l` is: no answer at all; or one whose last entry takes the rest; or a run with nothing behind it;
      or a run with text behind it. */
  ghost predicate LineRight(line: string, l: Line) {
    if l.entries == [] then (if Head(line, 0) == |line| then Clean(l) else l.error.Some? && l.wordsAt.None?)
    else
      || (Clean(l) && TakesTheRest(line, l))
      || exists start, end, at: nat :: Run(line, l.entries, start, end, at)
           && if at == |line| then Clean(l) else TextBehind(line, l, start, end, at)
  }

  lemma WordsJudged(line: string, before: seq<Raw>, start: nat, end: nat, at: nat, compact: bool)
    requires start <= end <= at < |line| && (compact <==> !HasSpace(line[start..end]))
    ensures TextBehind(line, Words(before, line[at..], at, compact), start, end, at)
    ensures WordsMark(line[at..]) ==> TextBehind(line, Words(before, line[at..], at, false), start, end, at)
  {
    hide Pick, WordsMark, IsSpace;
    assert forall i :: start <= i < end ==> line[start..end][i - start] == line[i];
    assert !HasSpace(line[start..end]) <==> forall i :: start <= i < end ==> !IsSpace(line[i]);
  }

  /** The text behind the run, when the line is neither read to its end nor taken up by its last entry. */
  lemma WordsRight(line: string, before: seq<Raw>, start: nat, end: nat, at: nat, compact: bool)
    requires Run(line, before, start, end, at) && start <= end <= at < |line|
    requires compact <==> !HasSpace(line[start..end])
    ensures LineRight(line, Words(before, line[at..], at, compact))
    ensures WordsMark(line[at..]) ==> LineRight(line, Words(before, line[at..], at, false))
  {
    RunStands(line, before, start, end, at);
    WordsJudged(line, before, start, end, at, compact);
    assert Words(before, line[at..], at, compact).entries == Words(before, line[at..], at, false).entries == before;
    hide Run, TextBehind, Words, Head, TakesTheRest, HasSpace, WordsMark;
  }

  lemma EntryTight(s: string)
    requires EntryAt(s).Some?
    ensures EntryAt(s).value.2 <==> !HasSpace(s[..EntryAt(s).value.1])
  {
    hide Sweep, Entry;
  }

  lemma NextIs(line: string, pos: nat)
    requires pos <= |line|
    ensures var h := Head(line, pos);
            && (Next(line, pos).Some? <==> EntryAt(line[h..]).Some?)
            && (Next(line, pos).Some? ==>
                  var (raw, end, tight) := EntryAt(line[h..]).value;
                  Next(line, pos).value == (raw, h, h + end) && (tight <==> !HasSpace(line[h..h + end])))
  {
    hide EntryAt, HasSpace, Head;
    var h := Head(line, pos);
    if EntryAt(line[h..]).Some? {
      EntryTight(line[h..]);
      assert line[h..][..EntryAt(line[h..]).value.1] == line[h..h + EntryAt(line[h..]).value.1];
    }
  }

  /** The entry at the head, added to a standing run. */
  lemma RunGrows(line: string, before: seq<Raw>, pos: nat)
    requires Stand(line, before) && Ends(line, |before|) == Some(pos) && Next(line, pos).Some?
    ensures var (raw, start, end) := Next(line, pos).value;
            Run(line, before + [raw], start, end, Head(line, end))
  {
    hide Next, Head, Ends, EntryNo;
    EndsStep(line, |before|);
    var (raw, start, end) := Next(line, pos).value;
    assert (before + [raw])[|before|] == raw;
    assert forall i :: 0 <= i < |before| ==> (before + [raw])[i] == before[i];
  }

  /** What is read behind a standing run is right of the line. */
  lemma {:induction false} ReadingRight(line: string, before: seq<Raw>, pos: nat, start: nat, compact: bool, forked: bool)
    requires Stand(line, before) && Ends(line, |before|) == Some(pos)
    requires before != [] ==> && Run(line, before, start, pos, Head(line, pos)) && start <= pos
                              && (compact <==> !HasSpace(line[start..pos]))
    ensures var r := Reading(line[pos..], pos, before, compact, forked); r.Some? ==> LineRight(line, r.value)
    decreases |line| - pos, 1
  {
    assert before == [] ==> pos == 0;
    hide EntryAt, TextHead, NoteStart, WordsMark, TrimEnd, Words, TextRaw, HasSpace, Stand, Run, TakesTheRest;
    if Head(line, pos) == |line| {
    } else if CleanAt(line[Head(line, pos)..]) {
      CleanRight(line, before, pos, compact, forked);
    } else {
      StopRight(line, before, pos, start, compact, forked);
    }
  }

  /** One step of the reading, in the line's own places. */
  lemma NextReads(line: string, pos: nat, before: seq<Raw>, compact: bool, forked: bool)
    requires pos <= |line| && Head(line, pos) < |line| && CleanAt(line[Head(line, pos)..])
    ensures Next(line, pos).Some?
    ensures var (raw, h, end) := Next(line, pos).value;
            var head := TextHead(line[h..]);
            if !raw.kind.SweepKind? && head.Some? then
              var pick := Reading(line[end..], end, before + [raw], !HasSpace(line[h..end]), true);
              Reading(line[pos..], pos, before, compact, forked) ==
              if pick.Some? then pick
              else Some(Line(before + [TextRaw(line[h..], head.value)], None, None, Some(h + head.value.1)))
            else Reading(line[pos..], pos, before, compact, forked)
                 == Reading(line[end..], end, before + [raw], !HasSpace(line[h..end]), forked)
  {
    hide EntryAt, TextHead, NoteStart, SpanSeps, TextRaw, HasSpace, IsSepChar, Reading, Next;
    var h := Head(line, pos);
    CleanReads(line[pos..], pos, before, compact, forked);
    NextIs(line, pos);
    assert line[h..][EntryAt(line[h..]).value.1..] == line[h + EntryAt(line[h..]).value.1..];
  }

  lemma {:induction false} CleanRight(line: string, before: seq<Raw>, pos: nat, compact: bool, forked: bool)
    requires Stand(line, before) && Ends(line, |before|) == Some(pos)
    requires Head(line, pos) < |line| && CleanAt(line[Head(line, pos)..])
    ensures var r := Reading(line[pos..], pos, before, compact, forked); r.Some? ==> LineRight(line, r.value)
    decreases |line| - pos, 0
  {
    hide EntryAt, TextHead, NoteStart, TextRaw, HasSpace, Reading, LineRight, Ends, Stand, Next, Run, Head, CleanAt;
    NextReads(line, pos, before, compact, forked);
    var (raw, h, end) := Next(line, pos).value;
    RunGrows(line, before, pos);
    RunStands(line, before + [raw], h, end, Head(line, end));
    ReadingRight(line, before + [raw], end, h, !HasSpace(line[h..end]), true);
    ReadingRight(line, before + [raw], end, h, !HasSpace(line[h..end]), forked);
    if TextHead(line[h..]).Some? {
      TextRight(line, before, pos, Some(h + TextHead(line[h..]).value.1));
    }
  }

  lemma RunStands(line: string, entries: seq<Raw>, start: nat, end: nat, at: nat)
    requires Run(line, entries, start, end, at)
    ensures Stand(line, entries) && Ends(line, |entries|) == Some(end) && entries != []
  {
    hide Stand, Ends, Head;
  }

  /** A last entry that is a free text. */
  lemma TextRight(line: string, before: seq<Raw>, pos: nat, said: Option<nat>)
    requires Stand(line, before) && Ends(line, |before|) == Some(pos) && TextHead(line[Head(line, pos)..]).Some?
    ensures var s := line[Head(line, pos)..];
            LineRight(line, Line(before + [TextRaw(s, TextHead(s).value)], None, None, said))
  {
    hide EntryAt, TextHead, NoteStart, Stand, TextRaw, Head;
    var s := line[Head(line, pos)..];
    assert RestTaken(line, pos, TextRaw(s, TextHead(s).value)) by { TextIsTrimmed(s); }
    hide RestTaken;
    LastTakes(line, before, pos, TextRaw(s, TextHead(s).value), said);
  }

  lemma TextIsTrimmed(s: string)
    ensures TextHead(s).Some? ==>
              TextRaw(s, TextHead(s).value) == Raw(TextKind(TrimEnd(s[TextHead(s).value.1..])), TextHead(s).value.0, None)
  {
    hide TextHead, TrimEnd;
  }

  lemma LastTakes(line: string, before: seq<Raw>, pos: nat, last: Raw, said: Option<nat>)
    requires Stand(line, before) && Ends(line, |before|) == Some(pos) && RestTaken(line, pos, last)
    ensures LineRight(line, Line(before + [last], None, None, said))
  {
    hide Stand, Head, RestTaken, Ends;
    assert (before + [last])[..|before|] == before;
  }

  /** A last entry that carries a note. */
  lemma NoteRight(line: string, before: seq<Raw>, pos: nat, said: Option<nat>)
    requires Stand(line, before) && Ends(line, |before|) == Some(pos) && Next(line, pos).Some?
    requires NoteStart(line[Next(line, pos).value.2..]).Some?
    ensures var (raw, start, end) := Next(line, pos).value;
            var last := raw.(note := Some(TrimEnd(line[end + NoteStart(line[end..]).value..])));
            LineRight(line, Line(before + [last], None, None, said))
  {
    hide EntryAt, TextHead, NoteStart, Stand, TextRaw, Head, TrimEnd, Next, LineRight, Ends;
    var (raw, start, end) := Next(line, pos).value;
    LastTakes(line, before, pos, raw.(note := Some(TrimEnd(line[end + NoteStart(line[end..]).value..]))), said);
  }

  /** No clean entry, so the reading stops: at a note, a text, the operator's words, or an error. */
  lemma StopRight(line: string, before: seq<Raw>, pos: nat, start: nat, compact: bool, forked: bool)
    requires Stand(line, before) && Ends(line, |before|) == Some(pos) && (before == [] ==> pos == 0)
    requires Head(line, pos) < |line| && !CleanAt(line[Head(line, pos)..])
    requires before != [] ==> && Run(line, before, start, pos, Head(line, pos)) && start <= pos
                              && (compact <==> !HasSpace(line[start..pos]))
    ensures var r := Reading(line[pos..], pos, before, compact, forked); r.Some? ==> LineRight(line, r.value)
  {
    hide EntryAt, TextHead, NoteStart, WordsMark, TrimEnd, Words, TextRaw, HasSpace, Stand, Run, Ends, LineRight, Next,
         Reading, CleanAt, Head;
    var next, h := Next(line, pos), Head(line, pos);
    if next.Some? && NoteStart(line[next.value.2..]).Some? {
      NoteStops(line, before, pos, compact, forked);
    } else if next.Some? && TextHead(line[h..]).None? && WordsMark(line[next.value.2..]) {
      MarkStops(line, before, pos, compact, forked);
    } else {
      StopReads(line, pos, before, compact, forked);
      if TextHead(line[h..]).Some? {
        TextRight(line, before, pos, None);
      } else if before != [] {
        WordsRight(line, before, start, pos, h, compact);
      } else {
        NothingRight(line);
      }
    }
  }

  lemma NoteStops(line: string, before: seq<Raw>, pos: nat, compact: bool, forked: bool)
    requires Stand(line, before) && Ends(line, |before|) == Some(pos)
    requires Head(line, pos) < |line| && !CleanAt(line[Head(line, pos)..])
    requires Next(line, pos).Some? && NoteStart(line[Next(line, pos).value.2..]).Some?
    ensures var r := Reading(line[pos..], pos, before, compact, forked); r.Some? && LineRight(line, r.value)
  {
    hide EntryAt, TextHead, NoteStart, WordsMark, TrimEnd, Words, TextRaw, HasSpace, Stand, Run, Ends, LineRight, Next,
         Reading, CleanAt, Head;
    StopReads(line, pos, before, compact, forked);
    var end := Next(line, pos).value.2;
    NoteRight(line, before, pos, Some(end + NoteStart(line[end..]).value));
  }

  lemma MarkStops(line: string, before: seq<Raw>, pos: nat, compact: bool, forked: bool)
    requires Stand(line, before) && Ends(line, |before|) == Some(pos)
    requires Head(line, pos) < |line| && !CleanAt(line[Head(line, pos)..])
    requires Next(line, pos).Some? && NoteStart(line[Next(line, pos).value.2..]).None?
    requires TextHead(line[Head(line, pos)..]).None? && WordsMark(line[Next(line, pos).value.2..])
    ensures var r := Reading(line[pos..], pos, before, compact, forked); r.Some? ==> LineRight(line, r.value)
  {
    hide EntryAt, TextHead, NoteStart, WordsMark, TrimEnd, Words, TextRaw, HasSpace, Stand, Run, Ends, LineRight, Next,
         Reading, CleanAt, Head;
    StopReads(line, pos, before, compact, forked);
    TextRightOn(line, pos);
    MarkBehind(line, before, pos);
  }

  /** Where the reading stops, by what stands there. */
  lemma StopReads(line: string, pos: nat, before: seq<Raw>, compact: bool, forked: bool)
    requires pos <= |line| && Head(line, pos) < |line| && !CleanAt(line[Head(line, pos)..])
    ensures var h, next, r := Head(line, pos), Next(line, pos), Reading(line[pos..], pos, before, compact, forked);
            if next.Some? && NoteStart(line[next.value.2..]).Some? then
              var (raw, start, end) := next.value;
              var n := end + NoteStart(line[end..]).value;
              r == Some(Line(before + [raw.(note := Some(TrimEnd(line[n..])))], None, None, Some(n)))
            else if TextHead(line[h..]).Some? then r == Some(Entries(before + [TextRaw(line[h..], TextHead(line[h..]).value)]))
            else if forked then r == None
            else if next.Some? && WordsMark(line[next.value.2..]) then
              r == Some(Words(before + [next.value.0], line[next.value.2..], next.value.2, false))
            else if before != [] then r == Some(Words(before, line[h..], h, compact))
            else r == Some(Line([], Some(NotAnEntry(h)), None, None))
  {
    hide EntryAt, TextHead, NoteStart, WordsMark, SpanSeps, TrimEnd, Words, TextRaw, HasSpace, Next;
    NextIs(line, pos);
    var s := line[Head(line, pos)..];
    if Next(line, pos).Some? {
      var end := EntryAt(s).value.1;
      assert s[end..] == line[Next(line, pos).value.2..];
      if NoteStart(s[end..]).Some? {
        assert s[end..][NoteStart(s[end..]).value..] == line[Next(line, pos).value.2 + NoteStart(s[end..]).value..];
      }
    }
  }

  lemma NothingRight(line: string)
    requires Head(line, 0) < |line|
    ensures LineRight(line, Line([], Some(NotAnEntry(Head(line, 0))), None, None))
  {
  }

  /** A mark of words right on an entry. */
  lemma MarkBehind(line: string, before: seq<Raw>, pos: nat)
    requires Stand(line, before) && Ends(line, |before|) == Some(pos) && Next(line, pos).Some?
    requires var end := Next(line, pos).value.2; end < |line| && Head(line, end) == end && WordsMark(line[end..])
    ensures var (raw, h, end) := Next(line, pos).value;
            LineRight(line, Words(before + [raw], line[end..], end, false))
  {
    hide WordsMark, Words, HasSpace, Stand, Ends, LineRight, Run, Next, Head;
    RunGrows(line, before, pos);
    var (raw, h, end) := Next(line, pos).value;
    WordsRight(line, before + [raw], h, end, end, !HasSpace(line[h..end]));
  }

  /** An entry that is not clean, and has no note, has text right on it. */
  lemma TextRightOn(line: string, pos: nat)
    requires pos <= |line| && Head(line, pos) < |line| && !CleanAt(line[Head(line, pos)..])
    requires Next(line, pos).Some? && NoteStart(line[Next(line, pos).value.2..]).None?
    ensures var end := Next(line, pos).value.2; end < |line| && Head(line, end) == end
  {
    hide EntryAt, NoteStart, IsSepChar, HasSpace, Next, SpanSeps;
    NextIs(line, pos);
    var h, end := Head(line, pos), Next(line, pos).value.2;
    assert line[h..][EntryAt(line[h..]).value.1..] == line[end..];
    NoSepsHere(line, end);
  }

  lemma NoSepsHere(line: string, pos: nat)
    requires pos < |line| && !IsSepChar(line[pos])
    ensures Head(line, pos) == pos
  {
  }

  lemma ReadLineRight(line: string)
    ensures LineRight(line, ReadLine(line))
  {
    hide Reading, LineRight;
    assert line[0..] == line;
    ReadingRight(line, [], 0, 0, false, false);
  }

  /** A line read with the operator's own words carries no error and no sweep; they open with no digit, bracket or pick, but
      with a mark, or with a letter right behind an entry that has no space in it. */
  lemma WordsOnlyAsAllowed(line: string)
    requires ReadLine(line).wordsAt.Some?
    ensures var l, at := ReadLine(line), ReadLine(line).wordsAt.value;
            && l.error.None? && l.saidAt == Some(at)
            && exists start, end: nat ::
                 end <= at < |line| && Run(line, l.entries, start, end, at) && MayOpen(line, l.entries, start, end, at)
  {
    ReadLineRight(line);
    hide ReadLine, MayOpen, TakesTheRest, EntryAt, Stand, Ends;
  }

  /** Any other text behind the run is an error, and words that may open there are taken. */
  lemma TextBehindIsJudged(line: string, start: nat, end: nat, at: nat)
    requires Run(line, ReadLine(line).entries, start, end, at) && end <= at < |line|
    ensures TextBehind(line, ReadLine(line), start, end, at)
  {
    hide ReadLine, MayOpen, Head, EntryAt, TextBehind, Ends;
    ReadLineRight(line);
    LastIsBare(line, ReadLine(line).entries, start, end, at);
  }

  /** The entries of a run are no texts and carry no notes. */
  lemma LastIsBare(line: string, entries: seq<Raw>, start: nat, end: nat, at: nat)
    requires Run(line, entries, start, end, at)
    ensures var last := entries[|entries| - 1]; !last.kind.TextKind? && last.note.None?
  {
    hide Next, Head, Ends;
    assert EntryNo(line, |entries| - 1) == Some(entries[|entries| - 1]);
  }

  /** One pass, left to right, remembering one fork: the reading above, entry for entry, with no backtracking. */
  method Lex(line: string) returns (out: Line)
    ensures out == ReadLine(line)
    ensures LineRight(line, out)
  {
    ReadLineRight(line);
    AtStart(line);
    var entries: seq<Raw> := [];
    var pos := 0;
    var fork: Option<Fork> := None;
    var compact := false;
    hide Reading, EntryAt, TextHead, NoteStart, Words, WordsMark, SpanSeps, TrimEnd, TextRaw, IsSepChar, Fallback, Rest,
         ReadLine, Head, LineRight;
    while true
      invariant pos <= |line| && ForkFits(line, entries, fork)
      invariant ReadLine(line) == Rest(line, pos, entries, compact, fork)
      decreases |line| - pos
    {
      var h := Head(line, pos);
      if h >= |line| {
        AtEnd(line, pos, entries, compact, fork);
        return Entries(entries);
      }
      var s := line[h..];
      var entry, head := EntryAt(s), TextHead(s);
      if entry.Some? {
        var (raw, end, tight) := entry.value;
        var tail := s[end..];
        var note := NoteStart(tail);
        if note.Some? {
          AtNote(line, pos, entries, compact, fork);
          return Line(entries + [raw.(note := Some(TrimEnd(tail[note.value..])))], None, None,
                      Some(h + end + note.value));
        }
        if tail == "" || IsSepChar(tail[0]) {
          AtClean(line, pos, entries, compact, fork);
          if !raw.kind.SweepKind? && head.Some? {
            fork := Some(Fork(|entries|, head.value, h));
          }
          entries := entries + [raw];
          compact := tight;
          pos := h + end;
          continue;
        }
        if fork.None? && head.None? && WordsMark(tail) {
          AtStuck(line, pos, entries, compact, fork);
          return Words(entries + [raw], tail, h + end, false);
        }
      }
      if head.Some? {
        AtText(line, pos, entries, compact, fork);
        return Entries(entries + [TextRaw(s, head.value)]);
      }
      AtStuck(line, pos, entries, compact, fork);
      if fork.Some? {
        return Fallback(line, entries, fork.value);
      }
      if entries != [] {
        return Words(entries, s, h, compact);
      }
      return Line([], Some(NotAnEntry(h)), None, None);
    }
  }

  /** A line read to its end with no error and no words of his own. */
  predicate Clean(l: Line) {
    l.error.None? && l.wordsAt.None?
  }

  /** `a`, read under a fork, and `b` and `c`, read after something else, under a fork and not: the three agree. */
  predicate Agree(a: Option<Line>, b: Option<Line>, c: Line, before: seq<Raw>, before': seq<Raw>, more: seq<Raw>) {
    && (a.Some? <==> b.Some?) && (a.Some? <==> Clean(c))
    && (a.Some? ==> && a.value.entries == before + more && b.value.entries == before' + more
                    && c.entries == before' + more && Clean(a.value) && Clean(b.value))
  }

  /** A clean reading depends on nothing that stands before it, and is the reading of the text alone. */
  lemma {:induction false} CleanIsAlone(s: string, at: nat, before: seq<Raw>, compact: bool,
                                        at': nat, before': seq<Raw>, compact': bool) returns (more: seq<Raw>)
    ensures Agree(Reading(s, at, before, compact, true), Reading(s, at', before', compact', true),
                  Reading(s, at', before', compact', false).value, before, before', more)
    decreases |s|, 1
  {
    hide EntryAt, TextHead, NoteStart, WordsMark, SpanSeps, TrimEnd, TextRaw, HasSpace, IsSepChar, Pick;
    var rest := s[SpanSeps(s)..];
    var entry, head := EntryAt(rest), TextHead(rest);
    more := [];
    if rest == "" {
    } else if CleanAt(rest) {
      more := CleanTailIsAlone(s, at, before, compact, at', before', compact');
    } else if entry.Some? && NoteStart(rest[entry.value.1..]).Some? {
      var tail := rest[entry.value.1..];
      more := [entry.value.0.(note := Some(TrimEnd(tail[NoteStart(tail).value..])))];
    } else if head.Some? {
      more := [TextRaw(rest, head.value)];
    }
  }

  lemma {:induction false} CleanTailIsAlone(s: string, at: nat, before: seq<Raw>, compact: bool,
                                            at': nat, before': seq<Raw>, compact': bool) returns (more: seq<Raw>)
    requires SpanSeps(s) < |s| && CleanAt(s[SpanSeps(s)..])
    ensures Agree(Reading(s, at, before, compact, true), Reading(s, at', before', compact', true),
                  Reading(s, at', before', compact', false).value, before, before', more)
    decreases |s|, 0
  {
    hide Reading, EntryAt, TextHead, NoteStart, SpanSeps, TextRaw, IsSepChar;
    CleanReads(s, at, before, compact, true);
    CleanReads(s, at', before', compact', true);
    CleanReads(s, at', before', compact', false);
    var k := SpanSeps(s);
    var (raw, end, tight) := EntryAt(s[k..]).value;
    var head, tail := TextHead(s[k..]), s[k..][end..];
    var rest := CleanIsAlone(tail, at + k + end, before + [raw], tight, at' + k + end, before' + [raw], tight);
    more := [raw] + rest;
    assert before + [raw] + rest == before + more && before' + [raw] + rest == before' + more;
    if !raw.kind.SweepKind? && head.Some? && Reading(tail, at + k + end, before + [raw], tight, true).None? {
      more := [TextRaw(s[k..], head.value)];
    }
  }

  /** An entry that reads both as a pick and as the head of a free text is the pick exactly when the text behind it,
      read as a line of its own, lexes cleanly; the entries of that line then follow it. Else it is the text, to the
      end of the line. */
  lemma PickIffRestIsClean(s: string, at: nat, before: seq<Raw>, compact: bool)
    requires SpanSeps(s) < |s| && CleanAt(s[SpanSeps(s)..])
    requires var rest := s[SpanSeps(s)..]; !EntryAt(rest).value.0.kind.SweepKind? && TextHead(rest).Some?
    ensures var rest := s[SpanSeps(s)..];
            var alone := ReadLine(rest[EntryAt(rest).value.1..]);
            Reading(s, at, before, compact, false).value.entries ==
            if Clean(alone) then before + [EntryAt(rest).value.0] + alone.entries
            else before + [TextRaw(rest, TextHead(rest).value)]
  {
    hide Reading, EntryAt, TextHead, NoteStart, SpanSeps, TextRaw, IsSepChar;
    CleanReads(s, at, before, compact, false);
    var k := SpanSeps(s);
    var (raw, end, tight) := EntryAt(s[k..]).value;
    var more := CleanIsAlone(s[k..][end..], at + k + end, before + [raw], tight, 0, [], false);
  }
}
