/** The block of answers at the head of a message (levain/band_shorthand.py, `parse`). */
module ShorthandMessage {
  import opened Wrappers
  import opened Strings
  import opened ShorthandLexer
  import opened ShorthandPlan

  const LINE_MAX := 2000

  function Lines(text: string): (lines: seq<string>)
    ensures lines != []
  {
    SplitOn(text, '\n')
  }

  /** The entries of a line that reads in full. Where his own words follow them, each carries the whole line. */
  function Read(line: string): (r: Option<seq<Raw>>)
    ensures r.Some? ==> r.value != []
  {
    if Trim(line) == "" || |line| > LINE_MAX then None
    else
      var l := ReadLine(line);
      if l.error.Some? || l.entries == [] then None
      else if l.wordsAt.Some? then Some(seq(|l.entries|, i requires 0 <= i < |l.entries| => l.entries[i].(note := Some(Trim(line)))))
      else Some(l.entries)
  }

  /** A line is of the block exactly when it holds more than white space, is no longer than 2000, and lexes to entries with no
      error; they are the lexer's, each with the whole stripped line as its note when the operator's words follow them. */
  lemma ReadIff(line: string)
    ensures Read(line).Some? <==>
              && (exists i :: 0 <= i < |line| && !IsSpace(line[i])) && |line| <= 2000
              && ReadLine(line).error.None? && ReadLine(line).entries != []
    ensures Read(line).Some? ==>
              && |Read(line).value| == |ReadLine(line).entries|
              && forall i :: 0 <= i < |ReadLine(line).entries| ==>
                   Read(line).value[i] == if ReadLine(line).wordsAt.None? then ReadLine(line).entries[i]
                                          else ReadLine(line).entries[i].(note := Some(Trim(line)))
  {
    var a, b := TrimStrips(line);
    hide ReadLine, Trim;
  }

  /** How many leading ones there are. */
  function Leading<T>(tried: seq<Option<T>>): (k: nat)
    ensures k <= |tried|
    ensures forall i :: 0 <= i < k ==> tried[i].Some?
    ensures k < |tried| ==> tried[k].None?
  {
    if tried == [] || tried[0].None? then 0 else 1 + Leading(tried[1..])
  }

  /** How many lines the block has: the leading ones that read in full. */
  function BlockLength(lines: seq<string>): (k: nat)
    ensures k <= |lines|
    ensures forall i :: 0 <= i < k ==> Read(lines[i]).Some?
    ensures k < |lines| ==> Read(lines[k]).None?
  {
    var tried := seq(|lines|, i requires 0 <= i < |lines| => Read(lines[i]));
    assert forall i :: 0 <= i < |lines| ==> tried[i] == Read(lines[i]);
    Leading(tried)
  }

  function BlockEntries(lines: seq<string>): seq<Raw>
    requires forall i :: 0 <= i < |lines| ==> Read(lines[i]).Some?
  {
    if lines == [] then [] else BlockEntries(lines[..|lines| - 1]) + Read(lines[|lines| - 1]).value
  }

  datatype Parsed = Parsed(matched: bool, plan: Plan, rest: string)

  /** What a message records, and what is left of it. */
  method Parse(text: string, view: Option<View>, items: map<nat, Item>, store: Option<nat>) returns (r: Parsed)
    ensures var lines := Lines(text);
            var k := BlockLength(lines);
            var raws := BlockEntries(lines[..k]);
            && (r.matched <==> k > 0)
            && text == (if k == 0 then r.rest else if k == |lines| then JoinWith(lines, '\n') else JoinWith(lines[..k], '\n') + "\n" + r.rest)
            && r.rest == (if k == 0 then text else JoinWith(lines[k..], '\n'))
            && if !r.matched then r.plan == Plan([], [], [])
               else if view.None? then r.plan == Plan([], [], [Refusal(None, NoBandShown)])
               else if store.Some? && view.value.store != store.value then r.plan == Plan([], [], [Refusal(None, OtherStore)])
               else Accounts(r.plan, Named(raws) + Swept(raws, view.value), raws, view.value, items)
  {
    hide Read, Accounts, Named, Swept;
    var lines := Lines(text);
    ghost var k := BlockLength(lines);
    SplitJoins(text, '\n');
    var raws: seq<Raw> := [];
    var used := 0;
    while used < |lines|
      invariant used <= k && raws == BlockEntries(lines[..used])
      invariant raws == [] <==> used == 0
    {
      var read := Read(lines[used]);
      if read.None? {
        break;
      }
      assert lines[..used + 1][..used] == lines[..used];
      raws := raws + read.value;
      used := used + 1;
    }
    assert used == k;
    if raws == [] {
      return Parsed(false, Plan([], [], []), text);
    }
    if k < |lines| {
      JoinCut(lines, '\n', k);
    }
    var rest := JoinWith(lines[used..], '\n');
    if view.None? {
      return Parsed(true, Plan([], [], [Refusal(None, NoBandShown)]), rest);
    }
    if store.Some? && view.value.store != store.value {
      return Parsed(true, Plan([], [], [Refusal(None, OtherStore)]), rest);
    }
    var plan := Decide(raws, view.value, items);
    return Parsed(true, plan, rest);
  }
}
