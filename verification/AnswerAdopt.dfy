/** Adopting an edited seed: every skeleton tried, every reading proved by rendering it, the best one taken
    (levain/answers.py, `extract_answers`). */
module AnswerAdopt {
  import opened Wrappers
  import opened AnswerExtract

  /** A template: its slots, each once, its optional sections, its own renderer and the renderer's normalisation. */
  datatype Template = Template(slots: seq<string>, optional: seq<seq<string>>, render: Answers -> string,
                               norm: string -> string)

  /** A case to try: which optional sections are dropped, whether the age is blank, and the direction of the scan. */
  datatype Try = Try(dropped: seq<bool>, ageBlank: bool, fromRight: bool)

  const AGE := "AGE"

  /** All choices of `k` yes-or-no, no first. */
  function Choices(k: nat): seq<seq<bool>> {
    if k == 0 then [[]] else Each(false, Choices(k - 1)) + Each(true, Choices(k - 1))
  }

  function Each(b: bool, tails: seq<seq<bool>>): seq<seq<bool>> {
    seq(|tails|, i requires 0 <= i < |tails| => [b] + tails[i])
  }

  lemma {:induction false} ChoicesAreAll(k: nat, d: seq<bool>)
    ensures d in Choices(k) <==> |d| == k
  {
    if k == 0 {
      assert |d| == 0 ==> d == Choices(0)[0];
    } else {
      var tails := Choices(k - 1);
      EachHolds(false, tails, d);
      EachHolds(true, tails, d);
      if d != [] {
        ChoicesAreAll(k - 1, d[1..]);
      }
    }
  }

  lemma EachHolds(b: bool, tails: seq<seq<bool>>, d: seq<bool>)
    ensures d in Each(b, tails) <==> d != [] && d[0] == b && d[1..] in tails
  {
    if d != [] && d[0] == b && d[1..] in tails {
      var i :| 0 <= i < |tails| && tails[i] == d[1..];
      assert Each(b, tails)[i] == d;
    }
  }

  /** The cases in the order they are tried. */
  function Tries(drops: seq<seq<bool>>, age: bool): seq<Try> {
    if drops == [] then []
    else [Try(drops[0], false, false), Try(drops[0], false, true)]
         + (if age then [Try(drops[0], true, false), Try(drops[0], true, true)] else [])
         + Tries(drops[1..], age)
  }

  lemma {:induction false} TriesAreAll(drops: seq<seq<bool>>, age: bool, t: Try)
    ensures t in Tries(drops, age) <==> t.dropped in drops && (t.ageBlank ==> age)
  {
    if drops != [] {
      TriesAreAll(drops[1..], age, t);
      assert drops == [drops[0]] + drops[1..];
    }
  }

  predicate IsTry(tp: Template, t: Try) {
    |t.dropped| == |tp.optional| && (t.ageBlank ==> AGE in tp.slots)
  }

  function AllTries(tp: Template): (r: seq<Try>) {
    Tries(Choices(|tp.optional|), AGE in tp.slots)
  }

  lemma AllTriesAreTried(tp: Template)
    ensures forall t :: t in AllTries(tp) <==> IsTry(tp, t)
  {
    forall t ensures t in AllTries(tp) <==> IsTry(tp, t) {
      TriesAreAll(Choices(|tp.optional|), AGE in tp.slots, t);
      ChoicesAreAll(|tp.optional|, t.dropped);
    }
  }

  predicate Blank(tp: Template, t: Try, slot: string) {
    || (t.ageBlank && slot == AGE)
    || (exists i :: 0 <= i < |tp.optional| && i < |t.dropped| && t.dropped[i] && slot in tp.optional[i])
  }

  /** The answers rendered to get a case's skeleton: a sentinel for every slot it keeps. */
  function Fill(tp: Template, t: Try): Answers {
    map slot | slot in tp.slots :: if Blank(tp, t, slot) then "" else Sentinel(slot)
  }

  /** What a case reads in the seed. */
  function TryRead(tp: Template, target: string, t: Try): Result<Option<Answers>, AdoptError> {
    ReadBack(target, tp.norm(tp.render(Fill(tp, t))), t.fromRight)
  }

  predicate Answered(tp: Template, a: Answers) {
    forall slot :: slot in tp.slots ==> slot in a
  }

  /** Every slot answered: what was found, and blank for the rest. */
  function Completed(tp: Template, found: Answers): (a: Answers)
    ensures Answered(tp, a)
  {
    (map slot | slot in tp.slots :: "") + found
  }

  /** The answers a case proves: those it reads, when they render to the seed. */
  function Proof(tp: Template, target: string, t: Try): (r: Option<Answers>)
    ensures r.Some? ==> tp.norm(tp.render(r.value)) == target && Answered(tp, r.value)
  {
    var found := TryRead(tp, target, t);
    if found.Ok? && found.value.Some? && tp.norm(tp.render(Completed(tp, found.value.value))) == target
    then Some(Completed(tp, found.value.value)) else None
  }

  ghost predicate Proven(tp: Template, target: string, a: Answers) {
    exists t :: IsTry(tp, t) && Proof(tp, target, t) == Some(a)
  }

  ghost predicate SideBySideSomewhere(tp: Template, target: string) {
    exists t :: IsTry(tp, t) && TryRead(tp, target, t).Err?
  }

  /** A case's skeleton is rendered with a blank for the age, when it is tried blank, and for every slot of a section dropped,
      and with its own name between the marks for every other; a reading answers what it read, and blank for the rest. */
  lemma CasesAsTried(tp: Template, t: Try, found: Answers, slot: string)
    requires slot in tp.slots && |t.dropped| == |tp.optional|
    ensures var blank := (t.ageBlank && slot == "AGE")
                         || exists i :: 0 <= i < |t.dropped| && t.dropped[i] && slot in tp.optional[i];
            slot in Fill(tp, t) && Fill(tp, t)[slot] == if blank then "" else ['\U{E000}'] + slot + ['\U{E001}']
    ensures slot in Completed(tp, found) && Completed(tp, found)[slot] == if slot in found then found[slot] else ""
  {
  }

  // ---- Rank ----

  /** How many answers differ from the record, then how much text is in the answers. */
  datatype Rank = Rank(moved: nat, text: nat)

  predicate Below(a: Rank, b: Rank) {
    a.moved < b.moved || (a.moved == b.moved && a.text < b.text)
  }

  function Moved(slots: seq<string>, a: Answers, prior: Answers): nat
    requires forall slot :: slot in slots ==> slot in a
  {
    if slots == [] then 0
    else (if a[slots[0]] != (if slots[0] in prior then prior[slots[0]] else "") then 1 else 0)
         + Moved(slots[1..], a, prior)
  }

  ghost function TextIn(a: Answers): nat {
    if a == map[] then 0
    else
      var slot :| slot in a;
      |a[slot]| + TextIn(a - {slot})
  }

  lemma {:induction false} TextWithout(a: Answers, slot: string)
    requires slot in a
    ensures TextIn(a) == |a[slot]| + TextIn(a - {slot})
    decreases |a|
  {
    var first :| first in a && TextIn(a) == |a[first]| + TextIn(a - {first});
    if first != slot {
      TextWithout(a - {first}, slot);
      TextWithout(a - {slot}, first);
      assert a - {first} - {slot} == a - {slot} - {first};
    }
  }

  ghost function RankOf(tp: Template, a: Answers, prior: Option<Answers>): Rank
    requires Answered(tp, a)
  {
    Rank(if prior.Some? && prior.value != map[] then Moved(tp.slots, a, prior.value) else 0, TextIn(a))
  }

  method ComputeRank(tp: Template, a: Answers, prior: Option<Answers>) returns (r: Rank)
    requires Answered(tp, a)
    ensures r == RankOf(tp, a, prior)
  {
    var text, left := 0, a;
    while left != map[]
      invariant text + TextIn(left) == TextIn(a)
      decreases |left|
    {
      var slot :| slot in left;
      TextWithout(left, slot);
      text := text + |left[slot]|;
      left := left - {slot};
    }
    r := Rank(if prior.Some? && prior.value != map[] then Moved(tp.slots, a, prior.value) else 0, text);
  }

  // ---- The extraction ----

  function Power2(k: nat): nat {
    if k == 0 then 1 else 2 * Power2(k - 1)
  }

  /** The slots, by their places, whose answer is not the record's (a blank, where the record has none). */
  ghost function Changed(slots: seq<string>, a: Answers, record: Answers): set<nat>
    requires forall slot :: slot in slots ==> slot in a
  {
    set i: nat | i < |slots| && a[slots[i]] != if slots[i] in record then record[slots[i]] else ""
  }

  /** `a` is nearer the record than `b`: fewer of its slots changed, or as many and less text in its answers. With no record
      kept, only the text counts. */
  ghost predicate Nearer(tp: Template, prior: Option<Answers>, a: Answers, b: Answers)
    requires Answered(tp, a) && Answered(tp, b)
  {
    var recorded := prior.Some? && prior.value != map[];
    || (recorded && |Changed(tp.slots, a, prior.value)| < |Changed(tp.slots, b, prior.value)|)
    || ((recorded ==> |Changed(tp.slots, a, prior.value)| == |Changed(tp.slots, b, prior.value)|) && TextIn(a) < TextIn(b))
  }

  /** The changed slots from place `k` on. */
  ghost function ChangedFrom(slots: seq<string>, a: Answers, record: Answers, k: nat): set<nat>
    requires forall slot :: slot in slots ==> slot in a
  {
    set i | i in Changed(slots, a, record) && k <= i
  }

  lemma {:induction false} MovedFrom(slots: seq<string>, a: Answers, record: Answers, k: nat)
    requires k <= |slots| && forall slot :: slot in slots ==> slot in a
    ensures Moved(slots[k..], a, record) == |ChangedFrom(slots, a, record, k)|
    decreases |slots| - k
  {
    if k == |slots| {
      assert ChangedFrom(slots, a, record, k) == {};
    } else {
      MovedFrom(slots, a, record, k + 1);
      assert slots[k..][1..] == slots[k + 1..] && slots[k..][0] == slots[k];
      var later := ChangedFrom(slots, a, record, k + 1);
      assert k in Changed(slots, a, record) ==> ChangedFrom(slots, a, record, k) == later + {k};
      assert k !in Changed(slots, a, record) ==> ChangedFrom(slots, a, record, k) == later;
    }
  }

  lemma MovedIsChanged(slots: seq<string>, a: Answers, record: Answers)
    requires forall slot :: slot in slots ==> slot in a
    ensures Moved(slots, a, record) == |Changed(slots, a, record)|
  {
    MovedFrom(slots, a, record, 0);
    assert slots[0..] == slots;
    assert ChangedFrom(slots, a, record, 0) == Changed(slots, a, record);
  }

  lemma BelowIsNearer(tp: Template, prior: Option<Answers>, a: Answers, b: Answers)
    requires Answered(tp, a) && Answered(tp, b)
    ensures Below(RankOf(tp, a, prior), RankOf(tp, b, prior)) <==> Nearer(tp, prior, a, b)
  {
    if prior.Some? {
      MovedIsChanged(tp.slots, a, prior.value);
      MovedIsChanged(tp.slots, b, prior.value);
    }
    hide Moved, Changed;
  }

  /** A proven answer set nearer the record than every other proven one. */
  ghost predicate BestOfProven(tp: Template, target: string, prior: Option<Answers>, a: Answers) {
    && Proven(tp, target, a)
    && forall b :: Proven(tp, target, b) && b != a ==> Nearer(tp, prior, a, b)
  }

  function Combinations(tp: Template): nat {
    Power2(|tp.optional|) * (if AGE in tp.slots then 2 else 1)
  }

  lemma {:induction false} ChoicesCounted(k: nat)
    ensures |Choices(k)| == Power2(k)
  {
    if k > 0 {
      ChoicesCounted(k - 1);
    }
  }

  lemma {:induction false} TriesCounted(drops: seq<seq<bool>>, age: bool)
    ensures |Tries(drops, age)| == |drops| * if age then 4 else 2
  {
    if drops != [] {
      TriesCounted(drops[1..], age);
    }
  }

  /** The bound is on the cases there are, one for each direction of the scan. */
  lemma CombinationsAreTried(tp: Template)
    ensures |AllTries(tp)| == 2 * Combinations(tp)
  {
    ChoicesCounted(|tp.optional|);
    TriesCounted(Choices(|tp.optional|), AGE in tp.slots);
    hide Choices, Tries, Power2;
  }

  /** The one answer set that renders to the seed, or a refusal: nothing partial, and nothing ambiguous. */
  method Adopt(text: string, tp: Template, prior: Option<Answers>, maxCombinations: nat)
    returns (r: Result<Answers, AdoptError>)
    ensures var target := tp.norm(text);
            if Combinations(tp) > maxCombinations then r == Err(TooManyCombinations)
            else if SideBySideSomewhere(tp, target) then r == Err(SideBySide)
            else if forall a :: !Proven(tp, target, a) then r == Err(Differs)
            else
              && (r.Ok? ==> BestOfProven(tp, target, prior, r.value))
              && (r.Err? ==> r.error == Ambiguous && forall a :: !BestOfProven(tp, target, prior, a))
    ensures r.Ok? ==> && tp.norm(tp.render(r.value)) == tp.norm(text)
                      && Answered(tp, r.value)
  {
    if Combinations(tp) > maxCombinations {
      return Err(TooManyCombinations);
    }
    var target := tp.norm(text);
    var proven := Prove(tp, target);
    if proven.Err? {
      return Err(proven.error);
    }
    if proven.value == [] {
      return Err(Differs);
    }
    r := Best(tp, target, prior, proven.value);
    assert Proven(tp, target, proven.value[0]);
  }

  /** Every case in turn; the answer sets proved, each once, or the first refusal. */
  method Prove(tp: Template, target: string) returns (r: Result<seq<Answers>, AdoptError>)
    ensures r.Err? <==> SideBySideSomewhere(tp, target)
    ensures r.Err? ==> r.error == SideBySide
    ensures r.Ok? ==> && (forall a :: Proven(tp, target, a) <==> a in r.value)
                      && forall i, j :: 0 <= i < j < |r.value| ==> r.value[i] != r.value[j]
  {
    var tries := AllTries(tp);
    var proven: seq<Answers> := [];
    hide AllTries, TryRead, IsTry, Completed, Proof, Proven, OnceEach, Kept, Answered, SideBySideSomewhere;
    AllTriesAreTried(tp);
    assert OnceEach(tp, target, proven) by { NoneYet(tp, target, proven); }
    for i := 0 to |tries|
      invariant forall j :: 0 <= j < i ==> TryRead(tp, target, tries[j]).Ok?
      invariant forall j :: 0 <= j < i ==> Kept(Proof(tp, target, tries[j]), proven)
      invariant OnceEach(tp, target, proven)
    {
      var t := tries[i];
      assert t in tries;
      r := ProveOne(tp, target, t, proven);
      if r.Err? {
        SideBySideAt(tp, target, t);
        return;
      }
      forall j | 0 <= j < i ensures Kept(Proof(tp, target, tries[j]), r.value) {
        KeptStays(Proof(tp, target, tries[j]), proven, r.value);
      }
      proven := r.value;
    }
    AllProven(tp, target, tries, proven);
    return Ok(proven);
  }

  /** One case: a refusal outright, or what it proves, kept once. */
  method ProveOne(tp: Template, target: string, t: Try, proven: seq<Answers>) returns (r: Result<seq<Answers>, AdoptError>)
    requires IsTry(tp, t) && OnceEach(tp, target, proven)
    ensures r.Err? <==> TryRead(tp, target, t).Err?
    ensures r.Err? ==> r.error == SideBySide
    ensures r.Ok? ==> && OnceEach(tp, target, r.value) && Kept(Proof(tp, target, t), r.value)
                      && forall a :: a in proven ==> a in r.value
  {
    hide TryRead, IsTry, Completed, Proof, Proven;
    var found := TryRead(tp, target, t);
    if found.Err? {
      SideBySideOnly(tp, target, t);
      return Err(found.error);
    }
    ProofOf(tp, target, t, found.value);
    r := Ok(proven);
    if found.value.Some? {
      var got := Completed(tp, found.value.value);
      if tp.norm(tp.render(got)) == target && got !in proven {
        r := Ok(proven + [got]);
      }
    }
  }

  /** Proven answer sets, none twice. */
  ghost predicate OnceEach(tp: Template, target: string, proven: seq<Answers>) {
    && (forall k :: 0 <= k < |proven| ==> Proven(tp, target, proven[k]))
    && (forall j, k :: 0 <= j < k < |proven| ==> proven[j] != proven[k])
  }

  lemma NoneYet(tp: Template, target: string, none: seq<Answers>)
    requires none == []
    ensures OnceEach(tp, target, none)
  {
  }

  predicate Kept(proof: Option<Answers>, proven: seq<Answers>) {
    proof.Some? ==> proof.value in proven
  }

  lemma KeptStays(proof: Option<Answers>, proven: seq<Answers>, more: seq<Answers>)
    requires Kept(proof, proven) && forall a :: a in proven ==> a in more
    ensures Kept(proof, more)
  {
  }

  lemma SideBySideAt(tp: Template, target: string, t: Try)
    requires IsTry(tp, t) && TryRead(tp, target, t).Err?
    ensures SideBySideSomewhere(tp, target)
  {
  }

  lemma ProofOf(tp: Template, target: string, t: Try, found: Option<Answers>)
    requires TryRead(tp, target, t) == Ok(found)
    ensures Proof(tp, target, t) ==
            if found.Some? && tp.norm(tp.render(Completed(tp, found.value))) == target
            then Some(Completed(tp, found.value)) else None
    ensures IsTry(tp, t) && Proof(tp, target, t).Some? ==> Proven(tp, target, Proof(tp, target, t).value)
  {
  }

  lemma AllProven(tp: Template, target: string, tries: seq<Try>, proven: seq<Answers>)
    requires forall t :: t in tries <==> IsTry(tp, t)
    requires forall j :: 0 <= j < |tries| ==> TryRead(tp, target, tries[j]).Ok?
    requires forall j :: 0 <= j < |tries| ==> Kept(Proof(tp, target, tries[j]), proven)
    requires OnceEach(tp, target, proven)
    ensures !SideBySideSomewhere(tp, target)
    ensures forall a :: Proven(tp, target, a) <==> a in proven
    ensures forall j, k :: 0 <= j < k < |proven| ==> proven[j] != proven[k]
  {
    hide TryRead, Proof, IsTry;
    forall a | Proven(tp, target, a) ensures a in proven {
      var t :| IsTry(tp, t) && Proof(tp, target, t) == Some(a);
      var j :| 0 <= j < |tries| && tries[j] == t;
      assert Kept(Proof(tp, target, tries[j]), proven);
    }
  }

  lemma SideBySideOnly(tp: Template, target: string, t: Try)
    requires TryRead(tp, target, t).Err?
    ensures TryRead(tp, target, t).error == SideBySide
  {
  }

  /** Two proven sets of lowest rank leave no best. */
  lemma TieHasNoBest(tp: Template, target: string, prior: Option<Answers>, proven: seq<Answers>,
                     a: Answers, b: Answers, c: Answers)
    requires forall x :: Proven(tp, target, x) <==> x in proven
    requires forall x :: x in proven ==> Answered(tp, x)
    requires a in proven && b in proven && a != b && RankOf(tp, a, prior) == RankOf(tp, b, prior)
    requires forall i :: 0 <= i < |proven| ==> !Below(RankOf(tp, proven[i], prior), RankOf(tp, a, prior))
    ensures !BestOfProven(tp, target, prior, c)
  {
    hide Proven, RankOf, Nearer;
    if c in proven && c != a {
      BelowIsNearer(tp, prior, c, a);
      var i :| 0 <= i < |proven| && proven[i] == c;
      assert !Below(RankOf(tp, c, prior), RankOf(tp, a, prior));
      assert Proven(tp, target, a);
    } else if c == a {
      BelowIsNearer(tp, prior, a, b);
      assert Proven(tp, target, b);
    }
  }

  /** The only proven set of lowest rank is the best. */
  lemma OneWinner(tp: Template, target: string, prior: Option<Answers>, proven: seq<Answers>, w: nat)
    requires forall x :: Proven(tp, target, x) <==> x in proven
    requires forall x :: x in proven ==> Answered(tp, x)
    requires w < |proven|
    requires forall j :: 0 <= j < |proven| && j != w ==>
               Below(RankOf(tp, proven[w], prior), RankOf(tp, proven[j], prior))
    ensures BestOfProven(tp, target, prior, proven[w])
  {
    hide Proven, RankOf, Answered, Below, Nearer;
    forall b | Proven(tp, target, b) && b != proven[w] ensures Nearer(tp, prior, proven[w], b) {
      var j :| 0 <= j < |proven| && proven[j] == b;
      BelowIsNearer(tp, prior, proven[w], b);
    }
  }

  lemma ProvenIsAnswered(tp: Template, target: string, a: Answers)
    requires Proven(tp, target, a)
    ensures tp.norm(tp.render(a)) == target && Answered(tp, a)
  {
  }

  /** The rank of each, and the lowest. */
  method Lowest(tp: Template, prior: Option<Answers>, proven: seq<Answers>) returns (ranks: seq<Rank>, best: Rank)
    requires proven != [] && forall i :: 0 <= i < |proven| ==> Answered(tp, proven[i])
    ensures |ranks| == |proven| && forall j :: 0 <= j < |ranks| ==> ranks[j] == RankOf(tp, proven[j], prior)
    ensures best in ranks && forall j :: 0 <= j < |ranks| ==> !Below(ranks[j], best)
  {
    hide RankOf;
    best := ComputeRank(tp, proven[0], prior);
    ranks := [best];
    for i := 1 to |proven|
      invariant |ranks| == i && forall j :: 0 <= j < i ==> ranks[j] == RankOf(tp, proven[j], prior)
      invariant best in ranks && forall j :: 0 <= j < i ==> !Below(ranks[j], best)
    {
      var rank := ComputeRank(tp, proven[i], prior);
      ranks := ranks + [rank];
      if Below(rank, best) {
        best := rank;
      }
    }
  }

  /** Where a rank stands. */
  method Having(ranks: seq<Rank>, best: Rank) returns (winners: seq<nat>)
    ensures forall j :: 0 <= j < |ranks| ==> (ranks[j] == best <==> j in winners)
    ensures forall k :: 0 <= k < |winners| ==> winners[k] < |ranks| && ranks[winners[k]] == best
    ensures forall j, k :: 0 <= j < k < |winners| ==> winners[j] < winners[k]
  {
    winners := [];
    for i := 0 to |ranks|
      invariant forall j :: 0 <= j < i ==> (ranks[j] == best <==> j in winners)
      invariant forall k :: 0 <= k < |winners| ==> winners[k] < i && ranks[winners[k]] == best
      invariant forall j, k :: 0 <= j < k < |winners| ==> winners[j] < winners[k]
    {
      if ranks[i] == best {
        winners := winners + [i];
      }
    }
  }

  /** The one proven set of lowest rank; two of it are a refusal. */
  method Best(tp: Template, ghost target: string, prior: Option<Answers>, proven: seq<Answers>)
    returns (r: Result<Answers, AdoptError>)
    requires proven != []
    requires forall a :: Proven(tp, target, a) <==> a in proven
    requires forall i, j :: 0 <= i < j < |proven| ==> proven[i] != proven[j]
    ensures r.Ok? ==> BestOfProven(tp, target, prior, r.value)
    ensures r.Err? ==> r.error == Ambiguous && forall a :: !BestOfProven(tp, target, prior, a)
    ensures r.Ok? ==> tp.norm(tp.render(r.value)) == target && Answered(tp, r.value)
  {
    forall a | a in proven ensures tp.norm(tp.render(a)) == target && Answered(tp, a) {
      ProvenIsAnswered(tp, target, a);
    }
    hide Proven, RankOf, Answered, BestOfProven;
    var ranks, best := Lowest(tp, prior, proven);
    var winners := Having(ranks, best);
    assert best in ranks;
    assert winners != [] && winners[0] in winners;
    if |winners| > 1 {
      Tied(tp, target, prior, proven, ranks, best, winners);
      return Err(Ambiguous);
    }
    var w := winners[0];
    forall j | 0 <= j < |proven| && j != w
      ensures Below(RankOf(tp, proven[w], prior), RankOf(tp, proven[j], prior))
    {
      assert !Below(ranks[j], best) && j !in winners;
    }
    OneWinner(tp, target, prior, proven, w);
    return Ok(proven[w]);
  }

  lemma Tied(tp: Template, target: string, prior: Option<Answers>, proven: seq<Answers>, ranks: seq<Rank>, best: Rank,
             winners: seq<nat>)
    requires forall x :: Proven(tp, target, x) <==> x in proven
    requires forall x :: x in proven ==> Answered(tp, x)
    requires forall i, j :: 0 <= i < j < |proven| ==> proven[i] != proven[j]
    requires |ranks| == |proven| && forall j :: 0 <= j < |ranks| ==> ranks[j] == RankOf(tp, proven[j], prior)
    requires forall j :: 0 <= j < |ranks| ==> !Below(ranks[j], best)
    requires |winners| > 1 && winners[0] < winners[1] < |ranks|
    requires ranks[winners[0]] == best == ranks[winners[1]]
    ensures forall c :: !BestOfProven(tp, target, prior, c)
  {
    hide Proven, RankOf, Answered, BestOfProven;
    var a, b := winners[0], winners[1];
    forall c ensures !BestOfProven(tp, target, prior, c) {
      TieHasNoBest(tp, target, prior, proven, proven[a], proven[b], c);
    }
  }
}
