/** The per-process cache of verified chains (levain/authority.py, `ReplayCache` and `_replay_entry`). */
module ReplayCache {
  import opened Wrappers
  import opened AuthorityModel
  import opened AuthorityStep
  import opened AuthorityReplay
  import opened AppendRules

  /** A verified chain: the state after every link, and every row. A row's digest, taken as injective, is the row. */
  datatype Entry = Entry(states: seq<Snapshot>, digests: seq<Row>)

  /** The chain a replay from genesis of these rows gives, state by state. */
  ghost predicate IsColdReplay(e: Entry, rows: seq<Row>) {
    && Accepted(rows) && e.digests == rows && |e.states| == |rows|
    && forall k :: 1 <= k <= |rows| ==> e.states[k - 1] == At(rows, k)
  }

  ghost predicate Verified(e: Entry) {
    IsColdReplay(e, e.digests) && e.digests != []
  }

  datatype Refusal = Refused(error: Error) | HeadBelowCache(error: Error)

  datatype CacheKey = CacheKey(db: nat, storeId: Option<Name>)

  function GenesisStoreId(rows: seq<Row>): Option<Name>
    requires rows != []
  {
    if rows[0].text.Canonical? then Some(rows[0].text.rec.storeId) else None
  }

  /** The one key a log is kept under names its database and the store its first record is of, if that reads. */
  lemma KeyOfLog(db: nat, rows: seq<Row>, key: CacheKey)
    requires rows != []
    ensures key == CacheKey(db, GenesisStoreId(rows)) <==>
              key.db == db && key.storeId == match rows[0].text
                                             case Canonical(rec) => Some(rec.storeId)
                                             case Unreadable(_) => None
  {
  }

  /** Which of two entries for one store the cache keeps: the longer of two agreeing chains, else the new one. */
  function Kept(held: Option<Entry>, entry: Entry): Entry {
    if held.None? then entry
    else
      var both := if |held.value.digests| < |entry.digests| then |held.value.digests| else |entry.digests|;
      if |entry.digests| > |held.value.digests| || entry.digests[..both] != held.value.digests[..both]
      then entry else held.value
  }

  /** Whatever it held, the cache then holds a chain that the stored one begins. */
  lemma KeptExtends(held: Option<Entry>, entry: Entry)
    ensures entry.digests <= Kept(held, entry).digests
    ensures Kept(held, entry) in {entry} + (if held.Some? then {held.value} else {})
  {
  }

  class Cache {
    var entries: map<CacheKey, Entry>

    ghost predicate Valid()
      reads this
    {
      forall key :: key in entries ==> Verified(entries[key])
    }

    constructor ()
      ensures Valid() && entries == map[]
    {
      entries := map[];
    }

    method Load(key: CacheKey) returns (e: Option<Entry>)
      requires Valid()
      ensures e == (if key in entries then Some(entries[key]) else None)
      ensures e.Some? ==> Verified(e.value)
    {
      e := if key in entries then Some(entries[key]) else None;
    }

    method Store(key: CacheKey, entry: Entry)
      requires Valid() && Verified(entry)
      modifies this
      ensures Valid()
      ensures entries == old(entries)[key := Kept(if key in old(entries) then Some(old(entries)[key]) else None, entry)]
    {
      var held := if key in entries then Some(entries[key]) else None;
      var both := 0;
      if held.Some? {
        both := if |held.value.digests| < |entry.digests| then |held.value.digests| else |entry.digests|;
      }
      if held.None? || |entry.digests| > |held.value.digests|
         || entry.digests[..both] != held.value.digests[..both] {
        entries := entries[key := entry];
      }
    }
  }

  lemma ColdPrefix(rows: seq<Row>, n: nat, k: nat)
    requires Accepted(rows) && 1 <= k <= n <= |rows|
    ensures Accepted(rows[..n]) && At(rows[..n], k) == At(rows, k)
  {
    PrefixAccepted(rows, n);
    assert rows[..n][..k] == rows[..k];
  }

  lemma ColdOfPrefix(e: Entry, rows: seq<Row>)
    requires Verified(e) && rows <= e.digests
    ensures IsColdReplay(Entry(e.states[..|rows|], rows), rows)
  {
    assert rows == e.digests[..|rows|];
    PrefixAccepted(e.digests, |rows|);
    forall k | 1 <= k <= |rows| ensures e.states[k - 1] == At(rows, k) {
      ColdPrefix(e.digests, |rows|, k);
    }
  }

  /** The last state of a cold replay is the replay's own. */
  lemma HeadOfCold(states: seq<Snapshot>, rows: seq<Row>)
    requires IsColdReplay(Entry(states, rows), rows)
    ensures Replay(rows) == Ok(if states == [] then None else Some(states[|states| - 1]))
  {
    hide Step;
    if rows != [] {
      StateShape(rows, |rows|);
      assert rows[..|rows|] == rows;
      assert At(rows, |rows|) == states[|rows| - 1];
    }
  }

  /** One more link on a cold replay. */
  lemma ColdExtends(states: seq<Snapshot>, rows: seq<Row>, n: nat, next: Snapshot)
    requires n < |rows| && IsColdReplay(Entry(states, rows[..n]), rows[..n])
    requires Step(if states == [] then None else Some(states[|states| - 1]), rows[n], true, false) == Ok(next)
    ensures IsColdReplay(Entry(states + [next], rows[..n + 1]), rows[..n + 1])
  {
    hide Step;
    var before, after := rows[..n], rows[..n + 1];
    HeadOfCold(states, before);
    assert after[..|after| - 1] == before;
    assert Replay(after) == Ok(Some(next));
    assert after[..n + 1] == after;
    forall k | 1 <= k <= n + 1 ensures (states + [next])[k - 1] == At(after, k) {
      if k <= n { ColdPrefix(after, n, k); }
    }
  }

  lemma ColdRefuses(states: seq<Snapshot>, rows: seq<Row>, n: nat)
    requires n < |rows| && IsColdReplay(Entry(states, rows[..n]), rows[..n])
    requires Step(if states == [] then None else Some(states[|states| - 1]), rows[n], true, false).Err?
    ensures !Accepted(rows)
    ensures Replay(rows) ==
            Err(Step(if states == [] then None else Some(states[|states| - 1]), rows[n], true, false).error)
  {
    hide Step;
    HeadOfCold(states, rows[..n]);
    RefusedAt(rows, n, |rows|);
    assert rows[..|rows|] == rows;
  }

  lemma {:induction false} RefusedAt(rows: seq<Row>, n: nat, m: nat)
    requires n < m <= |rows| && Accepted(rows[..n]) && Step(Replay(rows[..n]).value, rows[n], true, false).Err?
    ensures Replay(rows[..m]) == Err(Step(Replay(rows[..n]).value, rows[n], true, false).error)
    decreases m
  {
    hide Step;
    assert rows[..m][..m - 1] == rows[..m - 1];
    if m > n + 1 {
      RefusedAt(rows, n, m - 1);
    }
  }

  /** The replay of `rows` against an entry the cache once gave, however stale: exactly the chain a cold replay gives,
      refused exactly when that replay refuses, with the same error. Only a rewritten log is refused as below the
      cache. */
  method ReplayAgainst(held: Option<Entry>, rows: seq<Row>) returns (r: Result<Entry, Refusal>)
    requires rows != []
    requires held.Some? ==> Verified(held.value)
    ensures r.Ok? <==> Accepted(rows)
    ensures r.Ok? ==> IsColdReplay(r.value, rows)
    ensures r.Err? ==> Replay(rows) == Err(r.error.error)
    ensures r.Err? && r.error.HeadBelowCache? ==>
              held.Some? && !(rows <= held.value.digests) && !(held.value.digests <= rows)
  {
    hide Step;
    var states: seq<Snapshot> := [];
    var diverged := false;
    if held.Some? {
      var n := |held.value.digests|;
      var both := if n < |rows| then n else |rows|;
      if rows[..both] != held.value.digests[..both] {
        diverged := true;
      } else if |rows| <= n {
        assert rows <= held.value.digests;
        ColdOfPrefix(held.value, rows);
        return Ok(Entry(held.value.states[..|rows|], rows));
      } else {
        states := held.value.states;
        assert rows[..n] == held.value.digests;
      }
    }
    var grown := states;
    while |grown| < |rows|
      invariant |grown| <= |rows|
      invariant IsColdReplay(Entry(grown, rows[..|grown|]), rows[..|grown|])
    {
      var n := |grown|;
      var next := Step(if grown == [] then None else Some(grown[n - 1]), rows[n], true, false);
      if next.Err? {
        ColdRefuses(grown, rows, n);
        return Err(if diverged then HeadBelowCache(next.error) else Refused(next.error));
      }
      ColdExtends(grown, rows, n, next.value);
      grown := grown + [next.value];
    }
    assert rows[..|grown|] == rows;
    r := Ok(Entry(grown, rows));
  }

  /** A read through the cache: the states a replay from genesis gives, refused exactly when it refuses; the cache keeps
      verified chains only, and then holds one this log begins. */
  method ReplayEntry(cache: Cache, db: nat, rows: seq<Row>) returns (r: Result<Option<Entry>, Refusal>)
    requires cache.Valid()
    modifies cache
    ensures cache.Valid()
    ensures r.Ok? <==> Accepted(rows)
    ensures r.Ok? ==> (r.value.None? <==> rows == [])
    ensures r.Ok? && rows != [] ==> IsColdReplay(r.value.value, rows)
    ensures r.Err? ==> Replay(rows) == Err(r.error.error) && cache.entries == old(cache.entries)
    ensures r.Ok? && rows != [] ==>
              var key := CacheKey(db, GenesisStoreId(rows));
              key in cache.entries && rows <= cache.entries[key].digests
    ensures forall key :: key in old(cache.entries) && (rows == [] || key != CacheKey(db, GenesisStoreId(rows))) ==>
              key in cache.entries && cache.entries[key] == old(cache.entries)[key]
  {
    if rows == [] {
      return Ok(None);
    }
    var key := CacheKey(db, GenesisStoreId(rows));
    var held := cache.Load(key);
    var entry := ReplayAgainst(held, rows);
    if entry.Err? {
      return Err(entry.error);
    }
    KeptExtends(held, entry.value);
    if held.None? || !(rows <= held.value.digests) {
      cache.Store(key, entry.value);
    }
    r := Ok(Some(entry.value));
  }

  /** What an append stores beside its commit is the cold replay of the log it leaves. */
  lemma AppendedEntryVerified(prior: Entry, link: UnsignedLink, signature: Signature, now: int, anchor: Option<Anchor>)
    requires IsColdReplay(prior, prior.digests)
    requires Appended(prior.digests, link, signature, now, anchor).Ok?
    ensures var row := SignedRow(link, signature);
            var next := Step(Replay(prior.digests).value, row, true, true);
            && next.Ok?
            && IsColdReplay(Entry(prior.states + [next.value], prior.digests + [row]), prior.digests + [row])
  {
    hide Step, LocalChecks, AnchorAllows, Replay, IsColdReplay;
    var rows, row := prior.digests, SignedRow(link, signature);
    assert Replay(rows).Ok? && Step(Replay(rows).value, row, true, true).Ok?;
    hide Appended, SignedRow;
    HeadOfCold(prior.states, rows);
    NewLinkIsHistory(Replay(rows).value, row);
    var grown := rows + [row];
    assert grown[..|rows|] == rows && grown[..|rows| + 1] == grown;
    ColdExtends(prior.states, grown, |rows|, Step(Replay(rows).value, row, true, true).value);
  }
}
