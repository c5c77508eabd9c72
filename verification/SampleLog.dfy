/** A log of three links built by append: a laptop key enrols itself, brings in an agent link, and renews it. The laws of
    accepted and of built logs speak of it, so they are not empty. */
module SampleLog {
  import opened Wrappers
  import opened AuthorityModel
  import opened Classifier
  import opened AuthorityStep
  import opened AuthorityReplay
  import opened AppendRules
  import opened AppendedLogs

  const LAPTOP := PublicKey(Ed25519, "", 1)
  const STORE: Name := 7

  function Signed(seqNo: nat, prev: Hash, format: Format, at: int, op: Op): Row {
    var text := Canonical(Record(format, STORE, seqNo, at, op));
    Row(seqNo, prev, text, Fingerprint(LAPTOP), Signature(LAPTOP, Message(prev, text), true, ExactOrigin),
        LinkHash(prev, text))
  }

  function Genesis(): Row {
    Signed(1, NoHash, V1, 0, Enrol(Fingerprint(LAPTOP), LAPTOP, LaptopPresence, Passphrase, false))
  }

  function Agent(expiresAt: int): Grant {
    AgentLink(1, 2, 3, 4, expiresAt)
  }

  function Bring(): Row {
    Signed(2, Genesis().hash, V4, 1, CreateGrant(Agent(DAY)))
  }

  function Extend(): Row {
    Signed(3, Bring().hash, V1, 2, Renew(1, 2 * DAY, 2))
  }

  function LaptopKey(): Key {
    Key(Fingerprint(LAPTOP), LAPTOP, LaptopPresence, 1, None, None, false, Passphrase)
  }

  function CoreWith(grants: map<Name, Grant>, stamps: map<Name, nat>, born: map<Name, nat>): Core {
    Core(map[Fingerprint(LAPTOP) := LaptopKey()], Policy(map[], map[], grants), stamps, born, map[])
  }

  function State1(): Snapshot {
    Snapshot(STORE, 1, Genesis().hash, CoreWith(map[], map[], map[]), [] + [Genesis().hash], 0,
             [] + [Fingerprint(LAPTOP)])
  }

  function State2(): Snapshot {
    Snapshot(STORE, 2, Bring().hash, CoreWith(map[1 := Agent(DAY)], map[1 := 2], map[1 := 2]),
             State1().hashes + [Bring().hash], 1, State1().signers + [Fingerprint(LAPTOP)])
  }

  function State3(): Snapshot {
    Snapshot(STORE, 3, Extend().hash, CoreWith(map[1 := Agent(2 * DAY)], map[1 := 3], map[1 := 2]),
             State2().hashes + [Extend().hash], 2, State2().signers + [Fingerprint(LAPTOP)])
  }

  lemma GenesisSteps()
    ensures Step(None, Genesis(), true, true) == Ok(State1())
  {
    assert JudgeGenesis(Genesis().text.rec, Fingerprint(LAPTOP), true) == Ok(State1().core);
  }

  lemma BringVerdict()
    ensures Classify(State1().core.policy, State2().core.policy) == Ok(LoosenDelta)
  {
    AddedIsLooser(State1().core.policy, State2().core.policy, 1);
  }

  lemma BringStamps()
    ensures Stamped(State1().core, State2().core.policy, Bring().text.rec.op, 2) == State2().core
  {
  }

  lemma BringJudged()
    ensures Judge(State1().core, Bring().text.rec, Fingerprint(LAPTOP), true) == Ok(State2().core)
  {
    BringVerdict();
    BringStamps();
    hide Classify, Stamped;
    var core, op := State1().core, Bring().text.rec.op;
    assert ApplyPolicyOp(core.policy, op, 1) == Ok(State2().core.policy);
    assert JudgePolicyOp(core, op, 1, 2, LaptopKey()) == Ok(State2().core);
    hide JudgePolicyOp, ApplyPolicyOp;
    assert Agent(DAY) in Brought(core.policy, op);
    assert LinkFormat(core.policy, op, Passphrase) == V4;
  }

  lemma ExtendVerdict()
    ensures Classify(State2().core.policy, State3().core.policy) == Ok(RenewDelta)
  {
    var a, b := State2().core.policy, State3().core.policy;
    assert Gids(a, b) == {1};
    assert GrantDelta(a, b, 1) == Ok(Extended);
    hide GrantDelta, Floor;
    assert ChangedGrants(a, b) == {1};
    assert MovedVerbs(a, b) == {};
    assert SomeGrant(a, b, Extended);
  }

  lemma ExtendStamps()
    ensures Stamped(State2().core, State3().core.policy, Extend().text.rec.op, 3) == State3().core
  {
    var core, after := State2().core, State3().core.policy;
    assert core.policy.grants[1] == Agent(DAY) && after.grants[1] == Agent(2 * DAY);
    assert core.policy.grants[1] != after.grants[1] && 1 in core.policy.grants && 1 in core.grantBorn;
    assert core.grantBorn[1] == 2;
    var stamped := Stamped(core, after, Extend().text.rec.op, 3);
    assert stamped.grantSeqs.Keys == {1} && stamped.grantSeqs[1] == 3;
    assert stamped.grantSeqs == map[1 := 3];
    assert stamped.grantBorn.Keys == {1} && stamped.grantBorn[1] == 2;
    assert stamped.grantBorn == map[1 := 2];
  }

  lemma ExtendApplies()
    ensures ApplyPolicyOp(State2().core.policy, Extend().text.rec.op, 2) == Ok(State3().core.policy)
  {
    assert Renewed(Agent(DAY), 2 * DAY, 2, 2) == Ok(Agent(2 * DAY));
    assert State2().core.policy.grants[1 := Agent(2 * DAY)] == State3().core.policy.grants;
  }

  lemma ExtendJudged()
    ensures Judge(State2().core, Extend().text.rec, Fingerprint(LAPTOP), true) == Ok(State3().core)
  {
    ExtendVerdict();
    ExtendStamps();
    ExtendApplies();
    hide Classify, Stamped, ApplyPolicyOp;
    var core, op := State2().core, Extend().text.rec.op;
    assert JudgePolicyOp(core, op, 2, 3, LaptopKey()) == Ok(State3().core);
    hide JudgePolicyOp;
    assert LinkFormat(core.policy, op, Passphrase) == V1;
  }

  lemma LinksStep()
    ensures Step(Some(State1()), Bring(), true, true) == Ok(State2())
    ensures Step(Some(State2()), Extend(), true, true) == Ok(State3())
  {
    BringJudged();
    ExtendJudged();
    hide Judge;
  }

  lemma BringChecks()
    ensures LocalChecks(Some(State1()), Bring().text.rec.op, 1).Ok?
  {
    var p, op := State1().core.policy, CreateGrant(Agent(DAY));
    assert Bring().text.rec.op == op && p.grants == map[];
    hide Bring, State1, Genesis;
    assert Considered(p, op) == map[1 := Agent(DAY)];
    NoRivals(p, op, 1);
    hide Considered, SetupRecordsKeepMeaning, SetupRecordsUnique, HandsUnique, SeatsUnique;
  }

  lemma NoRivals(p: Policy, op: Op, now: int)
    requires op == CreateGrant(Agent(DAY)) && Considered(p, op) == map[1 := Agent(DAY)]
    ensures SetupRecordsKeepMeaning(p, op) && SetupRecordsUnique(p, op, now)
    ensures HandsUnique(p, op, now) && SeatsUnique(p, op, now)
  {
    assert forall gid :: gid in Considered(p, op) ==> Considered(p, op)[gid] == Agent(DAY);
    hide Considered, Touched, Live, Rivals;
  }

  lemma ExtendChecks()
    ensures LocalChecks(Some(State2()), Extend().text.rec.op, 2).Ok?
  {
    var p, op := State2().core.policy, Extend().text.rec.op;
    assert Considered(p, op) == map[1 := Agent(DAY)] && Touched(p, op) == {1};
    assert RenewTimely(Agent(DAY), 2 * DAY, 2, 2);
    hide Considered, Touched, Live, Rivals, RenewTimely;
  }

  const SAMPLE := [Genesis(), Bring(), Extend()]

  lemma SampleReplays()
    ensures Replay(SAMPLE[..1]) == Ok(Some(State1())) && Replay(SAMPLE[..2]) == Ok(Some(State2()))
    ensures Replay(SAMPLE) == Ok(Some(State3()))
  {
    GenesisSteps();
    LinksStep();
    NewLinkIsHistory(None, Genesis());
    NewLinkIsHistory(Some(State1()), Bring());
    NewLinkIsHistory(Some(State2()), Extend());
    hide Step;
    assert SAMPLE[..1][..0] == [] && SAMPLE[..2][..1] == SAMPLE[..1] && SAMPLE[..|SAMPLE| - 1] == SAMPLE[..2];
  }

  lemma BuiltMore(rows: seq<Row>, clocks: seq<int>, row: Row, clock: int)
    requires Built(rows, clocks) && (clocks != [] ==> clocks[|clocks| - 1] <= clock)
    requires Appended(rows, LinkOf(row), row.signature, clock, None) == Ok(rows + [row])
    ensures Built(rows + [row], clocks + [clock])
  {
    hide Appended;
    assert (rows + [row])[..|rows|] == rows && (clocks + [clock])[..|clocks|] == clocks;
  }

  lemma SampleAppends()
    ensures Appended([], LinkOf(Genesis()), Genesis().signature, 0, None) == Ok([] + [Genesis()])
    ensures Appended(SAMPLE[..1], LinkOf(Bring()), Bring().signature, 1, None) == Ok(SAMPLE[..1] + [Bring()])
    ensures Appended(SAMPLE[..2], LinkOf(Extend()), Extend().signature, 2, None) == Ok(SAMPLE[..2] + [Extend()])
  {
    GenesisSteps();
    LinksStep();
    BringChecks();
    ExtendChecks();
    SampleReplays();
    assert LocalChecks(None, Genesis().text.rec.op, 0).Ok?;
    hide Step, LocalChecks, Genesis, Bring, Extend;
    assert Replay([]) == Ok(None);
    hide Replay;
    assert SignedRow(LinkOf(Genesis()), Genesis().signature) == Genesis() by { RowsOfLinks(); }
    assert SignedRow(LinkOf(Bring()), Bring().signature) == Bring() by { RowsOfLinks(); }
    assert SignedRow(LinkOf(Extend()), Extend().signature) == Extend() by { RowsOfLinks(); }
    Chained();
  }

  lemma RowsOfLinks()
    ensures forall row :: row in SAMPLE ==> SignedRow(LinkOf(row), row.signature) == row
  {
  }

  lemma Chained()
    ensures Genesis().seqNo == 1 && Genesis().prevHash == NoHash
    ensures Bring().seqNo == State1().seqNo + 1 && Bring().prevHash == State1().headHash
    ensures Extend().seqNo == State2().seqNo + 1 && Extend().prevHash == State2().headHash
  {
  }

  /** The three links are appended one after the other, each at the clock it was written by. */
  lemma SampleIsBuilt()
    ensures Built(SAMPLE, [0, 1, 2]) && Accepted(SAMPLE) && Replay(SAMPLE) == Ok(Some(State3()))
    ensures State3().core.policy.grants == map[1 := Agent(2 * DAY)]
  {
    SampleAppends();
    SampleReplays();
    assert Built([], []);
    hide Replay, Built, Appended, Genesis, Bring, Extend;
    assert SAMPLE[..1] == [] + [Genesis()] && SAMPLE[..2] == SAMPLE[..1] + [Bring()] && SAMPLE == SAMPLE[..2] + [Extend()];
    BuiltMore([], [], Genesis(), 0);
    BuiltMore(SAMPLE[..1], [] + [0], Bring(), 1);
    BuiltMore(SAMPLE[..2], [] + [0] + [1], Extend(), 2);
    assert [] + [0] + [1] + [2] == [0, 1, 2];
  }
}
