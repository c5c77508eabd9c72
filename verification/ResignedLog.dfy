/** A log whose head row does not say who signed below it: the input on which equal fences meet a revoked signer
    (levain/authority.py, `log_head`; levain/agent_authority.py, `AgentAuthority.peek`). */
module ResignedLog {
  import opened Wrappers
  import opened AuthorityModel
  import opened Classifier
  import opened AuthorityStep
  import opened AuthorityReplay
  import opened AppendRules
  import opened ChainPins
  import opened AgentLinks
  import opened AgentFence
  import opened SampleLog

  const SECOND := PublicKey(Ed25519, "", 2)

  /** A second laptop enrolled, an agent link brought in by the first, the second laptop revoked. */
  function EnrolSecond(): Row {
    Signed(2, Genesis().hash, V1, 1, Enrol(Fingerprint(SECOND), SECOND, LaptopPresence, Passphrase, false))
  }

  function BringAgent(): Row {
    Signed(3, EnrolSecond().hash, V4, 2, CreateGrant(Agent(DAY)))
  }

  function RevokeSecond(): Row {
    Signed(4, BringAgent().hash, V1, 3, RevokeKey(Fingerprint(SECOND), None))
  }

  function SecondKey(revoked: Option<nat>): Key {
    Key(Fingerprint(SECOND), SECOND, LaptopPresence, 2, revoked, None, false, Passphrase)
  }

  function Keys(revoked: Option<nat>): map<Fingerprint, Key> {
    map[Fingerprint(LAPTOP) := LaptopKey(), Fingerprint(SECOND) := SecondKey(revoked)]
  }

  function Enrolled(): Snapshot {
    Snapshot(STORE, 2, EnrolSecond().hash, Core(Keys(None), GENESIS_POLICY, map[], map[], map[]),
             State1().hashes + [EnrolSecond().hash], 1, State1().signers + [Fingerprint(LAPTOP)])
  }

  function Standing(): Snapshot {
    Snapshot(STORE, 3, BringAgent().hash,
             Core(Keys(None), Policy(map[], map[], map[1 := Agent(DAY)]), map[1 := 3], map[1 := 3], map[]),
             Enrolled().hashes + [BringAgent().hash], 2, Enrolled().signers + [Fingerprint(LAPTOP)])
  }

  function Revoked(): Snapshot {
    Snapshot(STORE, 4, RevokeSecond().hash,
             Core(Keys(Some(4)), Policy(map[], map[], map[1 := Agent(DAY)]), map[1 := 3], map[1 := 3], map[]),
             Standing().hashes + [RevokeSecond().hash], 3, Standing().signers + [Fingerprint(LAPTOP)])
  }

  const HONEST := [Genesis(), EnrolSecond(), BringAgent(), RevokeSecond()]

  /** The second laptop's own signature over the very link the first one signed. */
  const OTHER_SIGNATURE :=
    Signature(SECOND, Message(BringAgent().prevHash, BringAgent().text), true, ExactOrigin)

  /** The same log with the agent link's row naming the second laptop. */
  const RESIGNED := Resigned(HONEST, 2, Fingerprint(SECOND), OTHER_SIGNATURE)

  lemma EnrolJudged()
    ensures Judge(State1().core, EnrolSecond().text.rec, Fingerprint(LAPTOP), false) == Ok(Enrolled().core)
  {
    assert Fingerprint(SECOND) != Fingerprint(LAPTOP);
  }

  lemma BringStamps()
    ensures Stamped(Enrolled().core, Standing().core.policy, BringAgent().text.rec.op, 3) == Standing().core
  {
  }

  lemma BringAgentJudged()
    ensures Judge(Enrolled().core, BringAgent().text.rec, Fingerprint(LAPTOP), false) == Ok(Standing().core)
  {
    BringVerdict();
    BringStamps();
    assert Enrolled().core.policy == State1().core.policy && Standing().core.policy == State2().core.policy;
    hide Classify, Stamped;
    var core, op := Enrolled().core, BringAgent().text.rec.op;
    assert ApplyPolicyOp(core.policy, op, 2) == Ok(Standing().core.policy);
    assert JudgePolicyOp(core, op, 2, 3, LaptopKey()) == Ok(Standing().core);
    hide JudgePolicyOp, ApplyPolicyOp;
    assert Agent(DAY) in Brought(core.policy, op);
    assert LinkFormat(core.policy, op, Passphrase) == V4;
  }

  lemma RevokeJudged()
    ensures Judge(Standing().core, RevokeSecond().text.rec, Fingerprint(LAPTOP), false) == Ok(Revoked().core)
  {
    var keys, op := Standing().core.keys, RevokeSecond().text.rec.op;
    assert Fingerprint(LAPTOP) in keys && Fingerprint(LAPTOP) != Fingerprint(SECOND);
    assert LaptopSurvives(keys, Fingerprint(SECOND), false);
    assert RevokedKey(op, 4, keys, false) == Ok(SecondKey(Some(4)));
    assert keys[Fingerprint(SECOND) := SecondKey(Some(4))] == Keys(Some(4));
    assert LinkFormat(Standing().core.policy, op, Passphrase) == V1;
  }

  lemma FirstSteps()
    ensures Step(None, Genesis(), true, false) == Ok(State1())
    ensures Step(Some(State1()), EnrolSecond(), true, false) == Ok(Enrolled())
  {
    GenesisSteps();
    NewLinkIsHistory(None, Genesis());
    EnrolJudged();
    hide Judge, JudgeGenesis;
  }

  lemma BringAgentSteps()
    ensures Step(Some(Enrolled()), BringAgent(), true, false) == Ok(Standing())
  {
    BringAgentJudged();
    hide Judge;
  }

  lemma RevokeSteps()
    ensures Step(Some(Standing()), RevokeSecond(), true, false) == Ok(Revoked())
  {
    RevokeJudged();
    hide Judge;
  }

  lemma HonestReplays()
    ensures Accepted(HONEST) && At(HONEST, 2) == Enrolled() && At(HONEST, 4) == Revoked()
  {
    FirstSteps();
    BringAgentSteps();
    RevokeSteps();
    hide Step, Genesis, EnrolSecond, BringAgent, RevokeSecond;
    assert HONEST[..1] == [Genesis()] && HONEST[..2] == HONEST[..1] + [EnrolSecond()];
    assert HONEST[..3] == HONEST[..2] + [BringAgent()] && HONEST[..4] == HONEST[..3] + [RevokeSecond()] == HONEST;
    assert Replay([]) == Ok(None);
    assert HONEST[..1][..0] == [];
    assert Replay(HONEST[..1]) == Ok(Some(State1()));
    assert HONEST[..2][..1] == HONEST[..1];
    assert Replay(HONEST[..2]) == Ok(Some(Enrolled()));
    assert HONEST[..3][..2] == HONEST[..2];
    assert Replay(HONEST[..3]) == Ok(Some(Standing()));
    assert HONEST[..4][..3] == HONEST[..3];
    assert Replay(HONEST[..4]) == Ok(Some(Revoked()));
  }

  /** A launch under that link, its row and no bars. */
  const LAUNCH := Launch(2, Some(1), Some(Incarnation(3, Agent(0))), 0, Some(0), Some(0))
  const ROW := Occurrence(LAUNCH, 0, Launched)

  lemma HonestHolds()
    ensures RowStands(LAUNCH, ROW, []) && HoldsLaunch(Revoked(), LAUNCH, 3, 3, 0)
    ensures Revoked().core.grantBorn == map[1 := 3] && Revoked().core.grantSeqs == map[1 := 3]
    ensures ActiveKey(Revoked().core, Fingerprint(LAPTOP)) && !ActiveKey(Revoked().core, Fingerprint(SECOND))
  {
    assert Meaning(Agent(DAY)) == Agent(0);
  }

  lemma RowsNamed()
    ensures HONEST[2].signer == Fingerprint(LAPTOP) && RESIGNED[2].signer == Fingerprint(SECOND)
    ensures LogHead(RESIGNED) == LogHead(HONEST) == (Revoked().seqNo, Revoked().headHash)
  {
  }

  lemma SecondMaySign()
    requires Accepted(HONEST) && At(HONEST, 2) == Enrolled()
    ensures Resignable(HONEST, 2, Fingerprint(SECOND), OTHER_SIGNATURE)
  {
    assert HONEST[2] == BringAgent() && BringAgent().signer == Fingerprint(LAPTOP);
  }

  /** The fences agree on a view refreshed from the honest log, the head row read from the re-signed one: everything the
      check asks holds, the re-signed log replays, and there the link is not live, its signer being revoked. */
  lemma EqualFencesRevokedSigner()
    ensures Accepted(HONEST) && Accepted(RESIGNED) && At(HONEST, 4) == Revoked()
    ensures LogHead(RESIGNED) == LogHead(HONEST)
    ensures RowStands(LAUNCH, ROW, []) && Confirmed(Revoked(), None, LogHead(RESIGNED), None)
    ensures HoldsLaunch(Revoked(), LAUNCH, 3, 3, ClosedBarSeq([], 2)) && NamedSignersActive(HONEST, 1)
    ensures HoldsLaunch(At(RESIGNED, 4), LAUNCH, 3, 3, ClosedBarSeq([], 2))
    ensures !NamedSignersActive(RESIGNED, 1) && !LinkLive(At(RESIGNED, 4), 1, 2, 3, 3, ClosedBarSeq([], 2))
  {
    HonestReplays();
    HonestHolds();
    RowsNamed();
    SecondMaySign();
    hide HoldsLaunch, Revoked, Enrolled, Resignable, LinkLive, RowStands, ActiveKey, LogHead, Genesis, EnrolSecond,
         BringAgent, RevokeSecond;
    ResignedLogReplays(HONEST, 2, Fingerprint(SECOND), OTHER_SIGNATURE);
    HeadCarriesLaunch(HONEST, RESIGNED, LAUNCH, 3, 3, 0);
    assert |HONEST| == 4 && ClosedBarSeq([], 2) == 0;
  }
}
