# Levain: a model of its signed authority, its band and its desk, with proofs

Levain keeps what an agent may do in a signed, hash-chained log, stops agents by a revoke that runs over two stores,
lists what needs its operator in a numbered band answered in a shorthand, takes answers back out of an edited seed, and
signs desk clicks at most once. This project models that behaviour in Dafny and proves what it is meant to guarantee, over
every log, run, text or reachable state.

| part | modules |
|---|---|
| The authority log: policies, verdicts, the step, the replay | `AuthorityModel`, `Paths`, `Classifier`, `ChangeKinds`, `AuthorityStep`, `AuthorityReplay` |
| What each link of an accepted log does, and exactly which links a log takes | `LinkEffects`, `LinkVerdicts` |
| What every accepted log keeps | `SignerLimits`, `KeyLife`, `AgentLinks`, `Formats`, `ChainPins` |
| The replay cache, the append, the anchor; a log built by it | `ReplayCache`, `AppendRules`, `AppendedLogs`, `AnchoredLedger`, `SampleLog` |
| The agent revoke and the launch fence; the log on which equal fences meet a revoked signer | `AgentRevoke`, `AgentFence`, `ResignedLog` |
| The band shorthand: patterns, grammar, lexer, printer, planner, message | `ShorthandText`, `ShorthandGrammar`, `ShorthandLexer`, `ShorthandPrint`, `ShorthandPlan`, `ShorthandMessage` |
| Answers read back from a seed | `AnswerAnchors`, `AnswerExtract`, `AnswerAdopt` |
| Band numbers, views and answers bound to a view | `BandNumbers`, `BandStore`, `BandRuns` |
| Exactly-once desk requests | `DeskClick` |
| Shared | `Wrappers`, `Strings` |

Code that maps values to values is functions and lemmas. Code that changes state in place is a class whose methods are
proved against functions of its state (`ReplayCache.Cache`, `AnchoredLedger.Ledger`, `AgentFence.AgentAuthority`,
`AgentRevoke.RevokeStores`, `DeskClick.DeskState`, `BandStore.BandStore`), and loops are methods with invariants. Protocols whose
steps interleave are also state machines over events, with the invariant of every step carried over every run; the class
methods are proved to make those very steps.

How the outside is taken:

- `sha256` and canonical JSON are injective: a link hash is the constructor `LinkHash(previous hash, record text)`, a key's
  fingerprint is `Fingerprint(key)`, and a row's digest in the cache is the row itself.
- A signature names the key and the message it was made over; verifying compares both. A gesture signs the message it is given:
  a step that is handed a signature over another message raises instead of storing it.
- Times are integers (microseconds); clocks, random ids and the state of a lock are parameters.
- A database transaction, and a guarded `UPDATE`, is one atomic step; the anchor file is one variable.
- Names that are only compared (ids, verbs, tools, entities, viewers) are numbers; path and text logic is on strings.

## Findings

- A link hash covers the predecessor's hash and the record, not the signer's fingerprint column. The head hash, and so the
  anchor, pins every record and every part of the replayed state but the signers (`ChainPins.HashPinsState`), and it does not
  pin those: a row that names another active key of the same class and custody, with that key's own signature over the same
  message, has the same hash and is replayed with the same outcome (`ChainPins.HashLeavesSignerFree`).
- So two equal launch fences do not say that the link's signers are active in the log the head row was read from. Whatever that
  log is, if it replays it holds the launch's very incarnation, unexpired and unrevoked; the link is live there if and only if
  the signers its own rows name at the link's born and last-change seqs are active, as they are when it only grew since the
  refresh (`AgentFence.HeadCarriesLaunch`, `AgentFence.CheckFence`). `ResignedLog.EqualFencesRevokedSigner` is a log on which
  they are not: everything the check asks holds, the log replays, and the signer it names is revoked. The note on `log_head`
  (levain/authority.py:2788-2792) says the next full replay and the anchor refuse a row rewritten below the head; for a row so
  re-signed the code refuses in neither (`ChainPins.ResignedLogReplays`), and the model follows the code.
- A desk request id has one owner while fewer than 64 other requests finish between the moment its result is remembered and
  its final release. The bound is exact, on a run from an idle desk: with 63 served in between the id still answers with its
  first result, with 64 it has been forgotten and five more steps give the id two owners
  (`DeskClick.SixtyFourServedSplitOwner`, `DeskClick.ForgottenResultSplitsOwner`).
- Recovery closes a bar over the link it read, not over the one pending by then, because its close is guarded only on the bar
  being open. A bar that a begin prepared again in between, the agent's link having been created again, is closed `signed` at the
  earlier link's seq, which the log holds, with the later link pending (`AgentRevoke.RecoveryClosesOverLinkRead`).
- An anchor advance owed to a log that has since been cut can still land after a reset, and then leads the log: exactly when that
  log held records the log at hand does not (`AnchoredLedger.AdvanceExact`; `AnchoredLedger.LateAdvanceLeads` is the input, for any
  log and any cut). The reset lock keeps a server's advances out.
- A greedy scan of a seed can be one of several ways to place the literals. The two scans agree exactly when there is one way
  (`AnswerAnchors.ScansAgreeIffUnique`); where they differ the render and the rank decide.

## Model

| member | source | states |
|---|---|---|
| Paths.WithinTransitive | levain/authority.py:1488-1490 | path containment is transitive on every three strings, normal or not |
| Paths.WithinIsContainment | levain/authority.py:1488-1490 | on normal absolute paths the string test holds exactly when the root's components begin the path's |
| Classifier.CollectVerbs | levain/authority.py:2256-2289 | the pass over the verbs lists one change per verb whose floor moved, and `Looser` exactly when some floor fell |
| Classifier.CollectGrants | levain/authority.py:2256-2289 | the pass over the grants lists exactly the changes of the grants that changed, and refuses only when a fixed kind's terms change |
| Classifier.ClassifyPolicies | levain/authority.py:2256-2289 | the looping classifier gives, in any order of its passes, the verdict that counts and sets of changes define |
| Classifier.TighterCoversLess | levain/authority.py:1475-1514 | a grant change called tighter: every request the new grant covers the old one of the same id covered, for egress, consent, consent-mcp and contained-shell, with path containment |
| Classifier.ExtendedCoversLonger | levain/authority.py:1455-1472 | a change called extended: same kind and meaning (for consent-mcp, of well declared grants), later expiry, and at any time before the old expiry the two cover the same requests |
| Classifier.ClassifySound | levain/authority.py:2256-2289 | a TIGHTEN, GRANT_REVOKE or NOOP verdict widens nothing: every verb's tier under the floor is at least the old one, and every request a grant covers was covered by the old grant of that id |
| Classifier.NoopIsEqualInEffect | levain/authority.py:2256-2289 | NOOP if and only if the two policies are equal in effect |
| Classifier.RenewIsOneExtension | levain/authority.py:2276-2284 | a RENEW verdict: exactly one grant differs, of the same kind and meaning, only in a later expiry |
| Classifier.RevokeIsOneRemoval | levain/authority.py:2285-2289 | a GRANT_REVOKE verdict: exactly one grant is gone and nothing else moved |
| Classifier.FixedTermsStay | levain/authority.py:1455-1472 | whenever there is a verdict, a fixed kind's grant held on both sides is the same but for a later expiry |
| ChangeKinds.TighterIff | levain/authority.py:1475-1514 | a changed egress, consent, consent-mcp or contained-shell grant that lets something through is called tighter if and only if it keeps its id, every request it answers the old one answered, and (for MCP tools) it declares alike every tool it names |
| ChangeKinds.ExtendedIff | levain/authority.py:1455-1472 | a change is called extended if and only if the grants are equal but for a later expiry |
| ChangeKinds.RefusedIff | levain/authority.py:1455-1472 | a change is refused if and only if a fixed kind is in it and it is no extension; what is left is equal, extended, tighter of a kind with a narrower form, or looser |
| AuthorityStep.VerifyingKeyIsSigner | levain/authority.py:2485-2629 | the key a link is verified with has the material, class and custody of the key it was judged by, even when the link revokes its own signer |
| AuthorityReplay.StateAt | levain/authority.py:2739-2770 | every prefix of an accepted log replays to a state at its own seq |
| AuthorityReplay.LinkFacts | levain/authority.py:2485-2629 | what acceptance of a log says of its link `k`: chained hash, canonical record, its judgement at the state before it, its stamps after it |
| AuthorityReplay.TimesMonotone | levain/authority.py:2485-2629 | over an accepted log the links' times never go back |
| AuthorityReplay.GrantsAreDeclared | levain/authority.py:408-421 | in every replayed state every consent-mcp grant declares fields, only of tools it names and at least one each, so no renew or extension changes what a grant says |
| LinkVerdicts.NextLinkIff | levain/authority.py:2485-2629 | an accepted log takes one more link if and only if the link takes its place, chain, time and store, its op fits the state and its signer, and the signer's own key signed it; all in terms of states, records and fields |
| LinkVerdicts.FirstLinkIff | levain/authority.py:2485-2629 | a log starts with exactly the links by which a laptop-presence key enrols itself, first in place and format, signed by it |
| LinkVerdicts.PolicyLinkIff | levain/authority.py:1386-1449 | a policy op is judged good if and only if the signer stands and some policy is what the op makes of this one, the signer's class and custody may sign it, what must stay stays, and the format is the one it needs; a loosening is also one by the classifier |
| LinkVerdicts.KeyLinkIff | levain/authority.py:2632-2664 | a key op is judged good if and only if it enrols a key not held, as its custody allows, signed by a laptop; or revokes a held unrevoked key, its declared compromise between enrolment and this link, a laptop key left unless one is declared, signed by a class not below the target's |
| LinkEffects.LinksAreSigned | levain/authority.py:2485-2629 | every link of an accepted log carries its signer's signature over the previous hash and the record, the signer held and unrevoked before it; a WebAuthn key's with user verification, from its own origin, or for a revoke of grants from any port of its name |
| LinkEffects.RevokeKeyEffect | levain/authority.py:2632-2664 | every `revoke_key` link of an accepted log: the key was held and unrevoked; after it the key is revoked at this very seq with the compromise declared, and no other key and nothing else moved |
| LinkEffects.RevokedSignsNoMore | levain/authority.py:2632-2664 | so from that link on the key signs nothing, is never enrolled again and stays revoked at that seq |
| LinkEffects.EnrolEffect | levain/authority.py:2326-2362 | every later `enrol` link adds exactly the key declared, not held before, of material its custody allows, signed by a laptop-presence key that is no passkey; nothing else moves |
| LinkEffects.GenesisEffect | levain/authority.py:2485-2629 | the first link leaves that one laptop-presence key, self-enrolled at seq 1, and an empty policy |
| LinkEffects.PolicyLinkEffect | levain/authority.py:1386-1449 | every policy link does to the policy just what its op says (the declared floor, above the one found; one grant added, removed or extended within its caps; one agent's links gone; other timeouts; a whole valid policy), is signed by a class and custody that may, stamps exactly the grants it changed or brought in, and moves no key |
| LinkEffects.PolicyLinkKeepsTurn | levain/authority.py:2411-2447 | a standing agent link, and a graduation policy's expiry, change only in a renew; an agent link comes in unexpired and an opt-in naming unrevoked passkeys only |
| LinkEffects.OneOfEachHolds | levain/authority.py:2411-2433 | in every replayed state every grant stands under its own id, with at most one opt-in and one voice key a provider |
| LinkEffects.FormatExact | levain/authority.py:2450-2482 | every link is written in exactly the format that what it brings in, or who signs it, needs; a key link in the first |
| LinkEffects.MeaningIsAllButExpiry | levain/authority.py:1455-1472 | two grants mean the same if and only if they are equal but for their expiry |
| SignerLimits.LowRankLinksWidenNothing | levain/authority.py:2485-2629 | over every accepted log, a link signed below laptop-presence enrols no key and widens nothing, but for one renew of one unlapsed grant or one graduation create by a passkey the live opt-in names |
| SignerLimits.PasskeyLinkIsOneAct | levain/authority.py:2365-2408 | a passkey's link is one revoke, one graduation renew or one opted-in create; it moves no key, floor or timeout |
| SignerLimits.RenewIsOneUnlapsed | levain/authority.py:1410-1449 | an accepted renew extends one grant that had not lapsed at the link's time, and changes no other |
| SignerLimits.PasskeyCreateIsOptedIn | levain/authority.py:2391-2408 | a passkey's create adds one graduation policy, under an opt-in standing in the policy that names that passkey |
| KeyLife.KeysKeptThrough | levain/authority.py:2632-2664 | from any state of a log to any later one no key disappears, and class, material, custody and a revocation never change |
| KeyLife.RevokedKeyIsDead | levain/authority.py:2632-2664 | a key some state holds revoked signs no later link, is never active again and is never enrolled again; that a revoke link revokes it is `LinkEffects.RevokeKeyEffect` |
| KeyLife.KeysComeFromLaptops | levain/authority.py:2326-2362 | every key of every replayed state was enrolled by a link a laptop-presence key signed, back to genesis |
| KeyLife.NewLinkKeepsSigner | levain/authority.py:2632-2664 | a new link that declares no compromise leaves an active, unquarantined laptop-presence key |
| AgentLinks.LinksInOrder | levain/authority.py:2436-2447 | in every replayed state each standing agent link was born after its agent's last revoke, and its expiry is later than the link that last changed it and at most 30 days past it |
| AgentLinks.ExpiryAfterEveryLinkToRenew | levain/authority.py:2571-2578 | the expiry is later than the time of every link up to the last renew |
| AgentLinks.IncarnationConstant | levain/authority.py:1796-1804 | while an id stands its incarnation is constant, and its expiry only moves later |
| AgentLinks.NoLapseBridged | levain/authority.py:1410-1449 | a link that changes a standing agent link found it unlapsed at its own time |
| AgentLinks.BornAfterAbsence | levain/authority.py:2571-2578 | a link's born seq is after every state that did not hold the id |
| AgentLinks.SameIncarnationIffHeld | levain/authority.py:1796-1804 | two states hold the same incarnation of an id if and only if every state between holds it: revoke and re-create is another incarnation |
| AgentLinks.RevokeAgentIsFinal | levain/authority.py:1764-1804 | after a revoke of an agent none of its links stands, and nothing born before it ever arms again |
| Formats.LowerFormatBringsNone | levain/authority.py:2450-2482 | a link of a lower format turns no id into a grant of a higher one: that grant already stood, same kind and meaning |
| Formats.PolicyWithinFormats | levain/authority.py:2450-2482 | links of format at most /k build a policy with no voice key (k<5), agent link (k<4), guarded graduation policy (k<3) or opt-in (k<2) |
| ChainPins.HashPinsRecords | levain/authority.py:586-591 | two accepted logs with one hash at seq `k` hold the same records and hashes up to it |
| ChainPins.HashPinsState | levain/authority.py:586-591 | and the same replayed state there: keys, policy, stamps, revoke marks, store, time; all but the signers |
| ChainPins.SignerDecidesNothingElse | levain/authority.py:2485-2629 | who signs decides whether a link is accepted, never what it makes of the state |
| ChainPins.HashLeavesSignerFree | levain/authority.py:2485-2629 | a row naming another key of the same class and custody, signed by it, has the same hash and replays with the same outcome |
| ChainPins.ResignedLogReplays | levain/authority.py:2485-2629 | a whole accepted log with one such row re-signed is accepted, with the same hashes and the same state at its head, that one signer aside |
| ReplayCache.Cache.Store | levain/authority.py:2711-2719 | an entry replaces the kept one exactly when it is longer or the two differ within their common length; other keys stay, and only verified chains are kept |
| ReplayCache.KeptExtends | levain/authority.py:2711-2719 | whatever the cache held, it then holds a chain that the stored one begins |
| ReplayCache.ReplayAgainst | levain/authority.py:2739-2770 | the loop against a cached entry, however stale: exactly the states a replay from genesis gives, refused exactly when it refuses, with the same error but for a log cut below the cache and rewritten |
| ReplayCache.ReplayEntry | levain/authority.py:2739-2770 | a read through the cache is a cold replay, over logs that grew, were cut to a prefix or were rewritten; the cache keeps verified chains only |
| ReplayCache.KeyOfLog | levain/authority.py:2739-2770 | a log is kept under the one key that names its database and the store its first record is of |
| ReplayCache.AppendedEntryVerified | levain/authority.py:3072-3074 | the entry an append stores beside its commit is the cold replay of the log it leaves |
| AppendRules.NewJudgementIsHistory | levain/authority.py:2652-2661 | every judgement passed as new is the same judgement as history |
| AppendRules.NewLinkIsHistory | levain/authority.py:2485-2629 | any link the step takes as new it takes as history, with an identical state |
| AppendRules.AppendedReplays | levain/authority.py:3025-3080 | the log an append leaves is accepted and replays to the state the append computed |
| AppendRules.PreparedLinkRefusals | levain/authority.py:2990-3080 | with the head unmoved, a prepared link is appended if and only if its signature is the signer's over the link (as its custody needs it), the clock and local rules allow it, and the anchor does; at its own clock only signature and anchor can refuse |
| AppendRules.PreparedSays | levain/authority.py:2990-3022 | a prepared link is the next of the log, says the op at the clock's time, by that signer and of the log's store |
| AppendRules.AppendedIsPrepared | levain/authority.py:2990-3080 | a link appended at its own time is the one that preparing its op then gives: what can be appended is never refused when prepared, and nothing else of that op, time and signer can be |
| AppendedLogs.AppendKeepsUnique | levain/authority.py:1890-1925 | one append at clock `now` keeps every pair of grants that must not both be live from being so, a renew included |
| AppendedLogs.BuiltHasOneLive | levain/authority.py:2949-2987 | a log built only by appends with a clock that never goes back has, from its last append on, at most one unexpired setup record per entity and host, one seat lease, one seat-egress grant, and one hands entry per name and per remote port |
| AppendedLogs.BuiltLinksFit | levain/authority.py:2949-2987 | a link a log took by append brought in or changed no unknown kind and no unguarded graduation policy, kept what every setup record says, renewed only what was live, signed within ten minutes of the clock and within its caps from it, and was signed by a key whose custody is the one its material shows |
| AppendedLogs.ChecksIff | levain/authority.py:2949-2987 | where no two rivals were live, the append rules take a policy op if and only if it fits so and leaves no two live |
| AppendedLogs.BuiltReplays | levain/authority.py:3025-3080 | every log built by append replays |
| AppendedLogs.BuiltKeepsSigner | levain/authority.py:626-643 | built by append with no compromise declared, a log always keeps a laptop-presence key that can sign |
| AppendedLogs.AnchorOnlyRestricts | levain/authority.py:3025-3080 | the anchor only refuses appends, it never changes what one does |
| SampleLog.SampleIsBuilt | levain/authority.py:3025-3080 | three links (a laptop's own enrolment, an agent link, its renew) are appended in turn, and the log replays with the renewed link standing: the laws of built and accepted logs speak of something |
| AnchoredLedger.CheckAnchorMeans | levain/authority.py:3219-3231 | an anchor taken of a log at `k` accepts a replayed log if and only if the two agree record for record up to `k` |
| AnchoredLedger.OnlyResetsLower | levain/authority.py:3270-3283 | from any accepted log and any anchor: a commit, an advance of whatever log, or another log put in place never lowers or drops the anchor, nothing makes it another store's, and an advance the check lets run takes it to its link or finds it past |
| AnchoredLedger.MoveKeepsBehind | levain/authority.py:3270-3283 | while no log is put in another's place and advances are of the store's own states, every move keeps the anchor behind the log and the log growing, and such an advance never fails |
| AnchoredLedger.AdvanceExact | levain/authority.py:3270-3283 | an advance of any log leaves the anchor behind if and only if it leaves it where it was or the store's log holds, record for record, what that log held up to it |
| AnchoredLedger.LateAdvanceLeads | levain/authority.py:3270-3283 | any log cut to a prefix and its anchor reset there: an advance the whole log still owes past the cut lands and leads the log |
| AnchoredLedger.ResetBringsBehind | levain/authority.py:3375-3395 | a reset that lands puts the anchor at the head of the log at hand, from wherever it was |
| AnchoredLedger.ResetExact | levain/authority.py:3305-3330 | a reset moves the anchor, and then to the head, if and only if the old anchor is none or of this store and a held, unrevoked laptop-presence key, its custody the one its material shows, signed exactly the store, the old anchor, the head's seq and its hash; any other leaves the store as it was |
| AnchoredLedger.LoweredByReset | levain/authority.py:3375-3395 | over every run, an anchor lower at the end than at some point of it was lowered by a reset so in order of the anchor and the log it found |
| AnchoredLedger.RefusedStaysRefused | levain/authority.py:3025-3080 | under an anchor the log does not hold, every commit leaves the store as it was and no advance, of whatever log, makes them agree |
| AnchoredLedger.AnchorOverRuns | levain/authority.py:3270-3283 | over any interleaving of commits, late and out-of-order advances, resets and logs put in another's place: from any point with no reset after it the anchor never moves down, and ends at or past every advance that ran since |
| AnchoredLedger.BehindOverRuns | levain/authority.py:3270-3283 | until a log is put in another's place, over any interleaving of commits, late own advances and resets, the anchor never leads the log and the log only grows |
| AnchoredLedger.RefusedOverRuns | levain/authority.py:3375-3395 | a log put in place that the anchor refuses takes no link, whatever runs, until another is put there or a reset lands; that reset brings the anchor behind it |
| AnchoredLedger.BehindIffAllowed | levain/authority.py:3219-3231 | the append's anchor check passes if and only if the log holds the anchor's link: the anchor alone stops an append exactly when it leads the log or names another |
| AnchoredLedger.Ledger.Commit | levain/authority.py:3025-3080 | the transaction commits the link the rules allow, or changes nothing |
| AnchoredLedger.Ledger.AdvanceAnchor | levain/authority.py:3270-3283 | the anchor goes to the committed state if it is ahead, stays where a later advance put it otherwise, and is refused where the check refuses |
| AnchoredLedger.Ledger.Append | levain/authority.py:3025-3080 | an append commits one link and leaves the anchor at it, or leaves log and anchor alone |
| AnchoredLedger.Ledger.ResetAnchor | levain/authority.py:3375-3395 | it succeeds if and only if the reset is in order as above, and then the anchor is the log's at its head; a refused one leaves it |
| AgentFence.AgentAuthority.Refresh | levain/agent_authority.py:78-105 | holds exactly the replay the anchor accepts, else nothing |
| AgentFence.AgentAuthority.Unmoved | levain/agent_authority.py:115-134 | gives the held replay exactly when anchor, head and anchor again agree with it, else refuses |
| AgentFence.AgentAuthority.Peek | levain/agent_authority.py:143-167 | once confirmed it answers live only if the held state has the link of that agent and store, no link of the log is later than `now`, its expiry is, it was born after the agent's entry of last revokes and after the bar seq, and unrevoked keys signed the links that brought it in and last changed it; and conversely in a replayed state |
| AgentFence.UnmovedHeadPinsLog | levain/agent_authority.py:107-134 | a log whose head row is the held replay's replays to the held state, signers aside; one that only grew since the refresh is the very log that was replayed |
| AgentFence.HeadCarriesLaunch | levain/agent_authority.py:107-167 | any log with the held head row that replays holds the launch exactly where the held replay does, passes the same anchors, and has the link live if and only if besides the signers its rows name are active; one that only grew is the log that was replayed |
| AgentFence.CheckFence | levain/agent_authority.py:179-222 | a whole check: the fences are equal if and only if the view is confirmed, the row is that launch at its epoch and launched, every bar of the agent is closed and older than the link, and the link is in force as `Peek` says, born and meaning what the launch says; then, for every log the head may have been read from, what `HeadCarriesLaunch` says |
| ResignedLog.EqualFencesRevokedSigner | levain/authority.py:2788-2799 | the failing input: a log re-signed below an unmoved head, on which the check's every condition holds and the link's named signer is revoked |
| AgentRevoke.RevokeStores.Act | levain/agent_authority.py:302-478 | the in-place form: every act of a begin, sign or finish, by guarded writes on the bar rows and the append, is exactly the act the runs below are made of |
| AgentRevoke.RevokeStores.WriteSignature | levain/agent_authority.py:302-312 | a signature is stored if and only if the row is open and still holds the very link that was signed, and then stands beside it |
| AgentRevoke.EventKeepsInv | levain/agent_authority.py:302-478 | every event (act of begin, sign, finish or recovery, abandon, crash, foreign append) keeps: each stored signature is over the pending link beside it, which revokes that agent at this store; at most one open bar an agent; a bar closed `signed` has a revoke of that agent at this store in the log at that seq, one closed as nothing present had no link of the agent standing at its seq; a report that a link landed has it in the log and the bar closed as it says, any other appended nothing |
| AgentRevoke.RevokeOverRuns | levain/agent_authority.py:302-478 | so over any interleaving, and the log only grows and a closed bar never changes |
| AgentRevoke.ReportIsTrue | levain/agent_authority.py:302-478 | what a step reports as it ends holds then: prepared or signed with that very link pending on the open bar, stale with the new one there, landed with the bar closed `signed` at the seq, landed but abandoned with it closed otherwise, abandoned with it closed, prepared again with it open |
| AgentRevoke.RecoverDecides | levain/agents/bars.py:190-257 | recovery closes over a link the log it read holds, else appends a young signature prepared on that head, else closes the bar if no link of the agent stands there, else leaves it |
| AgentRevoke.CloseNamesItsLink | levain/agent_authority.py:402-414 | the event that closes a bar `signed` is the close of a step over a link the log holds, and writes that link's seq; for recovery it is the link read, whatever is pending by then |
| AgentRevoke.RecoveryClosesOverLinkRead | levain/agents/bars.py:190-201 | a recovery that read a bar whose link had landed, and closes it after a begin prepared it again, closes it `signed` at the earlier link's seq with the later link pending |
| AgentRevoke.SignedBarIsHeld | levain/agent_authority.py:402-414 | over any run, a bar closed `signed` meanwhile was closed by such an event, and the log still holds that link at the recorded seq |
| AgentRevoke.HeldLinkIsStale | levain/agent_authority.py:417-431 | a link the log already holds is refused by append as stale |
| AgentRevoke.LandedFinishOverRuns | levain/agent_authority.py:434-478 | a finish whose link is in the log, whatever runs between its acts short of its own crash: none of its acts appends, each brings it nearer, and it is on its way, ended standing at that seq, or raised by an anchor that refused one of them |
| AgentRevoke.RepeatedFinishOverRuns | levain/agent_authority.py:434-478 | started again on the open bar after a crash between append and close, over any interleaving, within four acts it has ended standing at the link's seq and appended nothing, short of a refusing anchor |
| AgentRevoke.RepeatedFinishLands | levain/agent_authority.py:402-478 | repeated alone after that crash, the finish ends `landed` with the bar closed at the link's seq |
| ShorthandLexer.Lex | levain/band_shorthand.py:210-271 | the one-pass lexer, with one remembered fork and a position that strictly advances, gives the backtracking reading of every line; and what it gives is right of the line: a run of entries that ends it, or one whose last entry takes the rest as text or note, or text behind the run, judged as below, or no answer |
| ShorthandLexer.WordsOnlyAsAllowed | levain/band_shorthand.py:176-191 | a line read with the operator's own words has no error and no sweep; they open with no digit, bracket or pick, but with a mark, or with a letter right behind an entry that has no space in it |
| ShorthandLexer.TextBehindIsJudged | levain/band_shorthand.py:176-191 | text behind a run that may open so is the operator's words; any other is an error, and nothing is read |
| ShorthandGrammar.RecIff | levain/band_shorthand.py:45 | a rec is matched at a length if and only if its words end there with no letter or digit behind |
| ShorthandGrammar.SweepIff | levain/band_shorthand.py:48-49 | a sweep is matched at a length if and only if it is the sweep's words, a gap and a rec up to there |
| ShorthandGrammar.PickIff | levain/band_shorthand.py:51-54 | a pick is matched if and only if it is a rec, a bracketed letter from a to f, or a bare one with no letter or digit behind |
| ShorthandGrammar.NumIff | levain/band_shorthand.py:44 | a number is matched if and only if it is one to seven digits, the first no 0, with no digit behind |
| ShorthandGrammar.EntryIff | levain/band_shorthand.py:53 | an entry is matched if and only if it is a number, at most one mark among spaces, and a pick |
| ShorthandGrammar.TextHeadIff | levain/band_shorthand.py:57 | a free text starts if and only if a number and a colon among spaces stand before a word |
| ShorthandGrammar.NoteIff | levain/band_shorthand.py:60 | a note starts if and only if a gap, `because`, `but` or a dash, and a gap stand before a word |
| ShorthandGrammar.SepsIff | levain/band_shorthand.py:46 | what stands between entries is just the commas, semicolons and spaces there |
| ShorthandGrammar.WordsMarkIff | levain/band_shorthand.py:65 | words are marked if and only if by an arrow, a double dash, or dots and bangs before a space or the end |
| ShorthandLexer.PickIffRestIsClean | levain/band_shorthand.py:210-216 | an entry that reads as a pick and as free text is the pick if and only if the text behind it, read as a line of its own, lexes cleanly; that line's entries then follow |
| ShorthandLexer.CleanIsAlone | levain/band_shorthand.py:210-271 | whether a text lexes cleanly, and to what, depends on nothing before it |
| ShorthandPrint.PrintLexRoundTrip | levain/band_shorthand.py:53-62 | any list of number-letter picks printed with any separators lexes back to that list |
| ShorthandPrint.ShownIsEntry | levain/band_shorthand.py:50-62 | a printed pick before a separator is matched as itself, whole, and as no free text |
| ShorthandPrint.ColonReadsBothWays | levain/band_shorthand.py:53-57 | any pick written `NUM:letter` is matched whole as that pick and as the head of a free text: the fork the lexer must decide |
| ShorthandPlan.Answer | levain/band_shorthand.py:345-372 | an information item is answered if and only if all its entries choose one value, offered; with the first note, and via rec exactly when all were recs |
| ShorthandPlan.SheetOf | levain/band_shorthand.py:395-415 | an authority item opens a sheet if and only if all its entries choose one offered letter; words never do |
| ShorthandPlan.Group | levain/band_shorthand.py:320-327 | entries by number in order, each number once in order first named, sweeps apart |
| ShorthandPlan.Decide | levain/band_shorthand.py:328-392 | every number named or swept, and no other, is spoken of exactly once, each action, sheet and refusal a right one, a refusal for the reason that holds of its number; the numberless refusals are one a sweep, but for a first that found something |
| ShorthandPlan.AnsweredIffDue | levain/band_shorthand.py:330-373 | an action answers `n` with `v` if and only if `n` is open, seen, information, and all its entries choose `v` |
| ShorthandPlan.SheetIffDue | levain/band_shorthand.py:338-344 | a sheet opens for `n` at a letter if and only if `n` is an open, seen authority item whose entries all choose it |
| ShorthandPlan.SweptIffRec | levain/band_shorthand.py:374-391 | of the numbers a sweep reaches it answers exactly the information items with a rec, and refuses each authority item |
| ShorthandPlan.ActionIsOffered | levain/band_shorthand.py:330-391 | every action is on an open, seen, information item, with words, an offered letter or its rec |
| ShorthandMessage.ReadIff | levain/band_shorthand.py:282-306 | a line is of the block if and only if it is not blank, is at most 2000 long, and lexes to entries with no error; each carries the whole stripped line as its note when words follow them |
| ShorthandMessage.Parse | levain/band_shorthand.py:274-392 | the block is the longest run of leading lines that read in full, the rest is returned unchanged, no view or another store is one refusal, else the plan accounts for the block's entries |
| AnswerAnchors.ScanLeft | levain/answers.py:387-394 | the `find` loop reads the values of the leftmost placement |
| AnswerAnchors.ScanRight | levain/answers.py:395-404 | the `rfind` loop, values reversed, reads those of the rightmost placement |
| AnswerAnchors.ScansAreComplete | levain/answers.py:359-404 | each scan places the literals if and only if they can be placed in order without overlap |
| AnswerAnchors.LeftComplete | levain/answers.py:387-394 | no placement puts a literal before the left scan's |
| AnswerAnchors.RightComplete | levain/answers.py:395-404 | no placement puts a literal behind the right scan's |
| AnswerAnchors.ScansAgreeIffUnique | levain/answers.py:359-404 | the scans agree if and only if there is one placement |
| AnswerAnchors.ValuesRebuild | levain/answers.py:359-404 | literals and unstripped values rebuild the text |
| AnswerExtract.SkeletonRoundTrip | levain/answers.py:342-372 | a skeleton written with sentinels is split back into its literals and names |
| AnswerExtract.Split | levain/answers.py:359-413 | the loops give what the scan of that direction reads; two fields with nothing but white space between are refused outright |
| AnswerExtract.GatherExact | levain/answers.py:405-413 | a slot's value is the one it has everywhere; none exactly when two of its values differ |
| AnswerExtract.LiteralsAreStripped | levain/answers.py:359-386 | a seed fits a skeleton's ends exactly when it starts with the first literal, stripped at its end, and ends clear of it with the last, stripped at its start; literals between fields count stripped on both sides |
| AnswerExtract.ReadBackExact | levain/answers.py:359-413 | a scan reads a seed only as the values of a placement, which with the literals make the seed again, and finds none only where there is no placement or a slot reads two ways |
| AnswerExtract.OnePlacementOneReading | levain/answers.py:359-413 | literals that can be placed one way only give that reading from either side |
| AnswerAdopt.ChoicesAreAll | levain/answers.py:450 | the product of dropped sections is every choice of that length |
| AnswerAdopt.CasesAsTried | levain/answers.py:448-466 | a case's skeleton has a blank for the slots it drops and a marked name for every other; its reading answers what it read, and blank for the rest |
| AnswerAdopt.CombinationsAreTried | levain/answers.py:440-450 | the number the bound is on is that of the cases there are, one for each direction |
| AnswerAdopt.Prove | levain/answers.py:448-466 | the proven answer sets are exactly those some case reads and that render to the seed, none twice; a side-by-side pair in any case refuses |
| AnswerAdopt.Best | levain/answers.py:478-488 | the one proven set nearer the record than every other (fewer slots changed, or as many and less text), or a refusal when there is none such |
| AnswerAdopt.Adopt | levain/answers.py:416-488 | a total answer set that renders to the normalised seed and is the unique best-ranked proven one; else the refusal that fits, in order: too many, side by side, differs, ambiguous |
| BandNumbers.StatementsOnlyGrow | levain/band_view.py:78-93 | no statement on the numbers table changes, removes or reuses a number while the triggers stand |
| BandNumbers.TriggersAreExact | levain/band_view.py:84-93 | what the triggers let through is unchanged by them, and what they stop names a row that is there and would have failed, broken a number or written a row over itself |
| BandNumbers.NumberedExact | levain/band_view.py:260-286 | numbering keeps all, gives unnumbered items the numbers straight above the mark in order, numbers every item, and fails only for want of numbers |
| BandNumbers.NumberStays | levain/band_view.py:260-286 | through any growth an item keeps its one number |
| BandStore.PutBack | levain/band_view.py:152-155 | putting the parked rows back in order is never refused and restores every row |
| BandStore.BandStore.Migrate | levain/band_view.py:133-163 | the rebuild keeps rows, numbers and high-water mark, changes only what the CHECK admits, and its reference check never fires |
| BandStore.NumberAll | levain/band_view.py:273-282 | the loop's table is the numbering's, and every item comes back under its own number |
| BandStore.BandStore.Number | levain/band_view.py:260-286 | numbering in one write: busy writes nothing and returns nothing, running out rolls back whole |
| BandStore.BandStore.Allocate | levain/band_view.py:289-309 | only a host may allocate; every ref comes back with its number, an earlier one unchanged |
| BandStore.BandStore.Statement | levain/band_view.py:78-93 | any other statement leaves every number as it was |
| BandRuns.EventKeeps | levain/band_view.py:260-560 | every event (numbering, allocation, other statement, filing, render, view write, plan, answer write, dropped session) keeps the store valid, every view listing numbered items, and nothing given, shown or answered lost or changed |
| BandRuns.NumbersAreFinal | levain/band_view.py:78-93 | over any interleaving of those events, a number given to an item is that item's only number ever after, and no other item's |
| BandStore.Newest | levain/band_view.py:563 | the newest view is the viewer's of greatest generation, the last written among equals |
| BandStore.BandStore.RecordView | levain/band_view.py:516-560 | the id returned names a view of this viewer that lists exactly what was shown: a row added, or the newest one when it already did |
| BandStore.BandStore.PlanAnswer | levain/band_view.py:1480-1491 | a plan is made if and only if the view is the viewer's own and the whole text is band answers; its entries are exactly those the text makes due on the question rows the view asks for and that are not answered: the option at the letter's place among the first six, the recommended option for a rec or a sweep, or the words, all entries on the number agreeing, with the first note |
| BandStore.PlannedIsDue | levain/band_view.py:631-634 | an entry is written for a question if and only if the view asks for it, it is unlinked and unanswered, and every entry on its number takes the one value recorded, or none is on it, a sweep is there and its recommendation is among its first six options |
| BandStore.PlannedRight | levain/band_view.py:631-689 | a plan that fits a view gives one right entry for every action on a question not answered yet, and no other |
| BandStore.RecordAll | levain/consent/questions.py:714-746 | the write's loop records each entry once, in turn, leaving out one whose question is gone or answered or does not offer it |
| BandStore.RecordedExact | levain/consent/questions.py:714-746 | what a write adds comes from its entries, with their words, viewer and note, and is an option the question has or words; what was answered stays |
| BandStore.BandStore.WriteAnswer | levain/band_view.py:1448-1457 | an answer is written if and only if its view is still the viewer's newest in that store; else nothing is |
| BandRuns.AnswerLandsOnTheViewed | levain/band_view.py:1460-1491 | over any interleaving: every answer added was written while the view it named was its viewer's newest in that store, from a plan of the whole text against that view that made it due, on a number the view lists; and in every state in which that view stands the number is the answered question's and no other item's |
| DeskClick.DeskState.Begin | levain/desk_click.py:83-103 | the id is taken if and only if it is neither remembered nor in flight; a remembered one gives its first result to the same request and `reused` to another |
| DeskClick.DeskState.End | levain/desk_click.py:105-115 | the id is released; a result is remembered only for an id in flight, as the newest of at most 64, an older one of that id dropped |
| DeskClick.DeskState.Move | levain/desk_click.py:229-366 | the in-place form: each step of a request, made of `begin`, `end` and the lock, is exactly the step the runs are made of |
| DeskClick.StepKeepsBase | levain/desk_click.py:71-120 | every step of every request keeps one holder of the sign lock and at most 64 results, of different ids, with no other hypothesis |
| DeskClick.StepKeepsId | levain/desk_click.py:278-366 | every step of a thread (arrive, look, lock, prompt, remember, unlock, release) keeps an id with one owner, its owner in flight and its settling result remembered, while its own results outlive their final release and whatever other ids do |
| DeskClick.RunKeepsId | levain/desk_click.py:278-366 | so every run from an idle desk does, for each id that is in time |
| DeskClick.AtMostOnePrompt | levain/desk_click.py:299-366 | over every interleaving, past the bound of 64 too, at most one signing prompt is open and one request holds the lock |
| DeskClick.AtMostOneOwner | levain/desk_click.py:229-237 | over any interleaving in which fewer than 64 other requests finish between each result of this id and its final release, the id has at most one owner |
| DeskClick.LookIsSpokenFor | levain/desk_click.py:83-103 | while an id is spoken for, another look gets the first result or waits if it is the same request, and is refused if it is another |
| DeskClick.ResultOnlyAges | levain/desk_click.py:105-115 | over any run in time for its id a remembered result is never replaced: it ages by one at most for each result remembered since and is kept until 64 are newer |
| DeskClick.RetryGetsFirstResult | levain/desk_click.py:83-103 | so a result remembered at any step answers every later look under its id, its final release past or not, until 64 newer push it out: the same request gets it, another is refused |
| DeskClick.SixtyFourthForgets | levain/desk_click.py:105-115 | where a request's result is the oldest of 64, the next result forgets it while its final release is still owed |
| DeskClick.ForgottenResultSplitsOwner | levain/desk_click.py:105-115 | and from any such world five steps give the id two owners |
| DeskClick.SixtyFourServedSplitOwner | levain/desk_click.py:105-115 | on a run from an idle desk: 63 requests served behind an unreleased one leave its result, 64 do not, and then two requests own its id |

## Left out

- ClassifySound: requests against kinds the classifier only compares whole (setup records, leases, hands, voice keys, unknown kinds) are covered by equal meaning, because nothing in this code says what they let through.
- NextLinkIff: a loosening must also be one by the classifier's verdict on the two whole policies; what each grant's change counts as is `ChangeKinds`.
- LowRankLinksWidenNothing: a link of a quarantined key already in the log is judged by the rank of its class, as the replay does.
- HashPinsState: says nothing of who signed, because the hash does not cover it (see Findings).
- AtMostOneOwner: holds for an id under the bound of 64 other finishes, which is exact (see Findings); finishes of the same foreign id count as often as they come.
- BuiltHasOneLive: needs an append clock that never goes back, as the code's own rules do.
- RevokeOverRuns: the recovery pass is its guarded writes and its append of an already signed link; its attention rows and the age a signature must be under are not modelled; the begin's raised epochs are not part of the bar rows.
- CheckFence: the two fence digests are taken as injective, so equal digests are equal fields; a log that does not replay is held to nothing, because then there is no replay to compare with; that the signers are active in the log at hand is not promised, because the code does not check it (see Findings).
- Lex: character classes are ASCII (white space as Python's has it there), and the wording of an error is its kind and position.
- Parse: the hints, which name answer shapes in text that was not read, are not part of the result; a line is taken to hold no line feed.
- Decide: the order of actions, sheets and refusals is not stated, only which there are.
- Adopt: the renderer and its white-space normalisation are any functions; nothing is said of what a template renders.
- Split: a private-use mark inside a template is read as a sentinel, as the code reads it.
- BandStore.Migrate: the table's foreign keys are the closings shown; SQLite's deferred checks and the temporary table's own storage are one transaction.
- Number: the lock wait is a parameter; a closed store and SQLite's other errors are not modelled.
- AnswerLandsOnTheViewed: answers to one item by its subject and version, and the seat's signed line, are other paths to the same table and are not events here.
- PlanAnswer: the authority items of other sources are a parameter, question rows always decode, a host's numbers are refused like any other instead of silently, and sheets open outside the store.
- WriteAnswer: channel names, signatures and sign cards beside an answer are not modelled.
- Reset verification: the signed reset message is compared whole; its text form is not modelled, nor an anchor file that cannot be read.
- Per-field shape validators, regexes, error wording and remedy text: only the fields that the change, time, format and uniqueness rules read are kept.
- Append checks against the local machine or other modules (home directory, tool lists, guard contents): one refusal each, kept as a predicate of the grant where it decides a result.
- `ssh-keygen`, WebAuthn and the signature byte reader, and a verifier that is not installed.
- SQLite files, locks, fsync and the Time Machine attribute; rows whose cells are not text.
- Band rendering, badges, hooks, notices and delivery; the host protocol and rulings of the desk, and its text route, which shares the table and the lock.
