/** The values the signed authority log is made of (levain/authority.py, "state").

    Digests are taken as injective, so a link hash is the constructor that made it, a fingerprint is the key it was
    taken of, and a signature names the key and the message it was made over. Times are microseconds. */
module AuthorityModel {
  import opened Wrappers

  /** A name the log only compares with others: an id, a verb, an entity, a tool, a digest. */
  type Name = nat

  const DAY: int := 86_400_000_000
  const GRANT_MAX: int := 30 * DAY
  const RENEW_MAX: int := 30 * DAY
  const SEAT_MAX: int := 14 * DAY
  const RENEW_SKEW: int := 600_000_000

  // ----- keys

  datatype KeyClass = Presence | DisplayPhone | LaptopPresence

  function Rank(c: KeyClass): int {
    match c
    case Presence => 1
    case DisplayPhone => 2
    case LaptopPresence => 3
  }

  datatype Custody = TouchId | Passphrase | Tpm | Fido | WindowsHello | Passkey | FidoAttested | Unstated

  datatype KeyType = Ed25519 | EcdsaP256 | SkEd25519 | SkEcdsaP256 | OtherType

  /** A key line: its type, the application inside its material, and the rest of the material. */
  datatype PublicKey = PublicKey(keyType: KeyType, application: string, point: Name)

  datatype Fingerprint = Fingerprint(of: PublicKey)

  datatype Key = Key(
    fingerprint: Fingerprint, publicKey: PublicKey, keyClass: KeyClass, enrolledSeq: nat,
    revokedSeq: Option<nat>, compromisedSince: Option<int>, legacy: bool, custody: Custody)
  {
    predicate Active() {
      revokedSeq.None?
    }
  }

  /** WebAuthn material: an sk-ecdsa key whose application is no "ssh:" one. */
  predicate IsPasskeyMaterial(k: PublicKey) {
    k.keyType.SkEcdsaP256? && !("ssh:" <= k.application)
  }

  /** The stored custody is not the one the key material shows. */
  predicate CustodyMismatch(k: Key) {
    IsPasskeyMaterial(k.publicKey) != k.custody.Passkey?
  }

  function CustodyKeyTypes(c: Custody): set<KeyType> {
    match c
    case TouchId => {SkEd25519, SkEcdsaP256}
    case Fido => {SkEd25519, SkEcdsaP256}
    case WindowsHello => {SkEd25519, SkEcdsaP256}
    case FidoAttested => {SkEd25519, SkEcdsaP256}
    case Tpm => {EcdsaP256}
    case Passkey => {SkEcdsaP256}
    case Passphrase => {Ed25519, EcdsaP256}
    case Unstated => {}
  }

  const LAPTOP_KEY_TYPES: set<KeyType> := {Ed25519, EcdsaP256, SkEd25519, SkEcdsaP256}

  /** Every rule of an enrolment's custody but the key-material one. */
  predicate CustodyRuleHolds(c: KeyClass, custody: Custody, t: KeyType, legacy: bool) {
    if custody.FidoAttested? then false
    else if custody.Passkey? && c != DisplayPhone then false
    else if custody.Unstated? then
      c != LaptopPresence || (legacy && t in LAPTOP_KEY_TYPES)
    else t in CustodyKeyTypes(custody)
  }

  /** The enrol door: the material rule and every other. */
  predicate CustodyAllowed(c: KeyClass, custody: Custody, k: PublicKey, legacy: bool) {
    && (custody.Passkey? || !IsPasskeyMaterial(k))
    && CustodyRuleHolds(c, custody, k.keyType, legacy)
  }

  /** An enrolment only the material rule refuses: kept, quarantined, when it is already in the log. */
  predicate Quarantinable(c: KeyClass, custody: Custody, k: PublicKey, legacy: bool) {
    && !custody.Passkey?
    && IsPasskeyMaterial(k)
    && CustodyRuleHolds(c, custody, k.keyType, legacy)
  }

  /** A key that can sign a new link: active, laptop-presence and not quarantined. */
  predicate SigningLaptop(k: Key) {
    k.Active() && k.keyClass.LaptopPresence? && !CustodyMismatch(k)
  }

  // ----- grants

  /** The kinds a consent-mcp grant declares an input field to be. */
  datatype FieldKind = PathField | PathsField | StrField | StrsField | IntField | BoolField

  type McpFields = map<Name, map<Name, FieldKind>>

  /** One grant of each kind, with the fields the change, time and uniqueness rules read. `terms` holds what a kind
      compares only as a whole; `Inert` is a kind this build does not know. */
  datatype Grant =
    | Egress(id: Name, entity: Name, remote: Name, deployKey: Name, refspecs: set<Name>,
             verbs: set<Name>, expiresAt: int)
    | Consent(id: Name, agent: Name, tools: set<Name>, postures: set<Name>, workspace: string,
              expiresAt: int)
    | ConsentMcp(id: Name, agent: Name, tools: set<Name>, postures: set<Name>, workspace: string,
                 fields: McpFields, expiresAt: int)
    | ContainedShell(id: Name, digest: Name, workspace: string, expiresAt: int)
    | EgressKey(id: Name, entity: Name, host: Name, terms: Name, expiresAt: int)
    | VoiceKey(id: Name, provider: Name, terms: Name)
    | Graduation(id: Name, terms: Name, guard: Option<Name>, expiresAt: int)
    | GraduationPhone(id: Name, passkeys: set<Fingerprint>)
    | HandsMcp(id: Name, name: Name, remoteEntry: bool, port: int, terms: Name, expiresAt: int)
    | SeatLease(id: Name, terms: Name, expiresAt: int)
    | SeatEgress(id: Name, terms: Name, expiresAt: int)
    | AgentLink(id: Name, agentId: Name, storeId: Name, terms: Name, expiresAt: int)
    | Inert(id: Name, kind: nat, terms: Name, expiresAt: int)

  /** The grant carries an expiry (the opt-in and a voice key do not). */
  predicate Expires(g: Grant) {
    !g.VoiceKey? && !g.GraduationPhone?
  }

  /** A consent-mcp grant declares fields, of tools it names, and at least one field each. */
  predicate WellDeclared(g: Grant) {
    g.ConsentMcp? ==> g.fields != map[] && g.fields.Keys <= g.tools && forall t :: t in g.fields ==> g.fields[t] != map[]
  }

  /** The terms are fixed under the id: no change but a renew. */
  predicate Fixed(g: Grant) {
    g.VoiceKey? || g.Graduation? || g.GraduationPhone? || g.HandsMcp? || g.SeatEgress? || g.SeatLease? || g.AgentLink?
  }

  predicate PasskeyRevocable(g: Grant) {
    !g.Egress? && !g.EgressKey?
  }

  /** The most a grant may live past the link that brings it in. */
  function CreateCap(g: Grant): Option<int> {
    if g.Egress? || !Expires(g) then None
    else if g.SeatLease? || g.SeatEgress? then Some(SEAT_MAX)
    else Some(GRANT_MAX)
  }

  /** A kind's own cap on a renew, beside the generic one. */
  function RenewCap(g: Grant): Option<int> {
    if g.SeatLease? || g.SeatEgress? then Some(SEAT_MAX)
    else if g.Graduation? || g.AgentLink? then Some(GRANT_MAX)
    else None
  }

  /** The key class a renew of the kind needs, beside the generic rank. */
  predicate RenewNeedsLaptop(g: Grant) {
    g.SeatLease? || g.SeatEgress? || g.AgentLink?
  }

  predicate SameKind(o: Grant, n: Grant) {
    match o
    case Egress(_, _, _, _, _, _, _) => n.Egress?
    case Consent(_, _, _, _, _, _) => n.Consent?
    case ConsentMcp(_, _, _, _, _, _, _) => n.ConsentMcp?
    case ContainedShell(_, _, _, _) => n.ContainedShell?
    case EgressKey(_, _, _, _, _) => n.EgressKey?
    case VoiceKey(_, _, _) => n.VoiceKey?
    case Graduation(_, _, _, _) => n.Graduation?
    case GraduationPhone(_, _) => n.GraduationPhone?
    case HandsMcp(_, _, _, _, _, _) => n.HandsMcp?
    case SeatLease(_, _, _) => n.SeatLease?
    case SeatEgress(_, _, _) => n.SeatEgress?
    case AgentLink(_, _, _, _, _) => n.AgentLink?
    case Inert(_, k, _, _) => n.Inert? && n.kind == k
  }

  /** The grant with another expiry, and nothing else changed. */
  function WithExpiry(g: Grant, expiresAt: int): (r: Grant)
    requires Expires(g)
    ensures Expires(r) && r.expiresAt == expiresAt && SameKind(g, r) && r.id == g.id
    ensures expiresAt == g.expiresAt ==> r == g
  {
    g.(expiresAt := expiresAt)
  }

  /** Everything a grant says but its expiry. */
  function Meaning(g: Grant): Grant {
    if Expires(g) then WithExpiry(g, 0) else g
  }

  // ----- policy

  datatype Tier = C1 | T2 | T3

  function TierIndex(t: Tier): nat {
    match t
    case C1 => 0
    case T2 => 1
    case T3 => 2
  }

  datatype Policy = Policy(raiseTo: map<Name, Tier>, timeouts: map<Name, Name>, grants: map<Name, Grant>)

  const GENESIS_POLICY: Policy := Policy(map[], map[], map[])

  /** The floor a policy sets for a verb; no floor is the lowest tier. */
  function Floor(p: Policy, verb: Name): Tier {
    if verb in p.raiseTo then p.raiseTo[verb] else C1
  }

  /** `tier` raised to the policy's floor for `verb`. */
  function ApplyTier(p: Policy, verb: Name, tier: Tier): Tier {
    if verb !in p.raiseTo then tier
    else if TierIndex(p.raiseTo[verb]) > TierIndex(tier) then p.raiseTo[verb]
    else tier
  }

  // ----- records, links and the replayed state

  datatype Format = V1 | V2 | V3 | V4 | V5

  function FormatIndex(f: Format): nat {
    match f
    case V1 => 1
    case V2 => 2
    case V3 => 3
    case V4 => 4
    case V5 => 5
  }

  datatype Op =
    | Enrol(fingerprint: Fingerprint, publicKey: PublicKey, keyClass: KeyClass, custody: Custody, legacy: bool)
    | RevokeKey(target: Fingerprint, since: Option<int>)
    | Raise(verb: Name, tier: Tier)
    | Loosen(policy: Policy)
    | RevokeGrant(gid: Name)
    | RevokeAgent(agentId: Name, agentStoreId: Name)
    | Renew(gid: Name, expiresAt: int, signedAt: int)
    | CreateGrant(grant: Grant)
    | Timeouts(timeouts: map<Name, Name>)

  datatype Record = Record(format: Format, storeId: Name, seqNo: nat, at: int, op: Op)

  /** A stored record: the canonical form of one, or text no record reads back from. */
  datatype RecordText = Canonical(rec: Record) | Unreadable(bytes: string)

  datatype Hash = NoHash | LinkHash(prev: Hash, text: RecordText)

  /** What a signer signs. */
  datatype Message = Message(prev: Hash, text: RecordText)

  /** How a WebAuthn signature's origin relates to the key's own https name. */
  datatype Origin = ExactOrigin | OwnNameOtherPort | ForeignOrigin

  datatype Signature =
    | NoSignature
    | Signature(signedBy: PublicKey, over: Message, userVerified: bool, origin: Origin)

  /** The signature verifier, a pure predicate on the link message. */
  predicate Verifies(sig: Signature, k: PublicKey, m: Message) {
    sig.Signature? && sig.signedBy == k && sig.over == m
  }

  /** The checks made on a passkey's signature beside the verifier: a revoke may come from any port of the name. */
  predicate PasskeySignatureHolds(sig: Signature, revoke: bool) {
    sig.Signature? && sig.userVerified && (sig.origin.ExactOrigin? || (revoke && sig.origin.OwnNameOtherPort?))
  }

  datatype Row = Row(seqNo: nat, prevHash: Hash, text: RecordText, signer: Fingerprint, signature: Signature, hash: Hash)

  /** The part of the replayed state every op rule reads and writes. */
  datatype Core = Core(
    keys: map<Fingerprint, Key>, policy: Policy, grantSeqs: map<Name, nat>, grantBorn: map<Name, nat>,
    agentRevoked: map<(Name, Name), nat>)

  datatype Snapshot = Snapshot(
    storeId: Name, seqNo: nat, headHash: Hash, core: Core, hashes: seq<Hash>, headAt: int, signers: seq<Fingerprint>)
  {
    /** The hash of the link at `n`, when the state holds one. */
    function HashAt(n: nat): Option<Hash> {
      if 1 <= n <= |hashes| then Some(hashes[n - 1]) else None
    }
  }

  /** Why a link, an append or an anchor is refused. */
  datatype Error =
    | OutOfOrder | BrokenChain | Malformed | TimeWentBack | OtherStore
    | BadGenesis | SignerUnknown | SignerRevoked | SignerQuarantined
    | EnrolRefused | KeyRevokeRefused | PasskeyActRefused
    | GrantInvalid | NoGrant | NotRenewable | GrantLapsed | ExpiryNotLater | RenewTooLong | FixedTerms
    | ChangesNothing | OpDeltaMismatch | RankTooLow | StateRule | WrongFormat
    | SignatureRefused
    | NotUnique | AppendGrantRefused | RenewClock
    | StaleHead | AnchorRefused | ForeignAnchor | ResetRefused

  /** The sequence number of an agent's last revoke; 0 for none. */
  function AgentLastRevoke(core: Core, agentId: Name, storeId: Name): nat {
    if (agentId, storeId) in core.agentRevoked then core.agentRevoked[(agentId, storeId)] else 0
  }
}
