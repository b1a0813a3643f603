/** The entities of the passkey service: users, credentials, ceremony payloads and store errors. */
module Domain {

  newtype Byte = x: int | 0 <= x < 256
  type Bytes = seq<Byte>
  type Uint32 = n: nat | n < 0x1_0000_0000

  /** A UUID, as the 128-bit number its sixteen bytes spell. */
  type Uuid = nat
  const NIL_UUID: Uuid := 0

  datatype Option<+T> = None | Some(value: T)

  datatype Error =
    | UserNotFound
    | UsernameTaken
    | CredentialNotFound
    | CredentialExists
    | LastCredential
    | SessionNotFound
    | ChallengeNotFound
    | GuestNotFound
    | BadAaguid
    | StoreFailure

  datatype Result<+T> = Ok(value: T) | Err(error: Error)

  datatype User = User(
    id: Uuid,
    username: string,
    displayName: string,
    isGuest: bool,
    createdAt: nat,
    promotedAt: Option<nat>)

  /** A passkey as the handlers see it. */
  datatype Credential = Credential(
    id: Uuid,
    userId: Uuid,
    credentialId: Bytes,
    publicKey: Bytes,
    handle: Bytes,
    aaguid: Option<Uuid>,
    signCount: Uint32,
    transports: seq<string>,
    attestationFormat: string,
    attestationType: string,
    backupEligible: bool,
    backupState: bool,
    name: Option<string>,
    createdAt: nat,
    lastUsedAt: Option<nat>)

  /** A row of the credentials table: the sign count is a BIGINT, and deletion is a timestamp. */
  datatype Row = Row(
    id: Uuid,
    userId: Uuid,
    credentialId: Bytes,
    publicKey: Bytes,
    handle: Bytes,
    aaguid: Option<Uuid>,
    signCount: int,
    transports: seq<string>,
    attestationFormat: string,
    attestationType: string,
    backupEligible: bool,
    backupState: bool,
    name: Option<string>,
    createdAt: nat,
    lastUsedAt: Option<nat>,
    deletedAt: Option<nat>)

  /** A credential as the WebAuthn library hands it over. */
  datatype LibCredential = LibCredential(
    id: Bytes,
    publicKey: Bytes,
    attestationFormat: string,
    attestationType: string,
    transport: seq<string>,
    backupEligible: bool,
    backupState: bool,
    aaguid: Bytes,
    signCount: Uint32)

  /** The library's per-ceremony state; only the user handle matters to the handlers. */
  datatype SessionData = SessionData(userHandle: Bytes)

  /**
   * What sits in the challenge store between /begin and /complete. A login payload carries the
   * session alone; read back as a registration session its other fields are the zero values.
   */
  datatype Payload = Payload(
    session: SessionData,
    username: string,
    displayName: string,
    promoteUserId: Uuid,
    promote: bool)
}
