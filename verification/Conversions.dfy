/** The credential conversions on both sides of the database row. */
module Conversions {
  import opened Domain
  import opened Tables
  import BigEndian

  const UUID_LENGTH := 16

  /** uuid.FromBytes: sixteen bytes or an error. */
  function UuidFromBytes(b: Bytes): Result<Uuid> {
    if |b| == UUID_LENGTH then Ok(BigEndian.Decode(b)) else Err(BadAaguid)
  }

  /** domainCredentialFromLib: an empty AAGUID stays absent, any length but sixteen is refused. */
  function FromLib(userId: Uuid, handle: Bytes, lib: LibCredential): Result<Credential> {
    var base := Credential(NIL_UUID, userId, lib.id, lib.publicKey, handle, None, lib.signCount, lib.transport,
                           lib.attestationFormat, lib.attestationType, lib.backupEligible, lib.backupState, None, 0,
                               None);
    if lib.aaguid == [] then Ok(base)
    else match UuidFromBytes(lib.aaguid)
         case Ok(id) => Ok(base.(aaguid := Some(id)))
         case Err(e) => Err(e)
  }

  /** libCredentialFromDomain: the attestation fields are not carried back. */
  function ToLib(c: Credential): LibCredential {
    LibCredential(c.credentialId, c.publicKey, "", "", c.transports, c.backupEligible, c.backupState,
                  if c.aaguid.Some? then BigEndian.Encode(c.aaguid.value, UUID_LENGTH) else [],
                  c.signCount)
  }

  /**
   * Library to domain to row to domain to library: the conversion is refused exactly when the
   * AAGUID is neither empty nor sixteen bytes, and otherwise the credential survives the trip in
   * every field the library will read again, under the user and handle it was registered for.
   */
  lemma RoundTrip(userId: Uuid, handle: Bytes, lib: LibCredential, id: Uuid, now: nat)
    ensures FromLib(userId, handle, lib).Ok? <==> |lib.aaguid| == 0 || |lib.aaguid| == UUID_LENGTH
    ensures FromLib(userId, handle, lib).Ok? ==>
              var stored := NewRow(FromLib(userId, handle, lib).value, id, now);
              && ToLib(Scan(stored)) == lib.(attestationFormat := "", attestationType := "")
              && Scan(stored).(id := NIL_UUID, createdAt := 0) == FromLib(userId, handle, lib).value
              && stored.userId == userId && stored.handle == handle
              && (stored.aaguid.None? <==> lib.aaguid == [])
  {
    if |lib.aaguid| == UUID_LENGTH {
      BigEndian.EncodeDecode(lib.aaguid);
      assert lib.aaguid != [];
    }
  }

  /**
   * The other direction, for what the store returns: a live row handed to the library and back is
   * the same credential, provided its AAGUID column holds a 128-bit value, as a UUID column does.
   */
  lemma RowRoundTrip(row: Row, format: string, kind: string)
    requires row.aaguid.Some? ==> row.aaguid.value < BigEndian.Capacity(UUID_LENGTH)
    ensures var c := Scan(row);
            FromLib(c.userId, c.handle,
                ToLib(c).(attestationFormat := c.attestationFormat, attestationType := c.attestationType))
            == Ok(c.(id := NIL_UUID, name := None, createdAt := 0, lastUsedAt := None))
  {
    if row.aaguid.Some? {
      BigEndian.DecodeEncode(row.aaguid.value, UUID_LENGTH);
    }
  }

  /** What a scan hands over has everything the row has, its deletion aside, if the count fits 32 bits. */
  lemma ScanKeeps(row: Row)
    requires 0 <= row.signCount < 0x1_0000_0000
    ensures var c := Scan(row);
            row == Row(c.id, c.userId, c.credentialId, c.publicKey, c.handle, c.aaguid, c.signCount, c.transports,
                       c.attestationFormat, c.attestationType, c.backupEligible, c.backupState, c.name, c.createdAt,
                       c.lastUsedAt, row.deletedAt)
  {
  }
}
