/**
 * The software authenticator's binary authenticator data, and a parser of it written from sections
 * 6.1 and 6.5.1 of Web Authentication Level 2.
 */
module AuthData {
  import opened Domain
  import opened BigEndian

  const HASH_LENGTH := 32
  const AAGUID_LENGTH := 16
  const COORDINATE_LENGTH := 32
  const SHORT: nat := 0x1_0000          // what a two-byte length can count
  const WORD: nat := 0x1_0000_0000      // what a four-byte counter can count

  datatype Attested = Attested(aaguid: Bytes, credId: Bytes, key: Bytes)

  datatype Parsed = Parsed(
    rpIdHash: Bytes,
    userPresent: bool,
    userVerified: bool,
    backupEligible: bool,
    backupState: bool,
    signCount: nat,
    attested: Option<Attested>)

  // ----- the parser -----

  predicate Bit(b: Byte, k: nat) {
    (b as nat / Power(k)) % 2 == 1
  }

  function Power(k: nat): (p: nat)
    ensures p > 0
  {
    if k == 0 then 1 else 2 * Power(k - 1)
  }

  /** Section 6.5.1: AAGUID, two-byte length, credential id, and the key as whatever follows. */
  function ParseAttested(b: Bytes): Option<Attested> {
    if |b| < AAGUID_LENGTH + 2 then None
    else
      var n := Decode(b[AAGUID_LENGTH..AAGUID_LENGTH + 2]);
      if |b| < AAGUID_LENGTH + 2 + n then None
      else Some(Attested(b[..AAGUID_LENGTH], b[AAGUID_LENGTH + 2..AAGUID_LENGTH + 2 + n], b[AAGUID_LENGTH + 2 + n..]))
  }

  /** Section 6.1, for data without extensions: hash, flags, counter, and attested data when flag AT (bit 6) is set. */
  function Parse(b: Bytes): Option<Parsed> {
    if |b| < HASH_LENGTH + 5 || Bit(b[HASH_LENGTH], 7) then None
    else
      var flags, rest := b[HASH_LENGTH], b[HASH_LENGTH + 5..];
      var plain := Parsed(b[..HASH_LENGTH], Bit(flags, 0), Bit(flags, 2), Bit(flags, 3), Bit(flags, 4),
                          Decode(b[HASH_LENGTH + 1..HASH_LENGTH + 5]), None);
      if !Bit(flags, 6) then (if rest == [] then Some(plain) else None)
      else match ParseAttested(rest)
           case Some(a) => Some(plain.(attested := Some(a)))
           case None => None
  }

  // ----- the COSE key -----

  /** The CTAP2 canonical encoding of {1: 2, 3: -7, -1: 1, -2: x, -3: y}. */
  function CoseKey(x: Bytes, y: Bytes): Bytes {
    [0xA5, 0x01, 0x02, 0x03, 0x26, 0x20, 0x01, 0x21, 0x58, 0x20] + x + [0x22, 0x58, 0x20] + y
  }

  /** Reads back both coordinates of an ES256 key. */
  function ParseCoseKey(b: Bytes): Option<(Bytes, Bytes)> {
    if |b| == 77 && b[..10] == [0xA5, 0x01, 0x02, 0x03, 0x26, 0x20, 0x01, 0x21, 0x58, 0x20]
        && b[42..45] == [0x22, 0x58, 0x20]
    then Some((b[10..42], b[45..]))
    else None
  }

  /** The key names both coordinates of the uncompressed point. */
  predicate Encodes(key: Bytes, point: Bytes) {
    && ParseCoseKey(key).Some?
    && var (x, y) := ParseCoseKey(key).value;
       point == [0x04] + x + y
  }

  // ----- the layout and its inverse -----

  /** The data in order; the credential id's length is cut to two bytes. */
  function LayAttested(a: Attested): (b: Bytes)
    ensures |b| == AAGUID_LENGTH + 2 + |a.credId| + |a.key| || |a.aaguid| != AAGUID_LENGTH
  {
    a.aaguid + Encode(|a.credId| % SHORT, 2) + a.credId + a.key
  }

  function Layout(hash: Bytes, flags: Byte, count: nat, attested: Option<Attested>): Bytes {
    hash + [flags] + Encode(count, 4) + (if attested.Some? then LayAttested(attested.value) else [])
  }

  predicate FlagsOf(b: Byte, be: bool, bs: bool, at: bool) {
    Bit(b, 0) && Bit(b, 2) && (Bit(b, 3) <==> be) && (Bit(b, 4) <==> bs) && (Bit(b, 6) <==> at) && !Bit(b, 7)
  }

  lemma FlagBits(b: Byte)
    ensures b == 0x05 ==> FlagsOf(b, false, false, false)
    ensures b == 0x0D ==> FlagsOf(b, true, false, false)
    ensures b == 0x15 ==> FlagsOf(b, false, true, false)
    ensures b == 0x1D ==> FlagsOf(b, true, true, false)
    ensures b == 0x45 ==> FlagsOf(b, false, false, true)
    ensures b == 0x4D ==> FlagsOf(b, true, false, true)
    ensures b == 0x55 ==> FlagsOf(b, false, true, true)
    ensures b == 0x5D ==> FlagsOf(b, true, true, true)
  {
    assert Power(0) == 1 && Power(2) == 4 && Power(3) == 8 && Power(4) == 16 && Power(6) == 64 && Power(7) == 128;
  }

  lemma ParseAttestedLayout(a: Attested)
    requires |a.aaguid| == AAGUID_LENGTH
    ensures ParseAttested(LayAttested(a)) == Some(a) <==> |a.credId| < SHORT
    ensures ParseAttested(LayAttested(a)).Some? && ParseAttested(LayAttested(a)).value.credId == a.credId ==>
              |a.credId| < SHORT
  {
    var n := |a.credId| % SHORT;
    var b := LayAttested(a);
    Capacities();
    DecodeEncode(n, 2);
    assert b[..AAGUID_LENGTH] == a.aaguid;
    assert b[AAGUID_LENGTH..AAGUID_LENGTH + 2] == Encode(n, 2);
    if |a.credId| < SHORT {
      assert b[AAGUID_LENGTH + 2..AAGUID_LENGTH + 2 + n] == a.credId;
      assert b[AAGUID_LENGTH + 2 + n..] == a.key;
    } else {
      assert |b[AAGUID_LENGTH + 2..AAGUID_LENGTH + 2 + n]| == n < |a.credId|;
    }
  }

  /** The parser gives back every field, unless the credential id is too long for its length prefix. */
  lemma ParseLayout(hash: Bytes, flags: Byte, be: bool, bs: bool, count: nat, attested: Option<Attested>)
    requires |hash| == HASH_LENGTH && count < WORD && FlagsOf(flags, be, bs, attested.Some?)
    requires attested.Some? ==> |attested.value.aaguid| == AAGUID_LENGTH
    ensures Parse(Layout(hash, flags, count, attested)) == Some(Parsed(hash, true, true, be, bs, count, attested))
            <==> attested.None? || |attested.value.credId| < SHORT
    ensures var parsed := Parse(Layout(hash, flags, count, attested));
            attested.Some? && parsed.Some? && parsed.value.attested.Some?
                && parsed.value.attested.value.credId == attested.value.credId
            ==> |attested.value.credId| < SHORT
    ensures |Layout(hash, flags, count, attested)| ==
              if attested.None? then 37 else 55 + |attested.value.credId| + |attested.value.key|
  {
    hide Bit, ParseAttested, LayAttested;
    var b := Layout(hash, flags, count, attested);
    Capacities();
    DecodeEncode(count, 4);
    assert b[..HASH_LENGTH] == hash && b[HASH_LENGTH] == flags;
    assert b[HASH_LENGTH + 1..HASH_LENGTH + 5] == Encode(count, 4);
    if attested.Some? {
      assert b[HASH_LENGTH + 5..] == LayAttested(attested.value);
      ParseAttestedLayout(attested.value);
    }
  }

  class Authenticator {
    const rpIdHash: Bytes
    var aaguid: Bytes
    var credId: Bytes
    const point: Bytes          // the public key as an uncompressed point
    var signCount: Uint32
    var backupEligible: bool
    var backupState: bool

    constructor (rpIdHash: Bytes, aaguid: Bytes, credId: Bytes, point: Bytes, be: bool, bs: bool)
      ensures this.rpIdHash == rpIdHash && this.aaguid == aaguid && this.credId == credId && this.point == point
      ensures backupEligible == be && backupState == bs && signCount == 0
    {
      this.rpIdHash, this.aaguid, this.credId, this.point := rpIdHash, aaguid, credId, point;
      backupEligible, backupState, signCount := be, bs, 0;
    }

    predicate Valid()
      reads this
    {
      |rpIdHash| == HASH_LENGTH && |aaguid| == AAGUID_LENGTH
    }

    /** What the data is meant to say. */
    function Meant(key: Option<Bytes>): Parsed
      reads this
    {
      Parsed(rpIdHash, true, true, backupEligible, backupState, signCount,
             if key.Some? then Some(Attested(aaguid, credId, key.value)) else None)
    }

    /** Any other point form is refused. */
    method CosePublicKey() returns (r: Option<Bytes>)
      ensures r.Some? <==> |point| == 65 && point[0] == 0x04
      ensures r.Some? ==> |r.value| == 77 && Encodes(r.value, point)
    {
      var raw := point;
      if |raw| != 65 || raw[0] != 0x04 { return None; }
      var x, y := raw[1..33], raw[33..65];
      CoseKeyRoundTrip(x, y);
      assert raw == [0x04] + x + y;
      r := Some(CoseKey(x, y));
    }

    method FlagByte(attested: bool) returns (b: Byte)
      ensures FlagsOf(b, backupEligible, backupState, attested)
    {
      var flags: bv8 := 0x01 | 0x04;
      if backupEligible { flags := flags | 0x08; }
      if backupState { flags := flags | 0x10; }
      if attested { flags := flags | 0x40; }
      b := flags as int as Byte;
      FlagBits(b);
    }

    /**
     * buildAuthData: 37 bytes, or 55 + n + 77 with an n-byte credential id; the parser inverts it exactly
     * when n fits two bytes.
     */
    method BuildAuthData(attested: bool) returns (r: Option<Bytes>)
      requires Valid()
      ensures r.Some? <==> !attested || (|point| == 65 && point[0] == 0x04)
      ensures r.Some? && !attested ==> |r.value| == 37 && Parse(r.value) == Some(Meant(None))
      ensures r.Some? && attested ==>
                && |r.value| == 55 + |credId| + 77
                && (|credId| < SHORT <==> exists key :: Encodes(key, point) && Parse(r.value) == Some(Meant(Some(key))))
    {
      hide Parse, Encodes, FlagsOf, Encode;
      var flags := FlagByte(attested);
      var buf: Bytes := [];
      buf := buf + rpIdHash;
      buf := buf + [flags];
      buf := buf + Encode(signCount, 4);
      if attested {
        var pubKey := CosePublicKey();
        if pubKey.None? { return None; }
        buf := buf + aaguid;
        buf := buf + Encode(|credId| % SHORT, 2);
        buf := buf + credId;
        buf := buf + pubKey.value;
        var a := Attested(aaguid, credId, pubKey.value);
        ParseLayout(rpIdHash, flags, backupEligible, backupState, signCount, Some(a));
        assert buf == Layout(rpIdHash, flags, signCount, Some(a));
      } else {
        ParseLayout(rpIdHash, flags, backupEligible, backupState, signCount, None);
        assert buf == Layout(rpIdHash, flags, signCount, None);
      }
      r := Some(buf);
    }

    /** The part of Authenticate before the signature: count, then build. */
    method Authenticate() returns (data: Bytes)
      requires Valid()
      modifies this`signCount
      ensures signCount == Tick(old(signCount))
      ensures |data| == 37 && Parse(data) == Some(Meant(None))
    {
      signCount := (signCount + 1) % WORD;
      var built := BuildAuthData(false);
      data := built.value;
    }
  }

  lemma CoseKeyRoundTrip(x: Bytes, y: Bytes)
    requires |x| == COORDINATE_LENGTH && |y| == COORDINATE_LENGTH
    ensures |CoseKey(x, y)| == 77 && ParseCoseKey(CoseKey(x, y)) == Some((x, y))
  {
    var b := CoseKey(x, y);
    assert b[10..42] == x && b[45..] == y;
    assert b[42..45] == [0x22, 0x58, 0x20];
  }

  // ----- the counter over many assertions -----

  /** atomic.Uint32.Add(1) wraps. */
  function Tick(n: Uint32): Uint32 {
    (n + 1) % WORD
  }

  /** The counters of n assertions in a row, starting after start. */
  function Counters(start: Uint32, n: nat): (cs: seq<Uint32>)
    ensures |cs| == n
  {
    if n == 0 then []
    else
      var before := Counters(start, n - 1);
      before + [Tick(if n == 1 then start else before[n - 2])]
  }

  lemma TickWraps(x: nat)
    ensures Tick(x % WORD) == (x + 1) % WORD
  {
    assert x == x / WORD * WORD + x % WORD;
  }

  lemma {:induction false} CounterAt(start: Uint32, n: nat, i: nat)
    requires i < n
    ensures Counters(start, n)[i] == (start + i + 1) % WORD
  {
    hide Tick;
    if i < n - 1 {
      CounterAt(start, n - 1, i);
    } else {
      TickWraps(start + i);
      if n > 1 {
        CounterAt(start, n - 1, n - 2);
      }
    }
  }

  predicate Increasing(cs: seq<Uint32>) {
    forall i, j :: 0 <= i < j < |cs| ==> cs[i] < cs[j]
  }

  /** Each assertion's counter is larger than all before it, and than the start, exactly until the counter wraps. */
  lemma CountersIncrease(start: Uint32, n: nat)
    ensures Increasing([start] + Counters(start, n)) <==> start + n < WORD
  {
    var cs := [start] + Counters(start, n);
    forall i | 0 <= i < n + 1 ensures cs[i] == (start + i) % WORD {
      if i > 0 { CounterAt(start, n, i - 1); }
    }
    if start + n >= WORD {
      var wrap := WORD - start;
      assert cs[wrap] == 0;
      assert !(cs[wrap - 1] < cs[wrap]);
    } else {
      forall i | 0 <= i < n + 1 ensures cs[i] == start + i { }
    }
  }
}
