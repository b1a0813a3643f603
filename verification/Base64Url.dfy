/**
 * The demo page's base64url helpers, over a model of the browser's btoa and atob (the forgiving-base64
 * algorithms of the WHATWG Infra standard). A binary string holds one byte per character.
 */
module Base64Url {
  import opened Domain

  type Sextet = n: nat | n < 64

  // ----- bytes and sextets (RFC 4648, section 4) -----

  function Group(a: Byte, b: Byte, c: Byte): (q: seq<Sextet>)
    ensures |q| == 4
  {
    [a as nat / 4, a as nat % 4 * 16 + b as nat / 16, b as nat % 16 * 4 + c as nat / 64, c as nat % 64]
  }

  function Ungroup(p: Sextet, q: Sextet, r: Sextet, s: Sextet): (b: Bytes)
    ensures |b| == 3
  {
    [(p as int * 4 + q / 16) as Byte, (q as int % 16 * 16 + r / 4) as Byte, (r as int % 4 * 64 + s) as Byte]
  }

  /** Three bytes to four sextets; one or two bytes at the end to two or three. */
  function Sextets(b: Bytes): seq<Sextet> {
    if |b| == 0 then []
    else if |b| == 1 then Group(b[0], 0, 0)[..2]
    else if |b| == 2 then Group(b[0], b[1], 0)[..3]
    else Group(b[0], b[1], b[2]) + Sextets(b[3..])
  }

  /** Bits left over at the end are dropped, whatever they are. */
  function Octets(q: seq<Sextet>): Bytes
    requires |q| % 4 != 1
  {
    if |q| == 0 then []
    else if |q| == 2 then Ungroup(q[0], q[1], 0, 0)[..1]
    else if |q| == 3 then Ungroup(q[0], q[1], q[2], 0)[..2]
    else Ungroup(q[0], q[1], q[2], q[3]) + Octets(q[4..])
  }

  predicate SpareBitsZero(q: seq<Sextet>) {
    && (|q| % 4 == 2 ==> q[|q| - 1] % 16 == 0)
    && (|q| % 4 == 3 ==> q[|q| - 1] % 4 == 0)
  }

  lemma UngroupGroup(a: Byte, b: Byte, c: Byte)
    ensures var q := Group(a, b, c); Ungroup(q[0], q[1], q[2], q[3]) == [a, b, c]
    ensures b == 0 ==> Group(a, b, c)[1] % 16 == 0
    ensures c == 0 ==> Group(a, b, c)[2] % 4 == 0
    ensures b == 0 && c == 0 ==> Group(a, b, c)[2] == 0
    ensures c == 0 ==> Group(a, b, c)[3] == 0
  {
    Joined(a as nat % 4, b as nat / 16, 16);
    Joined(b as nat % 16, c as nat / 64, 4);
  }

  lemma Joined(high: nat, low: nat, base: nat)
    requires low < base && (base == 4 || base == 16)
    ensures (high * base + low) / base == high && (high * base + low) % base == low
  {
  }

  lemma GroupUngroup(p: Sextet, q: Sextet, r: Sextet, s: Sextet)
    ensures var b := Ungroup(p, q, r, s); Group(b[0], b[1], b[2]) == [p, q, r, s]
    ensures q % 16 == 0 && r == 0 ==> Ungroup(p, q, r, s)[1] == 0
    ensures r % 4 == 0 && s == 0 ==> Ungroup(p, q, r, s)[2] == 0
  {
  }

  lemma LongSextets(b: Bytes)
    requires |b| >= 3
    ensures var g := Group(b[0], b[1], b[2]);
            && Sextets(b) == g + Sextets(b[3..]) && |Sextets(b)| == 4 + |Sextets(b[3..])|
            && (SpareBitsZero(Sextets(b)) <==> SpareBitsZero(Sextets(b[3..])))
  {
    hide Group, SpareBitsZero;
    GroupThen(Group(b[0], b[1], b[2]), Sextets(b[3..]));
  }

  lemma {:induction false} SextetsLength(b: Bytes)
    ensures |Sextets(b)| == (4 * |b| + 2) / 3 && |Sextets(b)| % 4 != 1
  {
    if |b| >= 3 {
      LongSextets(b);
      SextetsLength(b[3..]);
    }
  }

  lemma {:induction false} SextetsSpare(b: Bytes)
    ensures SpareBitsZero(Sextets(b))
  {
    hide Group;
    if |b| == 1 {
      UngroupGroup(b[0], 0, 0);
    } else if |b| == 2 {
      UngroupGroup(b[0], b[1], 0);
    } else if |b| >= 3 {
      hide SpareBitsZero, Sextets;
      LongSextets(b);
      SextetsSpare(b[3..]);
    }
  }

  lemma OctetsOfGroup(g: seq<Sextet>, rest: seq<Sextet>)
    requires |g| == 4 && |rest| % 4 != 1
    ensures Octets(g + rest) == Ungroup(g[0], g[1], g[2], g[3]) + Octets(rest)
  {
    hide Ungroup;
    assert (g + rest)[4..] == rest;
  }

  lemma {:induction false} SextetsInverted(b: Bytes)
    ensures |Sextets(b)| % 4 != 1 && Octets(Sextets(b)) == b
  {
    hide Group, Ungroup;
    SextetsLength(b);
    if |b| == 1 {
      UngroupGroup(b[0], 0, 0);
    } else if |b| == 2 {
      UngroupGroup(b[0], b[1], 0);
    } else if |b| >= 3 {
      hide Sextets, Octets;
      LongSextets(b);
      SextetsInverted(b[3..]);
      var g := Group(b[0], b[1], b[2]);
      UngroupGroup(b[0], b[1], b[2]);
      OctetsOfGroup(g, Sextets(b[3..]));
      assert b == [b[0], b[1], b[2]] + b[3..];
    } else {
      assert b == [];
    }
  }

  lemma GroupThen(g: seq<Sextet>, rest: seq<Sextet>)
    requires |g| == 4
    ensures (g + rest)[4..] == rest && (SpareBitsZero(g + rest) <==> SpareBitsZero(rest))
  {
    if rest != [] {
      assert (g + rest)[|g + rest| - 1] == rest[|rest| - 1];
    }
  }

  lemma {:induction false} OctetsInverted(q: seq<Sextet>)
    requires |q| % 4 != 1 && SpareBitsZero(q)
    ensures Sextets(Octets(q)) == q
  {
    hide Group, Ungroup;
    if |q| == 2 {
      GroupUngroup(q[0], q[1], 0, 0);
    } else if |q| == 3 {
      GroupUngroup(q[0], q[1], q[2], 0);
    } else if |q| >= 4 {
      GroupThen(q[..4], q[4..]);
      assert q == q[..4] + q[4..];
      OctetsInverted(q[4..]);
      GroupUngroup(q[0], q[1], q[2], q[3]);
      assert Octets(q)[3..] == Octets(q[4..]);
    }
  }

  // ----- sextets and letters -----

  function Letter(v: Sextet): char {
    if v < 26 then ('A' as int + v) as char
    else if v < 52 then ('a' as int + v - 26) as char
    else if v < 62 then ('0' as int + v - 52) as char
    else if v == 62 then '+' else '/'
  }

  function ValueOf(c: char): Option<Sextet> {
    if 'A' <= c <= 'Z' then Some(c as int - 'A' as int)
    else if 'a' <= c <= 'z' then Some(c as int - 'a' as int + 26)
    else if '0' <= c <= '9' then Some(c as int - '0' as int + 52)
    else if c == '+' then Some(62) else if c == '/' then Some(63) else None
  }

  function Text(q: seq<Sextet>): (s: string)
    ensures |s| == |q| && forall i :: 0 <= i < |q| ==> s[i] == Letter(q[i])
  {
    seq(|q|, i requires 0 <= i < |q| => Letter(q[i]))
  }

  predicate AllLetters(s: string) {
    forall i :: 0 <= i < |s| ==> ValueOf(s[i]).Some?
  }

  function Values(s: string): (q: seq<Sextet>)
    requires AllLetters(s)
    ensures |q| == |s| && forall i :: 0 <= i < |s| ==> q[i] == ValueOf(s[i]).value
  {
    seq(|s|, i requires 0 <= i < |s| => ValueOf(s[i]).value)
  }

  lemma LetterHasValue(v: Sextet)
    ensures ValueOf(Letter(v)) == Some(v)
  {
  }

  lemma ValueHasLetter(c: char)
    requires ValueOf(c).Some?
    ensures Letter(ValueOf(c).value) == c
  {
  }

  // ----- btoa and atob -----

  function Fill(n: nat): (s: string)
    ensures |s| == n && forall i :: 0 <= i < n ==> s[i] == '='
  {
    seq(n, i => '=')
  }

  function BinaryString(b: Bytes): (s: string)
    ensures |s| == |b| && forall i :: 0 <= i < |b| ==> s[i] == b[i] as int as char
  {
    seq(|b|, i requires 0 <= i < |b| => b[i] as int as char)
  }

  predicate IsBinary(s: string) {
    forall i :: 0 <= i < |s| ==> s[i] as int < 256
  }

  function CharCodes(s: string): (b: Bytes)
    requires IsBinary(s)
    ensures |b| == |s| && forall i :: 0 <= i < |s| ==> b[i] as int == s[i] as int
  {
    seq(|s|, i requires 0 <= i < |s| => s[i] as int as Byte)
  }

  /** btoa, on a binary string: padded to a multiple of four. */
  function Btoa(bin: string): string
    requires IsBinary(bin)
  {
    var t := Text(Sextets(CharCodes(bin)));
    t + Fill((4 - |t| % 4) % 4)
  }

  predicate IsSpace(c: char) {
    c == '\t' || c == '\n' || c == 12 as char || c == '\r' || c == ' '
  }

  function StripSpaces(s: string): string {
    if s == [] then [] else (if IsSpace(s[0]) then [] else [s[0]]) + StripSpaces(s[1..])
  }

  /** At most two trailing '=', and only when the length is a multiple of four. */
  function DropPadding(s: string): string {
    if |s| == 0 || |s| % 4 != 0 || s[|s| - 1] != '=' then s
    else if s[|s| - 2] != '=' then s[..|s| - 1]
    else s[..|s| - 2]
  }

  /** atob; None is the exception it throws. */
  function Atob(s: string): (bin: Option<string>)
    ensures bin.Some? ==> IsBinary(bin.value)
  {
    var t := DropPadding(StripSpaces(s));
    if |t| % 4 == 1 || !AllLetters(t) then None else Some(BinaryString(Octets(Values(t))))
  }

  // ----- the helpers -----

  function Replaced(s: string, from: char, to: char): (r: string)
    ensures |r| == |s| && forall i :: 0 <= i < |s| ==> r[i] == if s[i] == from then to else s[i]
  {
    seq(|s|, i requires 0 <= i < |s| => if s[i] == from then to else s[i])
  }

  /** replace(/=+$/, ""). */
  function Trimmed(s: string): string {
    if s != [] && s[|s| - 1] == '=' then Trimmed(s[..|s| - 1]) else s
  }

  /** The unpadded URL-safe form (RFC 4648, section 5). */
  function UrlLetter(v: Sextet): char {
    if v == 62 then '-' else if v == 63 then '_' else Letter(v)
  }

  function UrlText(q: seq<Sextet>): (s: string)
    ensures |s| == |q| && forall i :: 0 <= i < |s| ==> s[i] == UrlLetter(q[i])
  {
    seq(|q|, i requires 0 <= i < |q| => UrlLetter(q[i]))
  }

  function Encoded(b: Bytes): string {
    UrlText(Sextets(b))
  }

  method BufToB64u(buf: array<Byte>) returns (s: string)
    ensures s == Encoded(buf[..])
  {
    var bin := "";
    for i := 0 to buf.Length
      invariant bin == BinaryString(buf[..i])
    {
      bin := bin + [buf[i] as int as char];
    }
    assert buf[..buf.Length] == buf[..];
    UrlForm(buf[..], bin);
    s := Trimmed(Replaced(Replaced(Btoa(bin), '+', '-'), '/', '_'));
  }

  lemma UrlForm(b: Bytes, bin: string)
    requires bin == BinaryString(b)
    ensures IsBinary(bin) && Trimmed(Replaced(Replaced(Btoa(bin), '+', '-'), '/', '_')) == Encoded(b)
  {
    hide Sextets, Trimmed, Replaced, Text, UrlText, Fill;
    assert CharCodes(bin) == b;
    var q := Sextets(b);
    Replacing(q, (4 - |q| % 4) % 4);
    UrlTextIsUrl(q);
    TrimFill(UrlText(q), (4 - |q| % 4) % 4);
  }

  predicate IsUrlLetter(c: char) {
    'A' <= c <= 'Z' || 'a' <= c <= 'z' || '0' <= c <= '9' || c == '-' || c == '_'
  }

  lemma UrlTextIsUrl(q: seq<Sextet>)
    ensures forall i :: 0 <= i < |q| ==> IsUrlLetter(UrlText(q)[i])
  {
  }

  lemma Replacing(q: seq<Sextet>, n: nat)
    ensures Replaced(Replaced(Text(q) + Fill(n), '+', '-'), '/', '_') == UrlText(q) + Fill(n)
  {
    forall i | 0 <= i < |q| ensures Replaced(Replaced(Text(q) + Fill(n), '+', '-'), '/', '_')[i] == UrlLetter(q[i]) {
      LetterHasValue(q[i]);
    }
  }

  lemma {:induction false} TrimFill(s: string, n: nat)
    requires s == [] || s[|s| - 1] != '='
    ensures Trimmed(s + Fill(n)) == s
  {
    if n == 0 {
      assert s + Fill(0) == s;
    } else {
      assert (s + Fill(n))[..|s| + n - 1] == s + Fill(n - 1);
      TrimFill(s, n - 1);
    }
  }

  function Standard(str: string): (t: string)
    ensures |t| == |str| && forall i :: 0 <= i < |str| ==>
              t[i] == if str[i] == '-' then '+' else if str[i] == '_' then '/' else str[i]
  {
    Replaced(Replaced(str, '-', '+'), '_', '/')
  }

  function PadLength(str: string): (n: nat)
    ensures n <= 3 && (|str| + n) % 4 == 0
  {
    (4 - |str| % 4) % 4
  }

  function Decoded(str: string): Option<Bytes> {
    match Atob(Standard(str + Fill(PadLength(str))))
    case Some(bin) => Some(CharCodes(bin))
    case None => None
  }

  /** ok is false where atob throws. */
  method B64uToBuf(str: string) returns (ok: bool, buf: array<Byte>)
    ensures ok <==> Decoded(str).Some?
    ensures ok ==> buf[..] == Decoded(str).value
  {
    var pad := Fill((4 - |str| % 4) % 4);
    var std := Replaced(Replaced(str + pad, '-', '+'), '_', '/');
    var bin := Atob(std);
    ok := bin.Some?;
    buf := new Byte[if ok then |bin.value| else 0];
    if !ok { return; }
    for i := 0 to |bin.value|
      invariant buf[..i] == CharCodes(bin.value)[..i]
    {
      buf[i] := bin.value[i] as int as Byte;
    }
    assert buf[..] == buf[..|bin.value|];
  }

  // ----- what the decoder accepts, and what it inverts -----

  /** Neither padding nor white space: what travels as base64url. */
  predicate Bare(str: string) {
    forall i :: 0 <= i < |str| ==> str[i] != '=' && !IsSpace(str[i])
  }

  lemma {:induction false} NoSpaces(s: string)
    requires forall i :: 0 <= i < |s| ==> !IsSpace(s[i])
    ensures StripSpaces(s) == s
  {
    if s != [] {
      NoSpaces(s[1..]);
      assert s == [s[0]] + s[1..];
    }
  }

  /** The padding added is exactly what atob takes off again, unless three characters would be needed. */
  lemma PaddingRestored(t: string)
    requires forall i :: 0 <= i < |t| ==> t[i] != '='
    ensures DropPadding(t + Fill(PadLength(t))) == if |t| % 4 == 1 then t + Fill(1) else t
  {
    var n := PadLength(t);
    var s := t + Fill(n);
    assert n == 1 ==> s[..|s| - 1] == t;
    assert n == 2 ==> s[..|s| - 2] == t;
    assert n == 3 ==> s[..|s| - 2] == t + Fill(1);
  }

  lemma BareDecoded(str: string)
    requires Bare(str)
    ensures Decoded(str) ==
              if |str| % 4 == 1 || !AllLetters(Standard(str)) then None else Some(Octets(Values(Standard(str))))
  {
    hide Octets, Values, DropPadding;
    var n := PadLength(str);
    assert Standard(str + Fill(n)) == Standard(str) + Fill(n);
    NoSpaces(Standard(str) + Fill(n));
    PaddingRestored(Standard(str));
    if |str| % 4 == 1 {
      assert ValueOf((Standard(str) + Fill(1))[|str|]).None?;
      assert !AllLetters(Standard(str) + Fill(1));
    }
    if |str| % 4 != 1 && AllLetters(Standard(str)) {
      assert CharCodes(BinaryString(Octets(Values(Standard(str))))) == Octets(Values(Standard(str)));
    }
  }

  /**
   * A bare string decodes exactly when every character is a base64 or base64url letter and the length is
   * not 1 modulo 4.
   */
  lemma Accepts(str: string)
    requires Bare(str)
    ensures Decoded(str).Some? <==>
              |str| % 4 != 1 && forall i :: 0 <= i < |str| ==> ValueOf(str[i]).Some? || str[i] == '-' || str[i] == '_'
  {
    BareDecoded(str);
    hide Standard;
    if AllLetters(Standard(str)) {
      forall i | 0 <= i < |str| ensures ValueOf(str[i]).Some? || str[i] == '-' || str[i] == '_' {
        assert ValueOf(Standard(str)[i]).Some?;
      }
    }
  }

  /**
   * For every byte string: the decoder inverts the encoder, whose output is URL-safe, unpadded and of
   * length ceil(4n / 3).
   */
  lemma RoundTrip(b: Bytes)
    ensures Decoded(Encoded(b)) == Some(b)
    ensures forall i :: 0 <= i < |Encoded(b)| ==> IsUrlLetter(Encoded(b)[i])
    ensures |Encoded(b)| == (4 * |b| + 2) / 3
  {
    hide Sextets, Octets, Decoded, UrlText, Standard;
    var q := Sextets(b);
    SextetsLength(b);
    SextetsInverted(b);
    UrlTextIsUrl(q);
    BareDecoded(Encoded(b));
    StandardOfUrl(q);
  }

  lemma StandardOfUrl(q: seq<Sextet>)
    ensures AllLetters(Standard(UrlText(q))) && Values(Standard(UrlText(q))) == q
  {
    forall i | 0 <= i < |q| ensures ValueOf(Standard(UrlText(q))[i]) == Some(q[i]) {
      LetterHasValue(q[i]);
    }
  }

  /** The strings the encoder produces: URL-safe letters, a possible length, no stray bits at the end. */
  predicate Canonical(str: string) {
    && (forall i :: 0 <= i < |str| ==> IsUrlLetter(str[i]))
    && |str| % 4 != 1
    && AllLetters(Standard(str)) && SpareBitsZero(Values(Standard(str)))
  }

  /**
   * Encoding what was decoded gives the string back exactly when it was canonical; others decode too,
   * but not uniquely.
   */
  lemma ReencodesExactly(str: string)
    ensures Decoded(str).Some? && Encoded(Decoded(str).value) == str <==> Canonical(str)
  {
    hide Decoded, Encoded, Sextets, Octets, Standard, SpareBitsZero;
    if Decoded(str).Some? && Encoded(Decoded(str).value) == str {
      EncodedIsCanonical(Decoded(str).value);
    }
    if Canonical(str) {
      BareDecoded(str);
      OctetsInverted(Values(Standard(str)));
      UrlOfStandard(str);
      EncodedOf(Octets(Values(Standard(str))));
    }
  }

  lemma EncodedOf(b: Bytes)
    ensures Encoded(b) == UrlText(Sextets(b))
  {
  }

  lemma EncodedIsCanonical(b: Bytes)
    ensures Canonical(Encoded(b))
  {
    hide Sextets, UrlText, Standard;
    SextetsLength(b);
    SextetsSpare(b);
    UrlTextIsUrl(Sextets(b));
    StandardOfUrl(Sextets(b));
  }

  lemma UrlOfStandard(str: string)
    requires (forall i :: 0 <= i < |str| ==> IsUrlLetter(str[i])) && AllLetters(Standard(str))
    ensures UrlText(Values(Standard(str))) == str
  {
    forall i | 0 <= i < |str| ensures UrlLetter(Values(Standard(str))[i]) == str[i] {
      ValueHasLetter(Standard(str)[i]);
    }
  }
}
