/**
 * Per-tenant ledger files: the unpadded base64url name a tenant's entries are appended under
 * (section 5 of RFC 4648), the older sanitised name that is still read, and what a read returns.
 */
module TenantFiles {
  import opened Sequences

  type Byte = n: nat | n < 256
  type Sextet = n: nat | n < 64

  // ---------------------------------------------------------------- UTF-8

  function Utf8Char(c: char): (r: seq<Byte>)
    ensures 1 <= |r| <= 4
  {
    var n := c as nat;
    if n < 0x80 then [n]
    else if n < 0x800 then [0xC0 + n / 64, 0x80 + n % 64]
    else if n < 0x1_0000 then [0xE0 + n / 4096, 0x80 + n / 64 % 64, 0x80 + n % 64]
    else [0xF0 + n / 262144, 0x80 + n / 4096 % 64, 0x80 + n / 64 % 64, 0x80 + n % 64]
  }

  function Utf8(s: string): (r: seq<Byte>)
    ensures |r| >= |s|
  {
    if s == "" then [] else Utf8Char(s[0]) + Utf8(s[1..])
  }

  /** The length of the sequence a first byte announces. */
  function Announced(b: Byte): nat {
    if b < 0x80 then 1 else if b < 0xE0 then 2 else if b < 0xF0 then 3 else 4
  }

  /** The code point of the first sequence. */
  function Scalar(b: seq<Byte>): int
    requires b != [] && |b| >= Announced(b[0])
  {
    match Announced(b[0])
    case 1 => Payload(b[0], 0)
    case 2 => Payload(b[0], 0xC0) * 64 + Payload(b[1], 0x80)
    case 3 => Payload(b[0], 0xE0) * 4096 + Payload(b[1], 0x80) * 64 + Payload(b[2], 0x80)
    case _ => Payload(b[0], 0xF0) * 262144 + Payload(b[1], 0x80) * 4096 + Payload(b[2], 0x80) * 64 + Payload(b[3], 0x80)
  }

  function Payload(b: int, mark: int): int { b - mark }

  lemma Digits64(n: nat)
    ensures n == n / 64 * 64 + n % 64
    ensures n / 64 == n / 4096 * 64 + n / 64 % 64 && n / 4096 == n / 262144 * 64 + n / 4096 % 64
  {
  }

  lemma Utf8CharIsRead(c: char, more: seq<Byte>)
    ensures var b := Utf8Char(c) + more;
            Announced(b[0]) == |Utf8Char(c)| && Scalar(b) == c as int
  {
    var u, b := Utf8Char(c), Utf8Char(c) + more;
    Digits64(c as nat);
    forall i | 0 <= i < |u| ensures b[i] == u[i] {}
  }

  lemma {:induction false} Utf8IsInjective(s: string, t: string)
    requires Utf8(s) == Utf8(t)
    ensures s == t
  {
    if s != "" && t != "" {
      var ms, mt := Utf8(s[1..]), Utf8(t[1..]);
      Utf8CharIsRead(s[0], ms);
      Utf8CharIsRead(t[0], mt);
      assert Utf8(s) == Utf8Char(s[0]) + ms && Utf8(t) == Utf8Char(t[0]) + mt;
      assert s[0] == t[0];
      assert ms == Utf8(s)[|Utf8Char(s[0])|..] && mt == Utf8(t)[|Utf8Char(t[0])|..];
      Utf8IsInjective(s[1..], t[1..]);
      assert s == [s[0]] + s[1..] && t == [t[0]] + t[1..];
    }
  }

  // ---------------------------------------------------------------- base64url

  function Digit(n: Sextet): char {
    if n < 26 then 'A' + (n as char)
    else if n < 52 then 'a' + ((n - 26) as char)
    else if n < 62 then '0' + ((n - 52) as char)
    else if n == 62 then '-' else '_'
  }

  function Value(c: char): Sextet {
    if 'A' <= c <= 'Z' then (c - 'A') as nat
    else if 'a' <= c <= 'z' then (c - 'a') as nat + 26
    else if '0' <= c <= '9' then (c - '0') as nat + 52
    else if c == '-' then 62 else 63
  }

  /** Three bytes become four digits; a last one or two become two or three, without padding. */
  function Base64Url(b: seq<Byte>): string {
    if b == [] then ""
    else if |b| == 1 then [Digit(b[0] / 4), Digit(b[0] % 4 * 16)]
    else if |b| == 2 then [Digit(b[0] / 4), Digit(b[0] % 4 * 16 + b[1] / 16), Digit(b[1] % 16 * 4)]
    else [Digit(b[0] / 4), Digit(b[0] % 4 * 16 + b[1] / 16), Digit(b[1] % 16 * 4 + b[2] / 64), Digit(b[2] % 64)]
         + Base64Url(b[3..])
  }

  function Decode(s: string): seq<Byte> {
    if |s| < 2 then []
    else if |s| == 2 then [Value(s[0]) * 4 + Value(s[1]) / 16]
    else if |s| == 3 then [Value(s[0]) * 4 + Value(s[1]) / 16, Value(s[1]) % 16 * 16 + Value(s[2]) / 4]
    else [Value(s[0]) * 4 + Value(s[1]) / 16, Value(s[1]) % 16 * 16 + Value(s[2]) / 4, Value(s[2]) % 4 * 64 + Value(s[3])]
         + Decode(s[4..])
  }

  lemma ValueOfDigit(n: Sextet)
    ensures Value(Digit(n)) == n
  {
  }

  /** The bytes are read back from the sextets they were split into. */
  lemma SextetsGiveBytes(x: Byte, y: Byte, z: Byte)
    ensures x / 4 * 4 + (x % 4 * 16 + y / 16) / 16 == x && x / 4 * 4 + x % 4 * 16 / 16 == x
    ensures (x % 4 * 16 + y / 16) % 16 * 16 + (y % 16 * 4 + z / 64) / 4 == y && (x % 4 * 16 + y / 16) % 16 * 16 + y % 16 * 4 / 4 == y
    ensures (y % 16 * 4 + z / 64) % 4 * 64 + z % 64 == z
  {
  }

  lemma DecodeShort(b: seq<Byte>)
    requires |b| < 3
    ensures Decode(Base64Url(b)) == b && 3 * |Base64Url(b)| >= 4 * |b|
  {
    if |b| == 1 {
      ValueOfDigit(b[0] / 4); ValueOfDigit(b[0] % 4 * 16);
      SextetsGiveBytes(b[0], 0, 0);
    } else if |b| == 2 {
      ValueOfDigit(b[0] / 4); ValueOfDigit(b[0] % 4 * 16 + b[1] / 16); ValueOfDigit(b[1] % 16 * 4);
      SextetsGiveBytes(b[0], b[1], 0);
    }
  }

  lemma {:induction false} DecodeInvertsBase64Url(b: seq<Byte>)
    ensures Decode(Base64Url(b)) == b
    ensures 3 * |Base64Url(b)| >= 4 * |b|
  {
    if |b| < 3 {
      DecodeShort(b);
    } else {
      var more := Base64Url(b[3..]);
      DecodeInvertsBase64Url(b[3..]);
      DecodeThree(b[0], b[1], b[2], more);
      assert Base64Url(b) == [Digit(b[0] / 4), Digit(b[0] % 4 * 16 + b[1] / 16), Digit(b[1] % 16 * 4 + b[2] / 64), Digit(b[2] % 64)] + more;
      assert [b[0], b[1], b[2]] + b[3..] == b;
    }
  }

  lemma DecodeThree(x: Byte, y: Byte, z: Byte, more: string)
    ensures Decode([Digit(x / 4), Digit(x % 4 * 16 + y / 16), Digit(y % 16 * 4 + z / 64), Digit(z % 64)] + more) == [x, y, z] + Decode(more)
  {
    var four := [Digit(x / 4), Digit(x % 4 * 16 + y / 16), Digit(y % 16 * 4 + z / 64), Digit(z % 64)];
    ValueOfDigit(x / 4); ValueOfDigit(x % 4 * 16 + y / 16); ValueOfDigit(y % 16 * 4 + z / 64); ValueOfDigit(z % 64);
    SextetsGiveBytes(x, y, z);
    assert (four + more)[4..] == more && (four + more)[..4] == four;
  }

  // ---------------------------------------------------------------- the names

  function EncodedName(tenantId: string): string {
    "tenant-" + Base64Url(Utf8(tenantId))
  }

  predicate Portable(c: char) {
    'a' <= c <= 'z' || 'A' <= c <= 'Z' || '0' <= c <= '9' || c == '.' || c == '_' || c == '-'
  }

  /** `replace(/[^a-z0-9._-]/gi, '_')` works on UTF-16 units: a character beyond the first plane is two. */
  function LegacyName(tenantId: string): (r: string)
    ensures |r| <= 2 * |tenantId|
  {
    if tenantId == "" then ""
    else (if Portable(tenantId[0]) then [tenantId[0]] else if tenantId[0] as int < 0x1_0000 then "_" else "__")
         + LegacyName(tenantId[1..])
  }

  lemma EncodedNamesDiffer(t: string, u: string)
    requires t != u
    ensures EncodedName(t) != EncodedName(u)
  {
    if EncodedName(t) == EncodedName(u) {
      assert EncodedName(t)[7..] == Base64Url(Utf8(t)) && EncodedName(u)[7..] == Base64Url(Utf8(u));
      DecodeInvertsBase64Url(Utf8(t));
      DecodeInvertsBase64Url(Utf8(u));
      Utf8IsInjective(t, u);
    }
  }

  lemma {:induction false} LegacyIsNoLonger(t: string)
    ensures |LegacyName(t)| <= |Utf8(t)|
  {
    if t != "" { LegacyIsNoLonger(t[1..]); }
  }

  /** By length alone: a tenant's own two files are never the same file. */
  lemma OwnNamesDiffer(t: string)
    ensures LegacyName(t) != EncodedName(t) && |LegacyName(t)| < |EncodedName(t)|
  {
    LegacyIsNoLonger(t);
    DecodeInvertsBase64Url(Utf8(t));
  }

  // ---------------------------------------------------------------- the ledgers

  datatype Line<T> = Line(tenantId: string, entry: T)

  type Files<T> = map<string, seq<Line<T>>>

  datatype Write<T> = Write(tenantId: string, entry: T)

  /** A missing file reads as empty. */
  function Lines<T>(files: Files<T>, name: string): seq<Line<T>> {
    if name in files then files[name] else []
  }

  function OfTenant<T>(lines: seq<Line<T>>, tenantId: string): seq<T> {
    if lines == [] then []
    else (if lines[0].tenantId == tenantId then [lines[0].entry] else []) + OfTenant(lines[1..], tenantId)
  }

  function ReadLedger<T>(files: Files<T>, tenantId: string): seq<T> {
    OfTenant(Lines(files, LegacyName(tenantId)) + Lines(files, EncodedName(tenantId)), tenantId)
  }

  function Append<T>(files: Files<T>, tenantId: string, entry: T): Files<T> {
    files[EncodedName(tenantId) := Lines(files, EncodedName(tenantId)) + [Line(tenantId, entry)]]
  }

  function AppendAll<T>(files: Files<T>, writes: seq<Write<T>>): Files<T>
    decreases writes
  {
    if writes == [] then files else AppendAll(Append(files, writes[0].tenantId, writes[0].entry), writes[1..])
  }

  function WrittenBy<T>(writes: seq<Write<T>>, tenantId: string): seq<T>
    decreases writes
  {
    if writes == [] then []
    else (if writes[0].tenantId == tenantId then [writes[0].entry] else []) + WrittenBy(writes[1..], tenantId)
  }

  lemma {:induction false} OfTenantConcat<T>(a: seq<Line<T>>, b: seq<Line<T>>, tenantId: string)
    ensures OfTenant(a + b, tenantId) == OfTenant(a, tenantId) + OfTenant(b, tenantId)
  {
    if a == [] {
      assert a + b == b;
    } else {
      assert (a + b)[0] == a[0] && (a + b)[1..] == a[1..] + b;
      OfTenantConcat(a[1..], b, tenantId);
      Associative(if a[0].tenantId == tenantId then [a[0].entry] else [], OfTenant(a[1..], tenantId), OfTenant(b, tenantId));
    }
  }

  lemma {:induction false} OneMoreLine<T>(lines: seq<Line<T>>, line: Line<T>, tenantId: string)
    ensures OfTenant(lines + [line], tenantId) == OfTenant(lines, tenantId) + if line.tenantId == tenantId then [line.entry] else []
  {
    OfTenantConcat(lines, [line], tenantId);
    assert OfTenant([line], tenantId) == (if line.tenantId == tenantId then [line.entry] else []) + OfTenant([], tenantId);
  }

  lemma ReadLedgerIs<T>(files: Files<T>, t: string)
    ensures ReadLedger(files, t) == OfTenant(Lines(files, LegacyName(t)), t) + OfTenant(Lines(files, EncodedName(t)), t)
  {
    OfTenantConcat(Lines(files, LegacyName(t)), Lines(files, EncodedName(t)), t);
  }

  /** What an append does to the part of a tenant's ledger that is in one file. */
  lemma AppendToFile<T>(files: Files<T>, u: string, entry: T, t: string, name: string)
    ensures OfTenant(Lines(Append(files, u, entry), name), t) ==
            OfTenant(Lines(files, name), t) + if name == EncodedName(u) && u == t then [entry] else []
  {
    OneMoreLine(Lines(files, EncodedName(u)), Line(u, entry), t);
    Empty(OfTenant(Lines(files, name), t));
  }

  /**
   * One append adds one entry to its own tenant's ledger and changes nobody else's, even when
   * another tenant's old name is the file written to.
   */
  lemma AppendIsRead<T>(files: Files<T>, u: string, entry: T, t: string)
    ensures ReadLedger(Append(files, u, entry), t) == ReadLedger(files, t) + if u == t then [entry] else []
  {
    var files' := Append(files, u, entry);
    ReadLedgerIs(files, t);
    ReadLedgerIs(files', t);
    AppendToFile(files, u, entry, t, LegacyName(t));
    AppendToFile(files, u, entry, t, EncodedName(t));
    OwnNamesDiffer(t);
    var legacy, own := OfTenant(Lines(files, LegacyName(t)), t), OfTenant(Lines(files, EncodedName(t)), t);
    Empty(legacy);
    Empty(own);
    Empty(ReadLedger(files, t));
    Associative(legacy, own, [entry]);
  }

  /** After any appends by any tenants a ledger is what it was, then the tenant's appends in order. */
  lemma {:induction false} LedgersAreExact<T>(files: Files<T>, writes: seq<Write<T>>, t: string)
    ensures ReadLedger(AppendAll(files, writes), t) == ReadLedger(files, t) + WrittenBy(writes, t)
    decreases writes
  {
    if writes == [] {
      Empty(ReadLedger(files, t));
    } else {
      var w := writes[0];
      AppendIsRead(files, w.tenantId, w.entry, t);
      LedgersAreExact(Append(files, w.tenantId, w.entry), writes[1..], t);
      Associative(ReadLedger(files, t), if w.tenantId == t then [w.entry] else [], WrittenBy(writes[1..], t));
    }
  }
}
