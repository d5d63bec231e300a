/**
 `OverlaySubnetConfig` (`models/overlay_subnet.py`): a 32-bit address block divided into one
 block for the host and one per runner, its text form, and the addresses it hands out.
 Addresses are CIDR blocks in the sense of section 3.1 of RFC 4632.
 */
module Overlay {
  import opened Wrappers
  import opened Text

  const ADDRESSES := 0x1_0000_0000

  function Pow2(n: nat): (r: nat)
    ensures r > 0
  {
    if n == 0 then 1 else 2 * Pow2(n - 1)
  }

  /** `base` is the network address; `totalPrefix` is also the prefix length of the network. */
  datatype Config = Config(base: nat, totalPrefix: nat, nodeBits: nat, subnetBits: nat)

  datatype Error =
    | WrongParts
    | NotInteger
    | WrongSum
    | BadTotalPrefix
    | BadNodeBits
    | BadSubnetBits
    | BadAddress
    | BadRunnerId
    | AddressOutOfRange

  // ---------------------------------------------------------------------------
  // Addresses as text

  function Join(a: string, b: string, c: string, d: string, sep: char): string {
    a + [sep] + b + [sep] + c + [sep] + d
  }

  function Dotted(a: nat): string
    requires a < ADDRESSES
  {
    Join(Digits(a / 0x100_0000), Digits(a / 0x1_0000 % 0x100), Digits(a / 0x100 % 0x100), Digits(a % 0x100), '.')
  }

  /** One octet: up to three digits, no leading zero, at most 255. */
  function ParseOctet(s: string): Option<nat> {
    if Canonical(s) && |s| <= 3 && Value(s) <= 255 then Some(Value(s)) else None
  }

  function ParseDotted(s: string): (r: Option<nat>)
    ensures r.Some? ==> r.value < ADDRESSES
  {
    var parts := Split(s, '.');
    if |parts| != 4 then None
    else
      match (ParseOctet(parts[0]), ParseOctet(parts[1]), ParseOctet(parts[2]), ParseOctet(parts[3]))
      case (Some(a), Some(b), Some(c), Some(d)) => Some(((a * 0x100 + b) * 0x100 + c) * 0x100 + d)
      case _ => None
  }

  /** `ipaddress.IPv4Address(n)` as text; it refuses what is no 32-bit number. */
  function AddressText(n: int): Result<string, Error> {
    if 0 <= n < ADDRESSES then Ok(Dotted(n)) else Err(AddressOutOfRange)
  }

  // ---------------------------------------------------------------------------
  // parse, from_simple_cidr, __str__

  /** `IPv4Network(..., strict=False)`: host bits are cleared. */
  function NetworkAddress(a: nat, prefix: nat): nat
    requires prefix <= 32
  {
    a / Pow2(32 - prefix) * Pow2(32 - prefix)
  }

  function Parse(text: string): Result<Config, Error> {
    var parts := Split(Strip(text), '/');
    if |parts| != 4 then Err(WrongParts)
    else
      match (ParseInt(parts[1]), ParseInt(parts[2]), ParseInt(parts[3]))
      case (Some(total), Some(node), Some(subnet)) =>
        if total + node + subnet != 32 then Err(WrongSum)
        else if total < 1 || total > 24 then Err(BadTotalPrefix)
        else if node < 1 || node > 16 then Err(BadNodeBits)
        else if subnet < 8 then Err(BadSubnetBits)
        else
          (match ParseDotted(parts[0])
           case None => Err(BadAddress)
           case Some(a) => Ok(Config(NetworkAddress(a, total), total, node, subnet)))
      case _ => Err(NotInteger)
  }

  function Print(c: Config): string
    requires c.base < ADDRESSES
  {
    Join(Dotted(c.base), Digits(c.totalPrefix), Digits(c.nodeBits), Digits(c.subnetBits), '/')
  }

  /** A flat configuration: the network of an address and a prefix length, not divided. */
  function FromSimpleCidr(a: nat, prefix: nat): Config
    requires a < ADDRESSES && prefix <= 32
  {
    Config(NetworkAddress(a, prefix), prefix, 0, 32 - prefix)
  }

  // ---------------------------------------------------------------------------
  // Queries

  predicate IsFlat(c: Config) {
    c.nodeBits == 0
  }

  function MaxRunners(c: Config): int {
    if IsFlat(c) then 63 else Pow2(c.nodeBits) - 1
  }

  function IpsPerRunner(c: Config): int {
    Pow2(c.subnetBits) - 4
  }

  predicate ValidRunnerId(c: Config, id: int) {
    1 <= id <= MaxRunners(c)
  }

  /** `base + (id << subnet_bits)` */
  function BlockStart(c: Config, id: int): int {
    c.base + id * Pow2(c.subnetBits)
  }

  function GetHostIp(c: Config): Result<string, Error> {
    if IsFlat(c) then AddressText(c.base + Pow2(c.subnetBits) - 2) else AddressText(c.base + 1)
  }

  function GetRunnerSubnet(c: Config, id: int): Result<string, Error> {
    if !ValidRunnerId(c, id) then Err(BadRunnerId)
    else
      match AddressText(if IsFlat(c) then c.base else BlockStart(c, id))
      case Err(e) => Err(e)
      case Ok(s) => Ok(s + "/" + IntText(if IsFlat(c) then c.totalPrefix else 32 - c.subnetBits))
  }

  function GetRunnerGateway(c: Config, id: int): Result<string, Error> {
    if !ValidRunnerId(c, id) then Err(BadRunnerId)
    else if IsFlat(c) then AddressText(c.base + 1)
    else AddressText(BlockStart(c, id) + 1)
  }

  function GetHostIpOnRunnerSubnet(c: Config, id: int): Result<string, Error> {
    if !ValidRunnerId(c, id) then Err(BadRunnerId)
    else if IsFlat(c) then AddressText(c.base + Pow2(c.subnetBits) - 2)
    else AddressText(BlockStart(c, id) + 254)
  }

  /** First and last address of the container range, before they are turned into text. */
  function ContainerBounds(c: Config, id: int): (int, int) {
    if IsFlat(c) then (c.base + 2, c.base + Pow2(c.subnetBits) - 3)
    else
      var last := BlockStart(c, id) + Pow2(c.subnetBits) - 2;
      (BlockStart(c, id) + 2, if last % 0x100 == 254 then last - 1 else last)
  }

  function GetContainerIpRange(c: Config, id: int): Result<(string, string), Error> {
    if !ValidRunnerId(c, id) then Err(BadRunnerId)
    else
      var (first, last) := ContainerBounds(c, id);
      match (AddressText(first), AddressText(last))
      case (Ok(f), Ok(l)) => Ok((f, l))
      case (Err(e), _) => Err(e)
      case (_, Err(e)) => Err(e)
  }

  // ---------------------------------------------------------------------------
  // Arithmetic

  lemma TimesAssociates(a: nat, b: nat)
    ensures 2 * (a * b) == (2 * a) * b
  {
  }

  lemma {:induction false} Pow2Add(m: nat, n: nat)
    ensures Pow2(m + n) == Pow2(m) * Pow2(n)
  {
    if m > 0 {
      Pow2Add(m - 1, n);
      var a, b := Pow2(m - 1), Pow2(n);
      assert Pow2(m + n) == 2 * Pow2(m - 1 + n) == 2 * (a * b);
      TimesAssociates(a, b);
    }
  }

  lemma Pow2Values()
    ensures Pow2(8) == 256 && Pow2(16) == 0x1_0000 && Pow2(32) == ADDRESSES
  {
    assert Pow2(4) == 16;
    Pow2Add(4, 4);
    Pow2Add(8, 8);
    Pow2Add(16, 16);
  }

  lemma {:induction false} Pow2Monotone(m: nat, n: nat)
    requires m <= n
    ensures Pow2(m) <= Pow2(n)
    decreases n
  {
    if m < n {
      Pow2Monotone(m, n - 1);
    }
  }

  lemma QuotientRemainder(x: int, size: nat)
    requires size > 0
    ensures x == x / size * size + x % size && 0 <= x % size < size
  {
  }

  lemma TimesMonotone(a: int, b: int, size: nat)
    requires a <= b
    ensures a * size <= b * size
  {
  }

  lemma TimesNext(a: int, size: nat)
    ensures (a + 1) * size == a * size + size
  {
  }

  lemma MultipleMod(a: int, size: nat)
    requires size > 0
    ensures a * size % size == 0 && a * size / size == a
  {
    BlockIndex(a * size, size, a);
    QuotientRemainder(a * size, size);
  }

  /** Dividing by the block size tells which block an offset is in. */
  lemma BlockIndex(x: int, size: nat, id: int)
    requires size > 0
    ensures id * size <= x < id * size + size <==> x / size == id
  {
    var q := x / size;
    QuotientRemainder(x, size);
    if q < id {
      TimesMonotone(q + 1, id, size);
      TimesNext(q, size);
    }
    if q > id {
      TimesMonotone(id + 1, q, size);
      TimesNext(id, size);
    }
  }

  lemma IndexBound(x: nat, size: nat, count: nat)
    requires size > 0 && x < count * size
    ensures 0 <= x / size < count
  {
    QuotientRemainder(x, size);
    if x / size >= count {
      TimesMonotone(count, x / size, size);
    }
  }

  /** A multiple of `size` below `count` blocks leaves room for a whole block. */
  lemma MultipleFits(q: nat, size: nat, count: nat)
    requires q * size < count * size
    ensures q < count && q * size + size <= count * size
  {
    if q >= count {
      TimesMonotone(count, q, size);
    }
    TimesMonotone(q + 1, count, size);
    TimesNext(q, size);
  }

  // ---------------------------------------------------------------------------
  // What parse accepts

  predicate Hierarchical(c: Config) {
    && 1 <= c.totalPrefix <= 24 && 1 <= c.nodeBits <= 16 && c.subnetBits >= 8
    && c.totalPrefix + c.nodeBits + c.subnetBits == 32
    && c.base < ADDRESSES && c.base % Pow2(32 - c.totalPrefix) == 0
  }

  lemma NetworkAddressFits(a: nat, prefix: nat)
    requires a < ADDRESSES && prefix <= 32
    ensures NetworkAddress(a, prefix) <= a
    ensures NetworkAddress(a, prefix) % Pow2(32 - prefix) == 0
    ensures NetworkAddress(NetworkAddress(a, prefix), prefix) == NetworkAddress(a, prefix)
  {
    var size := Pow2(32 - prefix);
    QuotientRemainder(a, size);
    MultipleMod(a / size, size);
  }

  lemma ParsedIsHierarchical(text: string)
    ensures Parse(text).Ok? ==> Hierarchical(Parse(text).value)
  {
    if Parse(text).Ok? {
      var parts := Split(Strip(text), '/');
      NetworkAddressFits(ParseDotted(parts[0]).value, ParseInt(parts[1]).value);
    }
  }

  // ---------------------------------------------------------------------------
  // Printing and parsing

  /** No part of a printed configuration contains a separator, and it is not stripped. */
  predicate Plain(s: string) {
    s != [] && forall c <- s :: IsDigit(c) || c == '.'
  }

  lemma OctetRoundTrip(n: nat)
    requires n < 256
    ensures ParseOctet(Digits(n)) == Some(n) && '.' !in Digits(n) && Plain(Digits(n))
  {
    DigitsRoundTrip(n);
    if n >= 10 {
      assert Digits(n) == Digits(n / 10) + [DigitChar(n % 10)];
      if n >= 100 {
        assert Digits(n / 10) == Digits(n / 100) + [DigitChar(n / 10 % 10)];
      }
    }
  }

  lemma SplitFour(a: string, b: string, c: string, d: string, sep: char)
    requires sep !in a && sep !in b && sep !in c && sep !in d
    ensures Split(Join(a, b, c, d, sep), sep) == [a, b, c, d]
  {
    var cd := c + [sep] + d;
    var bcd := b + [sep] + cd;
    assert Join(a, b, c, d, sep) == a + [sep] + bcd;
    SplitFirst(a, sep, bcd);
    SplitFirst(b, sep, cd);
    SplitFirst(c, sep, d);
    SplitNone(d, sep);
  }

  lemma OctetsOf(n: nat)
    requires n < ADDRESSES
    ensures n / 0x100_0000 < 256
    ensures ((n / 0x100_0000 * 0x100 + n / 0x1_0000 % 0x100) * 0x100 + n / 0x100 % 0x100) * 0x100 + n % 0x100 == n
  {
    assert n / 0x100 == n / 0x1_0000 * 0x100 + n / 0x100 % 0x100;
    assert n / 0x1_0000 == n / 0x100_0000 * 0x100 + n / 0x1_0000 % 0x100;
  }

  lemma JoinIsPlain(a: string, b: string, c: string, d: string)
    requires Plain(a) && Plain(b) && Plain(c) && Plain(d)
    ensures Plain(Join(a, b, c, d, '.'))
  {
  }

  lemma JoinedOctets(a: string, b: string, c: string, d: string)
    requires ParseOctet(a).Some? && ParseOctet(b).Some? && ParseOctet(c).Some? && ParseOctet(d).Some?
    requires '.' !in a && '.' !in b && '.' !in c && '.' !in d
    ensures ParseDotted(Join(a, b, c, d, '.'))
            == Some(((ParseOctet(a).value * 0x100 + ParseOctet(b).value) * 0x100 + ParseOctet(c).value) * 0x100
                    + ParseOctet(d).value)
  {
    SplitFour(a, b, c, d, '.');
  }

  lemma DottedRoundTrip(n: nat)
    requires n < ADDRESSES
    ensures ParseDotted(Dotted(n)) == Some(n) && Plain(Dotted(n))
  {
    var a, b, c, d := n / 0x100_0000, n / 0x1_0000 % 0x100, n / 0x100 % 0x100, n % 0x100;
    assert a < 256 && ((a * 0x100 + b) * 0x100 + c) * 0x100 + d == n by { OctetsOf(n); }
    OctetRoundTrip(a);
    OctetRoundTrip(b);
    OctetRoundTrip(c);
    OctetRoundTrip(d);
    JoinedOctets(Digits(a), Digits(b), Digits(c), Digits(d));
    JoinIsPlain(Digits(a), Digits(b), Digits(c), Digits(d));
  }

  /** How the parser takes a printed configuration apart, hierarchical or flat. */
  lemma PrintedParts(c: Config)
    requires c.base < ADDRESSES
    ensures Strip(Print(c)) == Print(c)
    ensures Split(Print(c), '/')
            == [Dotted(c.base), Digits(c.totalPrefix), Digits(c.nodeBits), Digits(c.subnetBits)]
    ensures ParseDotted(Dotted(c.base)) == Some(c.base)
    ensures ParseInt(Digits(c.totalPrefix)) == Some(c.totalPrefix)
    ensures ParseInt(Digits(c.nodeBits)) == Some(c.nodeBits)
    ensures ParseInt(Digits(c.subnetBits)) == Some(c.subnetBits)
  {
    var a, t, n, s := Dotted(c.base), Digits(c.totalPrefix), Digits(c.nodeBits), Digits(c.subnetBits);
    DottedRoundTrip(c.base);
    IntRoundTrip(c.totalPrefix);
    IntRoundTrip(c.nodeBits);
    IntRoundTrip(c.subnetBits);
    assert IsDigit(a[0]) || a[0] == '.' by { assert a[0] in a; }
    assert IsDigit(s[|s| - 1]) by { assert s[|s| - 1] in s; }
    NotStripped(Print(c));
    SplitFour(a, t, n, s, '/');
  }

  /** Printing a parsed configuration and parsing it again changes nothing. */
  lemma PrintParseRoundTrip(c: Config)
    requires Hierarchical(c)
    ensures Parse(Print(c)) == Ok(c)
  {
    PrintedParts(c);
    AlignedIsNetwork(c.base, c.totalPrefix);
  }

  lemma AlignedIsNetwork(a: nat, prefix: nat)
    requires prefix <= 32 && a % Pow2(32 - prefix) == 0
    ensures NetworkAddress(a, prefix) == a
  {
    QuotientRemainder(a, Pow2(32 - prefix));
  }

  /**
   Any accepted text - with spaces, leading zeros in the bit counts, host bits - has one printed
   form, which is accepted, means the same configuration and prints as itself.
   */
  lemma PrintedFormIsCanonical(text: string)
    requires Parse(text).Ok?
    ensures Hierarchical(Parse(text).value)
    ensures var printed := Print(Parse(text).value);
            Parse(printed) == Parse(text) && Print(Parse(printed).value) == printed
  {
    ParsedIsHierarchical(text);
    PrintParseRoundTrip(Parse(text).value);
  }

  lemma OctetsBack(a: nat, b: nat, c: nat, d: nat)
    requires a < 256 && b < 256 && c < 256 && d < 256
    ensures var n := ((a * 0x100 + b) * 0x100 + c) * 0x100 + d;
            n / 0x100_0000 == a && n / 0x1_0000 % 0x100 == b && n / 0x100 % 0x100 == c && n % 0x100 == d
  {
    var n := ((a * 0x100 + b) * 0x100 + c) * 0x100 + d;
    assert n / 0x100 == (a * 0x100 + b) * 0x100 + c;
    assert n / 0x1_0000 == a * 0x100 + b;
  }

  lemma JoinOfFour(s: string, sep: char)
    requires |Split(s, sep)| == 4
    ensures var p := Split(s, sep); Join(p[0], p[1], p[2], p[3], sep) == s
  {
    var p := Split(s, sep);
    JoinUndoesSplit(s, sep);
    assert p == [p[0], p[1], p[2], p[3]];
    assert JoinAll(p[3..], sep) == p[3];
    assert JoinAll(p[2..], sep) == p[2] + [sep] + p[3];
    assert JoinAll(p[1..], sep) == p[1] + [sep] + (p[2] + [sep] + p[3]);
  }

  /** An address has only one text. */
  lemma DottedOfParsed(s: string)
    requires ParseDotted(s).Some?
    ensures Dotted(ParseDotted(s).value) == s
  {
    var p := Split(s, '.');
    CanonicalRoundTrip(p[0]);
    CanonicalRoundTrip(p[1]);
    CanonicalRoundTrip(p[2]);
    CanonicalRoundTrip(p[3]);
    OctetsBack(Value(p[0]), Value(p[1]), Value(p[2]), Value(p[3]));
    JoinOfFour(s, '.');
  }

  /** The bit counts have no leading zeros. */
  predicate PlainCounts(parts: seq<string>) {
    |parts| == 4 && Canonical(parts[1]) && Canonical(parts[2]) && Canonical(parts[3])
  }

  /** The address has no bits beyond the prefix. */
  predicate NoHostBits(parts: seq<string>) {
    && |parts| == 4 && ParseDotted(parts[0]).Some?
    && ParseInt(parts[1]).Some? && 0 <= ParseInt(parts[1]).value <= 32
    && ParseDotted(parts[0]).value % Pow2(32 - ParseInt(parts[1]).value) == 0
  }

  lemma CanonicalCount(s: string, n: nat)
    requires ParseInt(s) == Some(n)
    ensures Canonical(s) ==> Digits(n) == s
  {
    if Canonical(s) {
      assert IsDigit(s[0]);
      CanonicalRoundTrip(s);
    }
  }

  /** What acceptance says about the parts. */
  lemma PartsOfParsed(text: string, c: Config)
    requires Parse(text) == Ok(c)
    ensures Hierarchical(c)
    ensures var p := Split(Strip(text), '/');
            && |p| == 4 && ParseDotted(p[0]).Some? && c.base == NetworkAddress(ParseDotted(p[0]).value, c.totalPrefix)
            && ParseInt(p[1]) == Some(c.totalPrefix) && ParseInt(p[2]) == Some(c.nodeBits)
            && ParseInt(p[3]) == Some(c.subnetBits)
  {
    ParsedIsHierarchical(text);
  }

  lemma CanonicalPrintsAsItself(text: string, c: Config)
    requires Parse(text) == Ok(c) && c.base < ADDRESSES && Strip(text) == text
    requires PlainCounts(Split(text, '/')) && NoHostBits(Split(text, '/'))
    ensures Print(c) == text
  {
    var p := Split(text, '/');
    assert ParseInt(p[1]) == Some(c.totalPrefix) && ParseInt(p[2]) == Some(c.nodeBits)
           && ParseInt(p[3]) == Some(c.subnetBits)
           && Dotted(c.base) == p[0] by {
      PartsOfParsed(text, c);
      AlignedIsNetwork(ParseDotted(p[0]).value, c.totalPrefix);
      DottedOfParsed(p[0]);
    }
    CanonicalCount(p[1], c.totalPrefix);
    CanonicalCount(p[2], c.nodeBits);
    CanonicalCount(p[3], c.subnetBits);
    JoinOfFour(text, '/');
  }

  lemma PrintedIsPlain(c: Config)
    requires Hierarchical(c)
    ensures var text := Print(c); Strip(text) == text && PlainCounts(Split(text, '/')) && NoHostBits(Split(text, '/'))
  {
    PrintedParts(c);
    DigitsRoundTrip(c.totalPrefix);
    DigitsRoundTrip(c.nodeBits);
    DigitsRoundTrip(c.subnetBits);
  }

  /**
   An accepted text is its own printed form exactly when nothing surrounds it, its counts have
   no leading zeros and its address has no host bits.
   */
  lemma PrintsAsItselfIff(text: string, c: Config)
    requires Parse(text) == Ok(c)
    ensures c.base < ADDRESSES
    ensures Print(c) == text <==> Strip(text) == text && PlainCounts(Split(text, '/')) && NoHostBits(Split(text, '/'))
  {
    assert Hierarchical(c) by { PartsOfParsed(text, c); }
    if Print(c) == text {
      PrintedIsPlain(c);
    }
    if Strip(text) == text && PlainCounts(Split(text, '/')) && NoHostBits(Split(text, '/')) {
      CanonicalPrintsAsItself(text, c);
    }
  }

  // ---------------------------------------------------------------------------
  // Which texts are accepted

  /** An address is spelled by its four octets, the highest first. */
  lemma DottedSpells(a: nat, b: nat, c: nat, d: nat)
    requires a < 256 && b < 256 && c < 256 && d < 256
    ensures ((a * 256 + b) * 256 + c) * 256 + d < ADDRESSES
    ensures Dotted(((a * 256 + b) * 256 + c) * 256 + d) == Digits(a) + "." + Digits(b) + "." + Digits(c) + "." + Digits(d)
  {
    OctetsBack(a, b, c, d);
  }

  /** An address and three counts in digits, slashes between, white space around; the counts in bounds. */
  ghost predicate Spells(text: string, lead: string, a: nat, total: string, node: string, subnet: string, trail: string) {
    && a < ADDRESSES && AllSpace(lead) && AllSpace(trail)
    && total != [] && AllDigits(total) && node != [] && AllDigits(node) && subnet != [] && AllDigits(subnet)
    && text == lead + (Dotted(a) + "/" + total + "/" + node + "/" + subnet) + trail
    && 1 <= Value(total) <= 24 && 1 <= Value(node) <= 16 && Value(subnet) >= 8
    && Value(total) + Value(node) + Value(subnet) == 32
  }

  lemma DigitsAreInt(s: string)
    requires s != [] && AllDigits(s)
    ensures ParseInt(s) == Some(Value(s)) && '/' !in s && !IsSpace(s[0]) && !IsSpace(s[|s| - 1])
  {
    assert IsDigit(s[0]) && IsDigit(s[|s| - 1]);
  }

  lemma SpelledParts(text: string, lead: string, a: nat, total: string, node: string, subnet: string, trail: string)
    requires Spells(text, lead, a, total, node, subnet, trail)
    ensures Split(Strip(text), '/') == [Dotted(a), total, node, subnet]
  {
    var core := Dotted(a) + "/" + total + "/" + node + "/" + subnet;
    DottedRoundTrip(a);
    DigitsAreInt(total);
    DigitsAreInt(node);
    DigitsAreInt(subnet);
    assert core[0] == Dotted(a)[0] && Dotted(a)[0] in Dotted(a);
    assert core[|core| - 1] == subnet[|subnet| - 1];
    StripSurrounded(lead, core, trail);
    assert core == Join(Dotted(a), total, node, subnet, '/');
    SplitFour(Dotted(a), total, node, subnet, '/');
  }

  /** The network address is the one aligned address with the given one in its block. */
  lemma NetworkAddressIs(a: nat, prefix: nat, base: nat)
    requires a < ADDRESSES && prefix <= 32
    ensures NetworkAddress(a, prefix) == base
            <==> base % Pow2(32 - prefix) == 0 && base <= a < base + Pow2(32 - prefix)
  {
    var size := Pow2(32 - prefix);
    NetworkAddressFits(a, prefix);
    QuotientRemainder(a, size);
    if base % size == 0 && base <= a < base + size {
      QuotientRemainder(base, size);
      BlockIndex(a, size, base / size);
    }
  }

  /** Every such text is accepted - host bits, leading zeros and white space or not - and means this. */
  lemma SpelledIsAccepted(text: string, lead: string, a: nat, total: string, node: string, subnet: string, trail: string)
    requires Spells(text, lead, a, total, node, subnet, trail)
    ensures Parse(text).Ok?
    ensures var c := Parse(text).value;
            && c.totalPrefix == Value(total) && c.nodeBits == Value(node) && c.subnetBits == Value(subnet)
            && c.base % Pow2(32 - Value(total)) == 0 && c.base <= a < c.base + Pow2(32 - Value(total))
  {
    SpelledParts(text, lead, a, total, node, subnet, trail);
    DottedRoundTrip(a);
    DigitsAreInt(total);
    DigitsAreInt(node);
    DigitsAreInt(subnet);
    NetworkAddressIs(a, Value(total), NetworkAddress(a, Value(total)));
  }

  lemma PositiveCount(s: string, n: nat)
    requires ParseInt(s) == Some(n) && n > 0
    ensures s != [] && AllDigits(s) && Value(s) == n
  {
  }

  lemma AcceptedIsSpelled(text: string)
    returns (lead: string, a: nat, total: string, node: string, subnet: string, trail: string)
    requires Parse(text).Ok?
    ensures Spells(text, lead, a, total, node, subnet, trail)
  {
    var p, c := Split(Strip(text), '/'), Parse(text).value;
    PartsOfParsed(text, c);
    lead, trail := StripTakesSpaces(text);
    a, total, node, subnet := ParseDotted(p[0]).value, p[1], p[2], p[3];
    PositiveCount(total, c.totalPrefix);
    PositiveCount(node, c.nodeBits);
    PositiveCount(subnet, c.subnetBits);
    DottedOfParsed(p[0]);
    JoinOfFour(Strip(text), '/');
    assert Join(p[0], p[1], p[2], p[3], '/') == Dotted(a) + "/" + total + "/" + node + "/" + subnet;
  }

  /** No other text is. */
  lemma AcceptedIff(text: string)
    ensures Parse(text).Ok? <==>
            exists lead, a: nat, total, node, subnet, trail :: Spells(text, lead, a, total, node, subnet, trail)
  {
    if Parse(text).Ok? {
      var lead, a, total, node, subnet, trail := AcceptedIsSpelled(text);
    }
    if lead, a: nat, total, node, subnet, trail :| Spells(text, lead, a, total, node, subnet, trail) {
      SpelledIsAccepted(text, lead, a, total, node, subnet, trail);
    }
  }

  const DEFAULT_CONFIG := "10.128.0.0/12/6/14"

  lemma TwoDigits(n: nat)
    requires 10 <= n < 100
    ensures Digits(n) == [DigitChar(n / 10), DigitChar(n % 10)]
    ensures Value(Digits(n)) == n
  {
    DigitsRoundTrip(n);
  }

  lemma DefaultAddress()
    ensures Dotted(0x0A80_0000) == "10.128.0.0"
  {
    DottedSpells(10, 128, 0, 0);
    TwoDigits(10);
    TwoDigits(12);
    assert Digits(128) == Digits(12) + "8";
  }

  lemma DefaultIsSpelled()
    ensures Spells(DEFAULT_CONFIG, "", 0x0A80_0000, "12", "6", "14", "")
    ensures Value("12") == 12 && Value("6") == 6 && Value("14") == 14
  {
    DefaultAddress();
    TwoDigits(12);
    TwoDigits(14);
    assert Value("6") == Value("") * 10 + 6 by { assert "6"[..0] == ""; }
    assert DEFAULT_CONFIG == "" + ("10.128.0.0" + "/" + "12" + "/" + "6" + "/" + "14") + "";
  }

  /** The default: block 10.128.0.0/12, 63 runners with 16380 addresses each. */
  lemma DefaultConfig()
    ensures Parse(DEFAULT_CONFIG) == Ok(Config(0x0A80_0000, 12, 6, 14))
    ensures var c := Config(0x0A80_0000, 12, 6, 14); MaxRunners(c) == 63 && IpsPerRunner(c) == 16380
  {
    var a := 0x0A80_0000;
    DefaultIsSpelled();
    SpelledIsAccepted(DEFAULT_CONFIG, "", a, "12", "6", "14", "");
    SmallPowersOfTwo();
    var base := Parse(DEFAULT_CONFIG).value.base;
    NetworkAddressIs(a, 12, a);
    NetworkAddressIs(a, 12, base);
  }

  lemma SmallPowersOfTwo()
    ensures Pow2(6) == 64 && Pow2(14) == 16384 && Pow2(20) == 0x10_0000
  {
    assert Pow2(4) == 16 && Pow2(6) == 64;
    Pow2Values();
    Pow2Add(8, 6);
    Pow2Add(16, 4);
  }

  /** A flat configuration prints a text that parse rejects, always. */
  lemma FlatPrintIsRejected(a: nat, prefix: nat)
    requires a < ADDRESSES && prefix <= 32
    ensures var c := FromSimpleCidr(a, prefix);
            && c.base < ADDRESSES && IsFlat(c)
            && Parse(Print(c)) == Err(if 1 <= prefix <= 24 then BadNodeBits else BadTotalPrefix)
  {
    NetworkAddressFits(a, prefix);
    PrintedParts(FromSimpleCidr(a, prefix));
  }

  // ---------------------------------------------------------------------------
  // The partition of the network

  predicate InNetwork(c: Config, a: int) {
    c.base <= a < c.base + Pow2(c.nodeBits + c.subnetBits)
  }

  predicate InBlock(c: Config, id: int, a: int) {
    BlockStart(c, id) <= a < BlockStart(c, id) + Pow2(c.subnetBits)
  }

  lemma Sizes(c: Config)
    requires Hierarchical(c)
    ensures Pow2(c.nodeBits + c.subnetBits) == Pow2(c.nodeBits) * Pow2(c.subnetBits)
    ensures c.base + Pow2(c.nodeBits + c.subnetBits) <= ADDRESSES
  {
    var size := Pow2(32 - c.totalPrefix);
    Pow2Add(c.nodeBits, c.subnetBits);
    Pow2Add(c.totalPrefix, 32 - c.totalPrefix);
    Pow2Values();
    QuotientRemainder(c.base, size);
    MultipleFits(c.base / size, size, Pow2(c.totalPrefix));
  }

  lemma MultipleOfMultiple(q: int, u: int)
    ensures q * (u * 256) % 256 == 0
  {
    ThreeFactors(q, u, 256);
    MultipleMod(q * u, 256);
  }

  lemma Pow2Splits(bits: nat)
    requires bits >= 8
    ensures Pow2(bits) == Pow2(bits - 8) * 256
  {
    Pow2Add(bits - 8, 8);
    Pow2Values();
  }

  lemma MultipleOf256(n: nat, bits: nat)
    requires bits >= 8 && n % Pow2(bits) == 0
    ensures n % 256 == 0
  {
    var q, u := n / Pow2(bits), Pow2(bits - 8);
    assert n == q * Pow2(bits) by { QuotientRemainder(n, Pow2(bits)); }
    Pow2Splits(bits);
    MultipleOfMultiple(q, u);
  }

  lemma ThreeFactors(a: int, b: int, c: int)
    ensures a * (b * c) == (a * b) * c
  {
  }

  lemma BlockFits(c: Config, id: int)
    requires Hierarchical(c) && 0 <= id <= MaxRunners(c)
    ensures c.base <= BlockStart(c, id)
    ensures BlockStart(c, id) + Pow2(c.subnetBits) <= c.base + Pow2(c.nodeBits + c.subnetBits) <= ADDRESSES
  {
    var size := Pow2(c.subnetBits);
    Sizes(c);
    TimesMonotone(0, id, size);
    TimesMonotone(id + 1, Pow2(c.nodeBits), size);
    TimesNext(id, size);
  }

  lemma BlockAligned(c: Config, id: nat)
    requires Hierarchical(c)
    ensures Pow2(c.subnetBits) >= 256 && Pow2(c.subnetBits) % 256 == 0
    ensures BlockStart(c, id) % 256 == 0
  {
    Pow2Monotone(8, c.subnetBits);
    Pow2Values();
    Pow2Splits(c.subnetBits);
    MultipleMod(Pow2(c.subnetBits - 8), 256);
    MultipleOfMultiple(id, Pow2(c.subnetBits - 8));
    MultipleOf256(c.base, 32 - c.totalPrefix);
    SumMod(c.base, id * Pow2(c.subnetBits));
  }

  lemma SumMod(a: int, b: int)
    requires a % 256 == 0 && b % 256 == 0
    ensures (a + b) % 256 == 0
  {
  }

  /** A block: at least 256 addresses, inside the network, starting at a multiple of 256. */
  lemma BlockShape(c: Config, id: int)
    requires Hierarchical(c) && 0 <= id <= MaxRunners(c)
    ensures Pow2(c.subnetBits) >= 256 && Pow2(c.subnetBits) % 256 == 0
    ensures c.base <= BlockStart(c, id)
    ensures BlockStart(c, id) + Pow2(c.subnetBits) <= c.base + Pow2(c.nodeBits + c.subnetBits) <= ADDRESSES
    ensures BlockStart(c, id) % 256 == 0
  {
    BlockFits(c, id);
    BlockAligned(c, id);
  }

  /**
   The host's block (id 0) and the runners' blocks 1..max_runners are disjoint and cover exactly
   the network: an address lies in block `id` iff it lies in the network and its offset says so.
   */
  lemma BlocksPartitionNetwork(c: Config, a: int)
    requires Hierarchical(c)
    ensures InNetwork(c, a) ==> 0 <= (a - c.base) / Pow2(c.subnetBits) <= MaxRunners(c)
    ensures forall id | 0 <= id <= MaxRunners(c) ::
              InBlock(c, id, a) <==> InNetwork(c, a) && (a - c.base) / Pow2(c.subnetBits) == id
    ensures InNetwork(c, a) ==> 0 <= a < ADDRESSES
  {
    Sizes(c);
    if InNetwork(c, a) {
      IndexBound(a - c.base, Pow2(c.subnetBits), Pow2(c.nodeBits));
    }
    forall id | 0 <= id <= MaxRunners(c)
      ensures InBlock(c, id, a) <==> InNetwork(c, a) && (a - c.base) / Pow2(c.subnetBits) == id
    {
      OneBlock(c, id, a);
    }
  }

  lemma OneBlock(c: Config, id: int, a: int)
    requires Hierarchical(c) && 0 <= id <= MaxRunners(c)
    ensures InBlock(c, id, a) <==> InNetwork(c, a) && (a - c.base) / Pow2(c.subnetBits) == id
  {
    BlockShape(c, id);
    BlockIndex(a - c.base, Pow2(c.subnetBits), id);
  }

  // ---------------------------------------------------------------------------
  // The addresses handed out

  /** A query's answer is the text of this address. */
  ghost predicate Answers(r: Result<string, Error>, a: int) {
    0 <= a < ADDRESSES && r == Ok(Dotted(a))
  }

  /** For every runner, gateway and host address are answered, inside the runner's own block. */
  lemma RunnerAddressesInOwnBlock(c: Config, id: int)
    requires Hierarchical(c) && ValidRunnerId(c, id)
    ensures Answers(GetRunnerGateway(c, id), BlockStart(c, id) + 1) && InBlock(c, id, BlockStart(c, id) + 1)
    ensures Answers(GetHostIpOnRunnerSubnet(c, id), BlockStart(c, id) + 254) && InBlock(c, id, BlockStart(c, id) + 254)
  {
    BlockShape(c, id);
  }

  /** The subnet answered for a runner, read back as CIDR text, is its block. */
  lemma RunnerSubnetIsOwnBlock(c: Config, id: int)
    requires Hierarchical(c) && ValidRunnerId(c, id)
    ensures GetRunnerSubnet(c, id).Ok?
    ensures var parts := Split(GetRunnerSubnet(c, id).value, '/');
            && |parts| == 2 && ParseDotted(parts[0]) == Some(BlockStart(c, id))
            && ParseInt(parts[1]) == Some(32 - c.subnetBits)
  {
    BlockShape(c, id);
    var a, p := Dotted(BlockStart(c, id)), IntText(32 - c.subnetBits);
    DottedRoundTrip(BlockStart(c, id));
    IntRoundTrip(32 - c.subnetBits);
    assert a + "/" + p == a + ['/'] + p;
    SplitFirst(a, '/', p);
    SplitNone(p, '/');
  }

  /** The host's own address lies in block 0, outside every runner's block. */
  lemma HostAddressInBlockZero(c: Config)
    requires Hierarchical(c)
    ensures Answers(GetHostIp(c), c.base + 1) && InBlock(c, 0, c.base + 1)
    ensures forall id | ValidRunnerId(c, id) :: !InBlock(c, id, c.base + 1)
  {
    BlockShape(c, 0);
    OneBlock(c, 0, c.base + 1);
    forall id | ValidRunnerId(c, id)
      ensures !InBlock(c, id, c.base + 1)
    {
      OneBlock(c, id, c.base + 1);
    }
  }

  /**
   The container range is the whole block without its first two and last two addresses, so it
   has `ips_per_runner` addresses: the low byte of the last candidate is 254 in every block.
   */
  lemma ContainerRange(c: Config, id: int)
    requires Hierarchical(c) && ValidRunnerId(c, id)
    ensures var first, last := BlockStart(c, id) + 2, BlockStart(c, id) + Pow2(c.subnetBits) - 3;
            && ContainerBounds(c, id) == (first, last)
            && InBlock(c, id, first) && InBlock(c, id, last) && 0 <= first <= last < ADDRESSES
            && GetContainerIpRange(c, id) == Ok((Dotted(first), Dotted(last)))
            && last - first + 1 == IpsPerRunner(c)
  {
    BlockShape(c, id);
    LowByte(BlockStart(c, id), Pow2(c.subnetBits));
  }

  lemma LowByte(start: int, size: int)
    requires start % 256 == 0 && size % 256 == 0
    ensures (start + size - 2) % 256 == 254
  {
  }

  /**
   The range never holds the network, gateway or broadcast address, but it does hold the host's
   address of that block - exactly when blocks are larger than 256 addresses.
   */
  lemma HostIsInRangeIff(c: Config, id: int)
    requires Hierarchical(c) && ValidRunnerId(c, id)
    ensures var (first, last) := ContainerBounds(c, id);
            && !(first <= BlockStart(c, id) <= last)
            && !(first <= BlockStart(c, id) + 1 <= last)
            && !(first <= BlockStart(c, id) + Pow2(c.subnetBits) - 1 <= last)
            && (first <= BlockStart(c, id) + 254 <= last <==> c.subnetBits > 8)
  {
    ContainerRange(c, id);
    Pow2Values();
    if c.subnetBits > 8 {
      Pow2Monotone(9, c.subnetBits);
      assert Pow2(9) == 512;
    }
  }

  lemma FlatFits(a: nat, prefix: nat)
    requires a < ADDRESSES && prefix <= 32
    ensures 0 <= NetworkAddress(a, prefix) && NetworkAddress(a, prefix) + Pow2(32 - prefix) <= ADDRESSES
  {
    Pow2Values();
    Pow2Add(prefix, 32 - prefix);
    RoundedDownFits(a, Pow2(32 - prefix), Pow2(prefix));
  }

  lemma RoundedDownFits(a: nat, size: nat, count: nat)
    requires size > 0 && a < count * size
    ensures 0 <= a / size * size && a / size * size + size <= count * size
  {
    QuotientRemainder(a, size);
    IndexBound(a, size, count);
    TimesMonotone(0, a / size, size);
    MultipleFits(a / size, size, count);
  }

  lemma SmallPowers(bits: nat)
    ensures bits >= 3 ==> Pow2(bits) >= 8
    ensures bits < 3 ==> Pow2(bits) <= 4
  {
    if bits >= 3 {
      Pow2Monotone(3, bits);
      assert Pow2(3) == 8;
    } else {
      Pow2Monotone(bits, 2);
      assert Pow2(2) == 4;
    }
  }

  /**
   A flat network's range leaves out network, gateway, host and broadcast address; it holds an
   address at all exactly up to prefix length 29.
   */
  lemma FlatRange(a: nat, prefix: nat, id: int)
    requires a < ADDRESSES && prefix <= 32 && ValidRunnerId(FromSimpleCidr(a, prefix), id)
    ensures var c := FromSimpleCidr(a, prefix);
            var (first, last) := ContainerBounds(c, id);
            && (first <= last <==> prefix <= 29)
            && last - first + 1 == IpsPerRunner(c)
            && (prefix <= 29 ==>
                  && c.base + 1 < first && last < c.base + Pow2(32 - prefix) - 2
                  && 0 <= first < ADDRESSES && 0 <= last < ADDRESSES
                  && GetContainerIpRange(c, id) == Ok((Dotted(first), Dotted(last))))
  {
    FlatFits(a, prefix);
    SmallPowers(32 - prefix);
  }

  /** Those are the gateway and host address a flat network answers, for every runner. */
  lemma FlatAddresses(a: nat, prefix: nat, id: int)
    requires a < ADDRESSES && prefix <= 29 && ValidRunnerId(FromSimpleCidr(a, prefix), id)
    ensures var c := FromSimpleCidr(a, prefix);
            && Answers(GetRunnerGateway(c, id), c.base + 1)
            && Answers(GetHostIpOnRunnerSubnet(c, id), c.base + Pow2(32 - prefix) - 2)
            && GetHostIp(c) == GetHostIpOnRunnerSubnet(c, id)
  {
    FlatFits(a, prefix);
    SmallPowers(32 - prefix);
  }

  /** The block of a flat network, which is what every runner is answered as its subnet. */
  lemma FlatSubnet(a: nat, prefix: nat, id: int)
    requires a < ADDRESSES && prefix <= 32 && ValidRunnerId(FromSimpleCidr(a, prefix), id)
    ensures var c := FromSimpleCidr(a, prefix);
            && c.base < ADDRESSES && c.base % Pow2(32 - prefix) == 0 && c.base <= a < c.base + Pow2(32 - prefix)
            && GetRunnerSubnet(c, id) == Ok(Dotted(c.base) + "/" + Digits(prefix))
  {
    NetworkAddressIs(a, prefix, NetworkAddress(a, prefix));
  }

  /** Every query refuses exactly the ids that are not 1 to 2^node_bits - 1, or 63 in flat mode. */
  lemma RunnerIdsAccepted(c: Config, id: int)
    ensures var refused := !(1 <= id <= if c.nodeBits == 0 then 63 else Pow2(c.nodeBits) - 1);
            && (GetRunnerSubnet(c, id) == Err(BadRunnerId) <==> refused)
            && (GetRunnerGateway(c, id) == Err(BadRunnerId) <==> refused)
            && (GetHostIpOnRunnerSubnet(c, id) == Err(BadRunnerId) <==> refused)
            && (GetContainerIpRange(c, id) == Err(BadRunnerId) <==> refused)
  {
  }
}
