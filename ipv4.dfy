/**
 * IPv4 values as the compiler sees them: addresses are 32-bit numbers, a network is an
 * address with a prefix length, and both are written out in dotted-quad form. The
 * `ipaddress` library's parsing is not part of this model; only the values, the masks
 * and the text forms the compiler puts into its output are.
 */
module Ipv4 {

  const AddressSpace: nat := 0x1_0000_0000

  type Address = n: nat | n < 0x1_0000_0000
  type PrefixLength = k: nat | k <= 32

  /** An IPv4 network: its address and prefix length, as `ipaddress.IPv4Network` holds them. */
  datatype Network = Network(address: Address, prefixLen: PrefixLength)

  /** Powers of two up to the size of the address space: `Pow2s[i]` is 2 to the `i`. */
  const Pow2s: seq<nat> := [
    1, 2, 4, 8, 16, 32, 64, 128, 256, 512, 1024, 2048, 4096, 8192, 16384, 32768,
    65536, 131072, 262144, 524288, 1048576, 2097152, 4194304, 8388608, 16777216, 33554432,
    67108864, 134217728, 268435456, 536870912, 1073741824, 2147483648, 4294967296]

  function Pow2(k: nat): (r: nat)
    ensures r >= 1
  {
    if k == 0 then 1 else 2 * Pow2(k - 1)
  }

  lemma Pow2sShape()
    ensures |Pow2s| == 33 && Pow2s[0] == 1 && Pow2s[32] == AddressSpace
    ensures forall i :: 0 <= i < 32 ==> Pow2s[i + 1] == 2 * Pow2s[i]
  {
  }

  /** The table holds exactly the powers of two. */
  lemma {:induction false} Pow2sArePowers(i: nat)
    requires i <= 32
    ensures Pow2s[i] == Pow2(i)
  {
    Pow2sShape();
    if i > 0 { Pow2sArePowers(i - 1); }
  }

  lemma {:induction false} Pow2sBounded(i: nat)
    requires i <= 32
    ensures 1 <= Pow2s[i] <= AddressSpace
    decreases 32 - i
  {
    Pow2sShape();
    if i < 32 { Pow2sBounded(i + 1); }
  }

  /** The size of the host part of a network with prefix length `k`: 2 to the `32 - k`. */
  function HostSize(k: PrefixLength): (r: nat)
    ensures 1 <= r <= AddressSpace
  {
    Pow2sBounded(32 - k);
    Pow2s[32 - k]
  }

  /** The netmask of prefix length `k`: the address whose first `k` bits are one and the rest zero. */
  function PrefixMask(k: PrefixLength): Address {
    AddressSpace - HostSize(k)
  }

  function Netmask(n: Network): Address {
    PrefixMask(n.prefixLen)
  }

  /** The network address of `a` under prefix length `k`: its host bits cleared. */
  function MaskAddress(a: Address, k: PrefixLength): Address {
    a - a % HostSize(k)
  }

  /** `ip_network(text, strict=True)` refuses a network whose host bits are not all zero. */
  predicate HostBitsClear(n: Network) {
    n.address % HostSize(n.prefixLen) == 0
  }

  // ---- decimal and dotted-quad text, as Python's `str` writes them ----

  predicate IsDigit(c: char) {
    '0' <= c <= '9'
  }

  function DigitChar(d: nat): (c: char)
    requires d < 10
    ensures IsDigit(c)
  {
    (48 + d) as char
  }

  /** `str(n)` of a natural number. */
  function Dec(n: nat): string {
    if n < 10 then [DigitChar(n)] else Dec(n / 10) + [DigitChar(n % 10)]
  }

  /** The text of a number is a non-empty run of digits, one digit per power of ten. */
  lemma {:induction false} DecShape(n: nat)
    ensures 1 <= |Dec(n)|
    ensures forall i :: 0 <= i < |Dec(n)| ==> IsDigit(Dec(n)[i])
    ensures n < 10 ==> |Dec(n)| == 1
    ensures n < 100 ==> |Dec(n)| <= 2
    ensures n < 1000 ==> |Dec(n)| <= 3
  {
    if n >= 10 {
      DecShape(n / 10);
    }
  }

  /** `str(i)` of an integer. */
  function IntText(i: int): string {
    if i < 0 then "-" + Dec(-i) else Dec(i)
  }

  /** The four octets of an address, most significant first. */
  function Octet(a: Address, i: nat): (o: nat)
    requires i < 4
    ensures o < 256
  {
    if i == 0 then a / 0x100_0000
    else if i == 1 then a / 0x1_0000 % 256
    else if i == 2 then a / 0x100 % 256
    else a % 256
  }

  /** `str(ipaddress.IPv4Address)`. */
  function DottedQuad(a: Address): string {
    Dec(Octet(a, 0)) + "." + (Dec(Octet(a, 1)) + "." + (Dec(Octet(a, 2)) + "." + Dec(Octet(a, 3))))
  }

  /** `str(ipaddress.IPv4Network)`. */
  function NetworkText(n: Network): string {
    DottedQuad(n.address) + "/" + Dec(n.prefixLen)
  }

  // ---- the pattern \d{1,3}\.\d{1,3}\.\d{1,3}\.\d{1,3} under `re.match` ----

  /** The number of decimal digits `s` starts with. */
  function LeadingDigits(s: string): (n: nat)
    ensures n <= |s|
    ensures forall i :: 0 <= i < n ==> IsDigit(s[i])
    ensures n < |s| ==> !IsDigit(s[n])
  {
    if s != [] && IsDigit(s[0]) then 1 + LeadingDigits(s[1..]) else 0
  }

  /**
   * Whether `s` starts with `groups` dot-separated runs of one to three digits. A run of
   * digits before a dot leaves no choice to the regex engine's backtracking: it matches
   * exactly when the run has one to three digits. The last run needs only one digit,
   * because `re.match` is satisfied by a prefix.
   */
  predicate DigitGroups(s: string, groups: nat)
    requires groups >= 1
    decreases groups
  {
    var d := LeadingDigits(s);
    if groups == 1 then d >= 1
    else 1 <= d <= 3 && d < |s| && s[d] == '.' && DigitGroups(s[d + 1..], groups - 1)
  }

  /** `IP_PATTERN.match(s)` is truthy. */
  predicate MatchesIpPattern(s: string) {
    DigitGroups(s, 4)
  }

  lemma {:induction false} LeadingDigitsOfConcat(ds: string, t: string)
    requires forall i :: 0 <= i < |ds| ==> IsDigit(ds[i])
    ensures LeadingDigits(ds + t) == |ds| + LeadingDigits(t)
  {
    if ds != [] {
      assert (ds + t)[1..] == ds[1..] + t;
      LeadingDigitsOfConcat(ds[1..], t);
    } else {
      assert ds + t == t;
    }
  }

  lemma {:induction false} LeadingDigitsExtend(s: string, t: string)
    ensures LeadingDigits(s) <= LeadingDigits(s + t)
    ensures LeadingDigits(s) < |s| ==> LeadingDigits(s + t) == LeadingDigits(s)
  {
    if s != [] && IsDigit(s[0]) {
      assert (s + t)[1..] == s[1..] + t;
      LeadingDigitsExtend(s[1..], t);
    } else if s == [] {
      assert s + t == t;
    }
  }

  /** `re.match` matches a prefix: whatever follows a match does not undo it. */
  lemma {:induction false} DigitGroupsExtend(s: string, t: string, groups: nat)
    requires groups >= 1 && DigitGroups(s, groups)
    ensures DigitGroups(s + t, groups)
  {
    LeadingDigitsExtend(s, t);
    if groups > 1 {
      var d := LeadingDigits(s);
      assert (s + t)[d + 1..] == s[d + 1..] + t;
      DigitGroupsExtend(s[d + 1..], t, groups - 1);
    }
  }

  lemma MatchesIpPatternExtend(s: string, t: string)
    requires MatchesIpPattern(s)
    ensures MatchesIpPattern(s + t)
  {
    DigitGroupsExtend(s, t, 4);
  }

  /** One more run of digits and a dot in front of a match adds one group to it. */
  lemma DigitGroupsCons(ds: string, rest: string, groups: nat)
    requires 1 <= |ds| <= 3 && forall i :: 0 <= i < |ds| ==> IsDigit(ds[i])
    requires groups >= 1 && DigitGroups(rest, groups)
    ensures DigitGroups(ds + "." + rest, groups + 1)
  {
    var s := ds + "." + rest;
    assert s == ds + ("." + rest);
    LeadingDigitsOfConcat(ds, "." + rest);
    assert LeadingDigits(s) == |ds|;
    assert s[|ds| + 1..] == rest;
  }

  lemma DigitGroupsOne(ds: string)
    requires 1 <= |ds| && forall i :: 0 <= i < |ds| ==> IsDigit(ds[i])
    ensures DigitGroups(ds, 1)
  {
    LeadingDigitsOfConcat(ds, []);
    assert ds + [] == ds;
  }

  /** The text of every address matches the pattern. */
  lemma DottedQuadMatches(a: Address)
    ensures MatchesIpPattern(DottedQuad(a))
  {
    var o0, o1, o2, o3 := Dec(Octet(a, 0)), Dec(Octet(a, 1)), Dec(Octet(a, 2)), Dec(Octet(a, 3));
    DecShape(Octet(a, 0));
    DecShape(Octet(a, 1));
    DecShape(Octet(a, 2));
    DecShape(Octet(a, 3));
    var s2 := o2 + "." + o3;
    var s1 := o1 + "." + s2;
    var s0 := o0 + "." + s1;
    DigitGroupsOne(o3);
    DigitGroupsCons(o2, o3, 1);
    DigitGroupsCons(o1, s2, 2);
    DigitGroupsCons(o0, s1, 3);
    assert DottedQuad(a) == s0;
  }

  /** A text that does not start with a digit never matches. */
  lemma NonDigitStartNoMatch(s: string)
    requires s == [] || !IsDigit(s[0])
    ensures !MatchesIpPattern(s)
  {
  }
}
