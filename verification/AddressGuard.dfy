/**
  The reserved-address test of the streaming proxy (server/src/ssrf.ts). Shifts and masks on the
  unsigned 32-bit value are written as multiplication, division and remainder by powers of two.
 */
module AddressGuard {
  import opened Strings
  import opened Wrappers

  const TWO_32: nat := 0x1_0000_0000

  // ---------------------------------------------------------------------------
  // IPv4

  predicate IsOctetText(s: string) {
    IsNumeral(s, 10, 3) && Value(s, 10) <= 255
  }

  function Quad(a: nat, b: nat, c: nat, d: nat): nat {
    ((a * 256 + b) * 256 + c) * 256 + d
  }

  function V4Value(ip: string): Option<nat> {
    var parts := Split(ip, '.');
    if |parts| == 4 && forall i :: 0 <= i < 4 ==> IsOctetText(parts[i])
    then Some(Quad(Value(parts[0], 10), Value(parts[1], 10), Value(parts[2], 10), Value(parts[3], 10)))
    else None
  }

  /** The value of the first `k` octets. */
  function Accumulated(parts: seq<string>, k: nat): nat
    requires k <= |parts| && forall i :: 0 <= i < k ==> IsOctetText(parts[i])
  {
    if k == 0 then 0 else Accumulated(parts, k - 1) * 256 + Value(parts[k - 1], 10)
  }

  lemma {:induction false} AccumulatedSmall(parts: seq<string>, k: nat)
    requires k <= 3 && k <= |parts| && forall i :: 0 <= i < k ==> IsOctetText(parts[i])
    ensures Accumulated(parts, k)
          < if k == 0 then 1 else if k == 1 then 0x100 else if k == 2 then 0x1_0000 else 0x100_0000
  {
    if k > 0 {
      AccumulatedSmall(parts, k - 1);
      assert IsOctetText(parts[k - 1]);
    }
  }

  lemma AccumulatedQuad(parts: seq<string>)
    requires 4 <= |parts| && forall i :: 0 <= i < 4 ==> IsOctetText(parts[i])
    ensures Accumulated(parts, 4)
         == Quad(Value(parts[0], 10), Value(parts[1], 10), Value(parts[2], 10), Value(parts[3], 10)) < TWO_32
  {
    assert Accumulated(parts, 1) == Value(parts[0], 10);
    assert Accumulated(parts, 2) == Value(parts[0], 10) * 256 + Value(parts[1], 10);
    assert Accumulated(parts, 3) == Accumulated(parts, 2) * 256 + Value(parts[2], 10);
    AccumulatedSmall(parts, 3);
    assert IsOctetText(parts[3]);
  }

  /** ipv4ToInt: the accumulator is shifted within 32 bits. */
  method Ipv4ToInt(ip: string) returns (value: Option<nat>)
    ensures value == V4Value(ip)
    ensures value.Some? ==> value.value < TWO_32
  {
    var parts := Split(ip, '.');
    if |parts| != 4 { return None; }
    var v := 0;
    var k := 0;
    while k < 4
      invariant 0 <= k <= 4 && forall i :: 0 <= i < k ==> IsOctetText(parts[i])
      invariant v == Accumulated(parts, k)
    {
      if !IsNumeral(parts[k], 10, 3) { return None; }
      var n := Value(parts[k], 10);
      if n > 255 { return None; }
      AccumulatedSmall(parts, k);
      v := v * 256 % TWO_32 + n;
      k := k + 1;
    }
    AccumulatedQuad(parts);
    value := Some(v);
  }

  /** The value with its last `k` bits cleared, as masking leaves it. */
  function Masked(n: nat, k: nat): nat {
    if k == 0 then n else 2 * Masked(n / 2, k - 1)
  }

  /** The addresses whose first `bits` bits are those of `start`. */
  predicate InCidr4(ip: nat, start: nat, bits: nat)
    requires bits <= 32
  {
    Masked(ip, 32 - bits) == Masked(start, 32 - bits)
  }

  /** The text a.b.c.d. */
  function DottedQuad(a: nat, b: nat, c: nat, d: nat): string {
    Join([Numeral(a, 10), Numeral(b, 10), Numeral(c, 10), Numeral(d, 10)], '.')
  }

  datatype Cidr = Cidr(a: nat, b: nat, c: nat, d: nat, bits: nat)

  const RESERVED_V4: seq<Cidr> :=
    [Cidr(0, 0, 0, 0, 8), Cidr(10, 0, 0, 0, 8), Cidr(100, 64, 0, 0, 10), Cidr(127, 0, 0, 0, 8),
     Cidr(169, 254, 0, 0, 16), Cidr(172, 16, 0, 0, 12), Cidr(192, 0, 0, 0, 24), Cidr(192, 168, 0, 0, 16),
     Cidr(198, 18, 0, 0, 15), Cidr(224, 0, 0, 0, 4), Cidr(240, 0, 0, 0, 4)]

  function Start(c: Cidr): nat { Quad(c.a, c.b, c.c, c.d) }

  /** The source writes the start as text; DottedQuadReads says what that text reads as. */
  predicate InBlock(ip: nat, c: Cidr) {
    c.bits <= 32 && InCidr4(ip, Start(c), c.bits)
  }

  predicate IsReservedV4(ip: string) {
    match V4Value(ip)
    case None => true
    case Some(n) => exists k :: 0 <= k < |RESERVED_V4| && InBlock(n, RESERVED_V4[k])
  }

  /** The reserved blocks as intervals. */
  predicate ReservedRange(n: nat) {
    || n < 0x0100_0000
    || 0x0A00_0000 <= n < 0x0B00_0000
    || 0x6440_0000 <= n < 0x6480_0000
    || 0x7F00_0000 <= n < 0x8000_0000
    || 0xA9FE_0000 <= n < 0xA9FF_0000
    || 0xAC10_0000 <= n < 0xAC20_0000
    || 0xC000_0000 <= n < 0xC000_0100
    || 0xC0A8_0000 <= n < 0xC0A9_0000
    || 0xC612_0000 <= n < 0xC614_0000
    || 0xE000_0000 <= n < 0x1_0000_0000
  }

  function Dotted(v: nat): string {
    DottedQuad(v / 0x100_0000, v / 0x1_0000 % 256, v / 256 % 256, v % 256)
  }

  lemma OctetTextExact(n: nat)
    requires n <= 255
    ensures IsOctetText(Numeral(n, 10)) && Value(Numeral(n, 10), 10) == n
  {
    assert Power(10, 3) == 1000;
    NumeralExact(n, 10, 3);
  }

  lemma NumeralLacks(s: string, base: nat, most: nat, c: char)
    requires IsNumeral(s, base, most) && !IsDigit(c, base)
    ensures Lacks(s, c)
  {
  }

  /** Four octets joined by dots are read back. */
  lemma QuadReads(parts: seq<string>)
    requires |parts| == 4 && forall i :: 0 <= i < 4 ==> IsOctetText(parts[i])
    ensures V4Value(Join(parts, '.'))
         == Some(Quad(Value(parts[0], 10), Value(parts[1], 10), Value(parts[2], 10), Value(parts[3], 10)))
    ensures V4Value(Join(parts, '.')).value < TWO_32
  {
    forall i | 0 <= i < 4 ensures Lacks(parts[i], '.') { NumeralLacks(parts[i], 10, 3, '.'); }
    SplitJoin(parts, '.');
  }

  lemma OctetsOf(v: nat)
    requires v < TWO_32
    ensures v / 0x100_0000 <= 255
    ensures v == Quad(v / 0x100_0000, v / 0x1_0000 % 256, v / 256 % 256, v % 256)
  {
    assert v / 0x1_0000 / 256 == v / 0x100_0000;
    assert v / 256 / 256 == v / 0x1_0000;
  }

  lemma DottedQuadReads(a: nat, b: nat, c: nat, d: nat)
    requires a <= 255 && b <= 255 && c <= 255 && d <= 255
    ensures V4Value(DottedQuad(a, b, c, d)) == Some(Quad(a, b, c, d))
  {
    OctetTextExact(a);
    OctetTextExact(b);
    OctetTextExact(c);
    OctetTextExact(d);
    QuadReads([Numeral(a, 10), Numeral(b, 10), Numeral(c, 10), Numeral(d, 10)]);
  }

  lemma DottedReads(v: nat)
    requires v < TWO_32
    ensures V4Value(Dotted(v)) == Some(v)
  {
    OctetsOf(v);
    DottedQuadReads(v / 0x100_0000, v / 0x1_0000 % 256, v / 256 % 256, v % 256);
  }

  /** A block is an interval starting at its base. */
  lemma {:induction false} MaskedIsRange(n: nat, b: nat, k: nat)
    requires Masked(b, k) == b
    ensures Masked(n, k) == b <==> b <= n < b + Power(2, k)
  {
    if k > 0 {
      MaskedIsRange(n / 2, b / 2, k - 1);
    }
  }

  lemma {:induction false} MultipleIsMasked(q: nat, k: nat)
    ensures Masked(q * Power(2, k), k) == q * Power(2, k)
  {
    if k > 0 {
      MultipleIsMasked(q, k - 1);
      assert q * Power(2, k) == 2 * (q * Power(2, k - 1));
    }
  }

  function Size(c: Cidr): nat { if c.bits <= 32 then Power(2, 32 - c.bits) else 0 }

  predicate Aligned(c: Cidr) {
    c.bits <= 32 && Masked(Start(c), 32 - c.bits) == Start(c)
  }

  lemma PrefixIsRange(n: nat, start: nat, bits: nat)
    requires bits <= 32 && Masked(start, 32 - bits) == start
    ensures InCidr4(n, start, bits) <==> start <= n < start + Power(2, 32 - bits)
  {
    hide Power, Masked;
    MaskedIsRange(n, start, 32 - bits);
  }

  lemma BlockIsRange(n: nat, c: Cidr)
    requires Aligned(c)
    ensures InBlock(n, c) <==> Start(c) <= n < Start(c) + Size(c)
  {
    hide InCidr4, Start, Power, Masked;
    PrefixIsRange(n, Start(c), c.bits);
  }

  lemma Powers()
    ensures Power(2, 8) == 0x100 && Power(2, 16) == 0x1_0000 && Power(2, 17) == 0x2_0000
    ensures Power(2, 20) == 0x10_0000 && Power(2, 22) == 0x40_0000 && Power(2, 24) == 0x100_0000
    ensures Power(2, 28) == 0x1000_0000
  {
  }

  lemma AlignedWith(c: Cidr, size: nat, q: nat)
    requires c.bits <= 32 && size == Power(2, 32 - c.bits) && Start(c) == q * size
    ensures Aligned(c)
  {
    MultipleIsMasked(q, 32 - c.bits);
  }

  lemma LowAligned()
    ensures Aligned(RESERVED_V4[1]) && Aligned(RESERVED_V4[2]) && Aligned(RESERVED_V4[3])
  {
    Powers();
    AlignedWith(RESERVED_V4[1], 0x100_0000, 10);
    AlignedWith(RESERVED_V4[2], 0x40_0000, 401);
    AlignedWith(RESERVED_V4[3], 0x100_0000, 127);
  }

  lemma MiddleAligned()
    ensures Aligned(RESERVED_V4[4]) && Aligned(RESERVED_V4[5]) && Aligned(RESERVED_V4[6]) && Aligned(RESERVED_V4[7])
  {
    Powers();
    AlignedWith(RESERVED_V4[4], 0x1_0000, 0xA9FE);
    AlignedWith(RESERVED_V4[5], 0x10_0000, 0xAC1);
    AlignedWith(RESERVED_V4[6], 0x100, 0xC0_0000);
    AlignedWith(RESERVED_V4[7], 0x1_0000, 0xC0A8);
  }

  lemma HighAligned()
    ensures Aligned(RESERVED_V4[8]) && Aligned(RESERVED_V4[9]) && Aligned(RESERVED_V4[10])
  {
    Powers();
    AlignedWith(RESERVED_V4[8], 0x2_0000, 0x6309);
    AlignedWith(RESERVED_V4[9], 0x1000_0000, 14);
    AlignedWith(RESERVED_V4[10], 0x1000_0000, 15);
  }

  lemma ZeroAligned()
    ensures Aligned(RESERVED_V4[0])
  {
    MultipleIsMasked(0, 24);
  }

  lemma ReservedAligned(k: nat)
    requires k < |RESERVED_V4|
    ensures Aligned(RESERVED_V4[k])
  {
    if k == 0 { ZeroAligned(); }
    else if k < 4 { LowAligned(); }
    else if k < 8 { MiddleAligned(); }
    else { HighAligned(); }
  }

  predicate InRange(n: nat, c: Cidr) { Start(c) <= n < Start(c) + Size(c) }

  lemma LowRanges(n: nat)
    ensures InRange(n, RESERVED_V4[0]) <==> n < 0x0100_0000
    ensures InRange(n, RESERVED_V4[1]) <==> 0x0A00_0000 <= n < 0x0B00_0000
    ensures InRange(n, RESERVED_V4[2]) <==> 0x6440_0000 <= n < 0x6480_0000
    ensures InRange(n, RESERVED_V4[3]) <==> 0x7F00_0000 <= n < 0x8000_0000
    ensures InRange(n, RESERVED_V4[4]) <==> 0xA9FE_0000 <= n < 0xA9FF_0000
  {
    Powers();
  }

  lemma HighRanges(n: nat)
    ensures InRange(n, RESERVED_V4[5]) <==> 0xAC10_0000 <= n < 0xAC20_0000
    ensures InRange(n, RESERVED_V4[6]) <==> 0xC000_0000 <= n < 0xC000_0100
    ensures InRange(n, RESERVED_V4[7]) <==> 0xC0A8_0000 <= n < 0xC0A9_0000
    ensures InRange(n, RESERVED_V4[8]) <==> 0xC612_0000 <= n < 0xC614_0000
    ensures InRange(n, RESERVED_V4[9]) <==> 0xE000_0000 <= n < 0xF000_0000
    ensures InRange(n, RESERVED_V4[10]) <==> 0xF000_0000 <= n < 0x1_0000_0000
  {
    Powers();
  }

  lemma RangesMeet(n: nat)
    ensures (exists k :: 0 <= k < |RESERVED_V4| && InRange(n, RESERVED_V4[k])) <==> ReservedRange(n)
  {
    LowRanges(n);
    HighRanges(n);
  }

  /** The mask tests are the intervals. */
  lemma ReservedV4Exact(ip: string)
    ensures IsReservedV4(ip) <==> match V4Value(ip) case None => true case Some(n) => ReservedRange(n)
  {
    if V4Value(ip).Some? {
      var n := V4Value(ip).value;
      forall k | 0 <= k < |RESERVED_V4|
        ensures InBlock(n, RESERVED_V4[k]) <==> InRange(n, RESERVED_V4[k])
      {
        ReservedAligned(k);
        BlockIsRange(n, RESERVED_V4[k]);
      }
      RangesMeet(n);
    }
  }

  // ---------------------------------------------------------------------------
  // IPv6

  function LowerChar(c: char): char {
    if 'A' <= c <= 'Z' then c - 'A' + 'a' else c
  }

  /** toLowerCase on ASCII text. */
  function Lower(s: string): (r: string)
    ensures |r| == |s| && forall i :: 0 <= i < |s| ==> r[i] == LowerChar(s[i])
  {
    if s == "" then "" else [LowerChar(s[0])] + Lower(s[1..])
  }

  /** Four runs of one to three digits, with dots between. */
  predicate IsQuadText(s: string) {
    var parts := Split(s, '.');
    |parts| == 4 && forall i :: 0 <= i < 4 ==> IsNumeral(parts[i], 10, 3)
  }

  /** Where the dotted tail begins: the leftmost match that reaches the end. */
  function QuadAt(s: string): (i: nat)
    ensures i <= |s| && (i < |s| ==> IsQuadText(s[i..]))
  {
    if s == "" then 0 else if IsQuadText(s) then 0 else 1 + QuadAt(s[1..])
  }

  /** The numbers of colon-separated groups; an empty part has none. */
  function Groups(part: string): Option<seq<nat>> {
    if part == "" then Some([])
    else
      var groups := Split(part, ':');
      if forall i :: 0 <= i < |groups| ==> IsNumeral(groups[i], 16, 4) then Some(Values(groups)) else None
  }

  function Values(groups: seq<string>): (v: seq<nat>)
    ensures |v| == |groups| && forall i :: 0 <= i < |v| ==> v[i] == Value(groups[i], 16)
  {
    seq(|groups|, i requires 0 <= i < |groups| => Value(groups[i], 16))
  }

  /** The inner parse: groups are checked and pushed one by one. */
  method ParseGroups(part: string) returns (out: Option<seq<nat>>)
    ensures out == Groups(part)
  {
    if part == "" { return Some([]); }
    var groups := Split(part, ':');
    var pushed: seq<nat> := [];
    var i := 0;
    while i < |groups|
      invariant 0 <= i <= |groups|
      invariant forall j :: 0 <= j < i ==> IsNumeral(groups[j], 16, 4)
      invariant pushed == Values(groups[..i])
    {
      if !IsNumeral(groups[i], 16, 4) { return None; }
      pushed := pushed + [Value(groups[i], 16)];
      i := i + 1;
    }
    assert groups[..i] == groups;
    out := Some(pushed);
  }

  function Zeros(n: nat): seq<nat> { seq(n, _ => 0) }

  function FromHalves(folded: string): Option<seq<nat>> {
    var halves := SplitDouble(folded, ':');
    if |halves| > 2 || halves == [] then None
    else
      var head := Groups(halves[0]);
      var tail := if |halves| == 2 then Groups(halves[1]) else Some([]);
      if head.None? || tail.None? then None
      else if |halves| == 2 then
        var fill := 8 - |head.value| - |tail.value|;
        if fill < 0 then None else Some(head.value + Zeros(fill) + tail.value)
      else if |head.value| == 8 then head else None
  }

  /** A dotted tail becomes two groups. */
  function Folded(s: string): Option<string> {
    var at := QuadAt(s);
    if at == |s| then Some(s)
    else
      match V4Value(s[at..])
      case None => None
      case Some(v) => Some(s[..at] + (Numeral(v / 0x1_0000 % 0x1_0000, 16) + (":" + Numeral(v % 0x1_0000, 16))))
  }

  function Expand(ip: string): Option<seq<nat>> {
    var folded := Folded(ip[..Find(ip, '%')]);
    if folded.None? then None else FromHalves(folded.value)
  }

  /** The high 80 bits are zero, and the next 16 are zero or all ones. */
  predicate EmbedsV4(h: seq<nat>) {
    |h| == 8 && h[0] == 0 && h[1] == 0 && h[2] == 0 && h[3] == 0 && h[4] == 0 && (h[5] == 0xffff || h[5] == 0)
  }

  predicate LooksLocal(lower: string) {
    || (|lower| >= 3 && lower[0] == 'f' && lower[1] == 'e' && lower[2] in "89ab")
    || "fc" <= lower || "fd" <= lower
  }

  predicate IsReservedV6(ip: string) {
    Judged(Lower(ip), Expand(Lower(ip)))
  }

  predicate Judged(lower: string, h: Option<seq<nat>>) {
    if h.Some? && EmbedsV4(h.value) then IsReservedV4(Dotted((h.value[6] * 0x1_0000 + h.value[7]) % TWO_32))
    else lower == "::1" || lower == "::" || LooksLocal(lower)
  }

  // ---------------------------------------------------------------------------
  // Spellings (section 2.2 of RFC 4291)

  /** Groups, an optional compressed run after `head`, an optional dotted tail and an optional zone. */
  datatype Spelling = Spelling(head: seq<string>, compressed: bool, tail: seq<string>, quad: seq<string>, zone: string)

  predicate IsGroups(groups: seq<string>) {
    forall i :: 0 <= i < |groups| ==> IsNumeral(Lower(groups[i]), 16, 4)
  }

  predicate LegalQuad(quad: seq<string>) {
    quad == [] || (|quad| == 4 && forall i :: 0 <= i < 4 ==> IsOctetText(quad[i]))
  }

  function Count(sp: Spelling): nat {
    |sp.head| + |sp.tail| + if sp.quad == [] then 0 else 2
  }

  predicate Legal(sp: Spelling) {
    && IsGroups(sp.head) && IsGroups(sp.tail) && LegalQuad(sp.quad)
    && (sp.zone == "" || sp.zone[0] == '%')
    && if sp.compressed then Count(sp) <= 7 else sp.tail == [] && Count(sp) == 8
  }

  function Last(quad: seq<string>): seq<string> {
    if quad == [] then [] else [Join(quad, '.')]
  }

  function Body(sp: Spelling): string {
    if sp.compressed then Join(sp.head, ':') + ([':', ':'] + Join(sp.tail + Last(sp.quad), ':'))
    else Join(sp.head + Last(sp.quad), ':')
  }

  function Text(sp: Spelling): string { Body(sp) + sp.zone }

  function LowerAll(groups: seq<string>): (r: seq<string>)
    ensures |r| == |groups| && forall i :: 0 <= i < |r| ==> r[i] == Lower(groups[i])
  {
    seq(|groups|, i requires 0 <= i < |groups| => Lower(groups[i]))
  }

  function QuadNumber(quad: seq<string>): nat
    requires |quad| == 4
  {
    Quad(Value(quad[0], 10), Value(quad[1], 10), Value(quad[2], 10), Value(quad[3], 10))
  }

  function QuadHextets(quad: seq<string>): seq<nat>
    requires LegalQuad(quad)
  {
    if quad == [] then [] else [QuadNumber(quad) / 0x1_0000, QuadNumber(quad) % 0x1_0000]
  }

  /** The groups, with zeros for the compressed run and the dotted tail as two numbers. */
  function Spelled(head: seq<string>, tail: seq<string>, quad: seq<string>): seq<nat>
    requires LegalQuad(quad) && |head| + |tail| <= 8
  {
    var fill := 8 - |head| - |tail| - |QuadHextets(quad)|;
    Values(head) + Zeros(if fill < 0 then 0 else fill) + Values(tail) + QuadHextets(quad)
  }

  /** The eight hextets a spelling stands for. */
  function Hextets(sp: Spelling): (h: seq<nat>)
    requires Legal(sp)
    ensures |h| == 8
  {
    Spelled(LowerAll(sp.head), LowerAll(sp.tail), sp.quad)
  }

  // --- lower-casing a spelling ---

  lemma LowerAppend(a: string, b: string)
    ensures Lower(a + b) == Lower(a) + Lower(b)
  {
  }

  lemma {:induction false} LowerJoin(parts: seq<string>, c: char)
    requires LowerChar(c) == c
    ensures Lower(Join(parts, c)) == Join(LowerAll(parts), c)
  {
    if |parts| > 1 {
      LowerJoin(parts[1..], c);
      assert LowerAll(parts)[1..] == LowerAll(parts[1..]);
      LowerAppend(parts[0], [c] + Join(parts[1..], c));
      LowerAppend([c], Join(parts[1..], c));
      assert Lower([c]) == [c];
    }
  }

  function Lowered(sp: Spelling): Spelling {
    Spelling(LowerAll(sp.head), sp.compressed, LowerAll(sp.tail), sp.quad, Lower(sp.zone))
  }

  lemma LowerIdle(s: string, base: nat, most: nat)
    requires IsNumeral(s, base, most)
    ensures Lower(s) == s
  {
    assert forall i :: 0 <= i < |s| ==> IsDigit(s[i], base);
  }

  lemma LowerLast(groups: seq<string>, quad: seq<string>)
    requires LegalQuad(quad)
    ensures LowerAll(groups + Last(quad)) == LowerAll(groups) + Last(quad)
  {
    if quad != [] {
      forall i | 0 <= i < 4 ensures Lower(quad[i]) == quad[i] { LowerIdle(quad[i], 10, 3); }
      LowerJoin(quad, '.');
      assert LowerAll(quad) == quad;
    }
  }

  lemma LowerBody(sp: Spelling)
    requires LegalQuad(sp.quad)
    ensures Lower(Body(sp)) == Body(Lowered(sp))
  {
    if sp.compressed {
      LowerLast(sp.tail, sp.quad);
      LowerJoin(sp.head, ':');
      LowerJoin(sp.tail + Last(sp.quad), ':');
      LowerAppend(Join(sp.head, ':'), [':', ':'] + Join(sp.tail + Last(sp.quad), ':'));
      LowerAppend([':', ':'], Join(sp.tail + Last(sp.quad), ':'));
      assert Lower([':', ':']) == [':', ':'];
    } else {
      LowerLast(sp.head, sp.quad);
      LowerJoin(sp.head + Last(sp.quad), ':');
    }
  }

  // --- cutting the zone ---

  lemma GroupsLack(groups: seq<string>, base: nat, most: nat, c: char)
    requires forall i :: 0 <= i < |groups| ==> IsNumeral(groups[i], base, most)
    requires !IsDigit(c, base)
    ensures forall i :: 0 <= i < |groups| ==> groups[i] != "" && Lacks(groups[i], c)
  {
    forall i | 0 <= i < |groups| ensures Lacks(groups[i], c) { NumeralLacks(groups[i], base, most, c); }
  }

  predicate Hex(groups: seq<string>) {
    forall i :: 0 <= i < |groups| ==> IsNumeral(groups[i], 16, 4)
  }

  /** A lower-case spelling without its zone. */
  predicate Plain(sp: Spelling) {
    Hex(sp.head) && Hex(sp.tail) && LegalQuad(sp.quad)
    && if sp.compressed then Count(sp) <= 7 else sp.tail == [] && Count(sp) == 8
  }

  lemma LastLacks(groups: seq<string>, quad: seq<string>, c: char)
    requires Hex(groups) && LegalQuad(quad) && !IsDigit(c, 16) && c != ':' && (quad == [] || c != '.')
    ensures Lacks(Join(groups + Last(quad), ':'), c)
  {
    GroupsLack(groups, 16, 4, c);
    if quad != [] {
      GroupsLack(quad, 10, 3, c);
      JoinLacks(quad, '.', c);
    }
    JoinLacks(groups + Last(quad), ':', c);
  }

  lemma BodyLacks(sp: Spelling, c: char)
    requires Plain(sp) && !IsDigit(c, 16) && c != ':' && (sp.quad == [] || c != '.')
    ensures Lacks(Body(sp), c)
  {
    LastLacks(sp.tail, sp.quad, c);
    LastLacks(sp.head, sp.quad, c);
    LastLacks(sp.head, [], c);
    assert sp.head + Last([]) == sp.head;
  }

  lemma ZoneCut(body: string, zone: string)
    requires Lacks(body, '%') && (zone == "" || zone[0] == '%')
    ensures (body + zone)[..Find(body + zone, '%')] == body
  {
    assert forall k :: 0 <= k < |body| ==> (body + zone)[k] == body[k];
    FindIn(body + zone, '%', |body|);
  }

  // --- folding the dotted tail ---

  lemma {:induction false} SplitKeeps(s: string, c: char, d: char)
    requires c != d && forall i :: 0 <= i < |Split(s, c)| ==> Lacks(Split(s, c)[i], d)
    ensures Lacks(s, d)
    decreases |s|
  {
    var i, parts := Find(s, c), Split(s, c);
    assert Lacks(parts[0], d);
    if i < |s| {
      assert parts[0] == s[..i] && parts[1..] == Split(s[i + 1..], c);
      forall k | 0 <= k < |parts| - 1 ensures Lacks(parts[1..][k], d) { assert Lacks(parts[k + 1], d); }
      SplitKeeps(s[i + 1..], c, d);
      LacksAround(s, i, d);
    }
  }

  lemma LacksAround(s: string, i: nat, d: char)
    requires i < |s| && s[i] != d && Lacks(s[..i], d) && Lacks(s[i + 1..], d)
    ensures Lacks(s, d)
  {
    forall k | 0 <= k < |s| ensures s[k] != d {
      if k < i { assert s[..i][k] == s[k]; } else if k > i { assert s[i + 1..][k - i - 1] == s[k]; }
    }
  }

  lemma QuadTextLacksColon(s: string)
    requires IsQuadText(s)
    ensures Lacks(s, ':')
  {
    GroupsLack(Split(s, '.'), 10, 3, ':');
    SplitKeeps(s, '.', ':');
  }

  lemma {:induction false} QuadAtEnd(prefix: string, quad: string)
    requires IsQuadText(quad) && quad != "" && (prefix != "" ==> prefix[|prefix| - 1] == ':')
    ensures QuadAt(prefix + quad) == |prefix|
  {
    var s := prefix + quad;
    if prefix == "" {
      assert s == quad;
    } else {
      assert s[|prefix| - 1] == ':';
      if IsQuadText(s) { QuadTextLacksColon(s); }
      assert s[1..] == prefix[1..] + quad;
      QuadAtEnd(prefix[1..], quad);
    }
  }

  lemma {:induction false} NoDotNoQuad(s: string)
    requires Lacks(s, '.')
    ensures QuadAt(s) == |s|
  {
    if s != "" {
      SplitCons(s, '.', "");
      NoDotNoQuad(s[1..]);
    }
  }

  lemma QuadTextReads(quad: seq<string>)
    requires LegalQuad(quad) && quad != []
    ensures IsQuadText(Join(quad, '.')) && Join(quad, '.') != ""
    ensures V4Value(Join(quad, '.')) == Some(QuadNumber(quad)) && QuadNumber(quad) < TWO_32
  {
    GroupsLack(quad, 10, 3, '.');
    SplitJoin(quad, '.');
    QuadReads(quad);
  }

  /** What stands before the last element of a joined list. */
  function Lead(groups: seq<string>): string {
    if groups == [] then "" else Join(groups, ':') + ":"
  }

  lemma JoinLast(groups: seq<string>, last: seq<string>)
    requires last != []
    ensures Join(groups + last, ':') == Lead(groups) + Join(last, ':')
    ensures Lead(groups) != "" ==> Lead(groups)[|Lead(groups)| - 1] == ':'
  {
    if groups == [] {
      assert groups + last == last;
    } else {
      JoinAppend(groups, last, ':');
      assert Join(groups, ':') + ([':'] + Join(last, ':')) == (Join(groups, ':') + ":") + Join(last, ':');
    }
  }

  /** The two groups a dotted tail is folded into. */
  function Pair(quad: seq<string>): seq<string>
    requires LegalQuad(quad)
  {
    if quad == [] then []
    else [Numeral(QuadNumber(quad) / 0x1_0000 % 0x1_0000, 16), Numeral(QuadNumber(quad) % 0x1_0000, 16)]
  }

  lemma HextetReads(n: nat)
    requires n < 0x1_0000
    ensures IsNumeral(Numeral(n, 16), 16, 4) && Value(Numeral(n, 16), 16) == n
  {
    assert Power(16, 4) == 0x1_0000;
    NumeralExact(n, 16, 4);
  }

  lemma HalvesOf(v: nat)
    requires v < TWO_32
    ensures v / 0x1_0000 < 0x1_0000 && v / 0x1_0000 % 0x1_0000 == v / 0x1_0000
  {
  }

  lemma PairReads(quad: seq<string>)
    requires LegalQuad(quad)
    ensures Hex(Pair(quad)) && Values(Pair(quad)) == QuadHextets(quad)
  {
    if quad != [] {
      QuadTextReads(quad);
      PairOf(QuadNumber(quad));
    }
  }

  lemma PairOf(v: nat)
    requires v < TWO_32
    ensures var pair := [Numeral(v / 0x1_0000 % 0x1_0000, 16), Numeral(v % 0x1_0000, 16)];
            Hex(pair) && Values(pair) == [v / 0x1_0000, v % 0x1_0000]
  {
    HalvesOf(v);
    HextetReads(v / 0x1_0000);
    HextetReads(v % 0x1_0000);
  }

  lemma FoldedWith(prefix: string, quad: seq<string>)
    requires LegalQuad(quad) && quad != [] && (prefix != "" ==> prefix[|prefix| - 1] == ':')
    ensures Folded(prefix + Join(quad, '.')) == Some(prefix + Join(Pair(quad), ':'))
  {
    QuadTextReads(quad);
    var text := Join(quad, '.');
    QuadAtEnd(prefix, text);
    assert (prefix + text)[..|prefix|] == prefix && (prefix + text)[|prefix|..] == text;
  }

  /** The spelling with its dotted tail written as two groups. */
  function Unquad(sp: Spelling): Spelling
    requires LegalQuad(sp.quad)
  {
    if sp.compressed then sp.(tail := sp.tail + Pair(sp.quad), quad := [])
    else sp.(head := sp.head + Pair(sp.quad), quad := [])
  }

  lemma FoldedBody(sp: Spelling)
    requires Plain(sp)
    ensures Folded(Body(sp)) == Some(Body(Unquad(sp))) && Plain(Unquad(sp))
  {
    PairReads(sp.quad);
    if sp.quad == [] {
      assert sp.tail + [] == sp.tail && sp.head + [] == sp.head;
      BodyLacks(sp, '.');
      NoDotNoQuad(Body(sp));
    } else {
      FoldedQuad(sp);
    }
  }

  lemma FoldedQuad(sp: Spelling)
    requires Plain(sp) && sp.quad != []
    ensures Folded(Body(sp)) == Some(Body(Unquad(sp)))
  {
    if sp.compressed { FoldedCompressed(sp.head, sp.tail, sp.quad); } else { FoldedFull(sp.head, sp.quad); }
    assert sp.tail + Pair(sp.quad) + [] == sp.tail + Pair(sp.quad);
    assert sp.head + Pair(sp.quad) + [] == sp.head + Pair(sp.quad);
  }

  lemma FoldedFull(groups: seq<string>, quad: seq<string>)
    requires LegalQuad(quad) && quad != []
    ensures Folded(Join(groups + [Join(quad, '.')], ':')) == Some(Join(groups + Pair(quad), ':'))
  {
    JoinLast(groups, [Join(quad, '.')]);
    JoinLast(groups, Pair(quad));
    FoldedWith(Lead(groups), quad);
  }

  lemma FoldedCompressed(head: seq<string>, tail: seq<string>, quad: seq<string>)
    requires LegalQuad(quad) && quad != []
    ensures Folded(Join(head, ':') + ([':', ':'] + Join(tail + [Join(quad, '.')], ':')))
         == Some(Join(head, ':') + ([':', ':'] + Join(tail + Pair(quad), ':')))
  {
    JoinLast(tail, [Join(quad, '.')]);
    JoinLast(tail, Pair(quad));
    var prefix := Join(head, ':') + ([':', ':'] + Lead(tail));
    FoldedWith(prefix, quad);
    Regroup(Join(head, ':'), [':', ':'], Lead(tail), Join(quad, '.'));
    Regroup(Join(head, ':'), [':', ':'], Lead(tail), Join(Pair(quad), ':'));
  }

  lemma Regroup(a: string, b: string, c: string, d: string)
    ensures (a + (b + c)) + d == a + (b + (c + d))
  {
    Associates(a, b + c, d);
    Associates(b, c, d);
  }

  // --- reading the groups ---

  lemma GroupsRead(groups: seq<string>)
    requires Hex(groups)
    ensures Groups(Join(groups, ':')) == Some(Values(groups)) && Tidy(Join(groups, ':'), ':')
  {
    GroupsLack(groups, 16, 4, ':');
    JoinTidy(groups, ':');
    if groups != [] { SplitJoin(groups, ':'); }
  }

  lemma TwoHalves(folded: string, a: string, b: string, x: seq<nat>, y: seq<nat>)
    requires SplitDouble(folded, ':') == [a, b] && Groups(a) == Some(x) && Groups(b) == Some(y) && |x| + |y| <= 8
    ensures FromHalves(folded) == Some(x + Zeros(8 - |x| - |y|) + y)
  {
  }

  lemma OneHalf(folded: string, x: seq<nat>)
    requires SplitDouble(folded, ':') == [folded] && Groups(folded) == Some(x) && |x| == 8
    ensures FromHalves(folded) == Some(x)
  {
  }

  lemma HalvesRead(sp: Spelling)
    requires Plain(sp) && sp.quad == []
    ensures FromHalves(Body(sp)) == Some(Values(sp.head) + Zeros(8 - Count(sp)) + Values(sp.tail))
  {
    hide Groups, FromHalves, SplitDouble, Tidy, Hex, Join;
    var a, b := Join(sp.head, ':'), Join(sp.tail, ':');
    GroupsRead(sp.head);
    GroupsRead(sp.tail);
    assert sp.tail + [] == sp.tail && sp.head + [] == sp.head;
    if sp.compressed {
      SplitDoubleOnce(a, ':', b);
      TwoHalves(a + ([':', ':'] + b), a, b, Values(sp.head), Values(sp.tail));
    } else {
      SplitDoubleNone(a, ':');
      OneHalf(a, Values(sp.head));
      assert Values(sp.head) + Zeros(0) + Values([]) == Values(sp.head);
    }
  }

  // ---------------------------------------------------------------------------
  // Main results

  lemma PlainExpands(sp: Spelling, text: string)
    requires Plain(sp) && (sp.zone == "" || sp.zone[0] == '%') && text == Text(sp)
    ensures Expand(text) == Some(Spelled(sp.head, sp.tail, sp.quad))
  {
    hide Folded, FromHalves, Spelled, Zeros, Values, Body;
    BodyLacks(sp, '%');
    ZoneCut(Body(sp), sp.zone);
    FoldedBody(sp);
    HalvesRead(Unquad(sp));
    UnquadValues(sp);
  }

  lemma UnquadValues(sp: Spelling)
    requires Plain(sp)
    ensures Values(Unquad(sp).head) + Zeros(8 - Count(Unquad(sp))) + Values(Unquad(sp).tail)
         == Spelled(sp.head, sp.tail, sp.quad)
  {
    PairReads(sp.quad);
    ValuesAppend(sp.tail, Pair(sp.quad));
    ValuesAppend(sp.head, Pair(sp.quad));
    if !sp.compressed { assert Values(sp.tail) == [] && Zeros(0) == []; }
  }

  lemma ValuesAppend(a: seq<string>, b: seq<string>)
    ensures Values(a + b) == Values(a) + Values(b)
  {
  }

  lemma LoweredText(sp: Spelling)
    requires Legal(sp)
    ensures Lower(Text(sp)) == Text(Lowered(sp)) && Plain(Lowered(sp))
    ensures Lowered(sp).zone == "" || Lowered(sp).zone[0] == '%'
  {
    LowerAppend(Body(sp), sp.zone);
    LowerBody(sp);
  }

  /** Any legal spelling of eight hextets expands to them. */
  lemma ExpandsEverySpelling(sp: Spelling)
    requires Legal(sp)
    ensures Expand(Lower(Text(sp))) == Some(Hextets(sp))
  {
    LoweredText(sp);
    PlainExpands(Lowered(sp), Lower(Text(sp)));
  }

  lemma GroupBound(g: string)
    requires IsNumeral(g, 16, 4)
    ensures Value(g, 16) < 0x1_0000 && (Value(g, 16) > 0xfff ==> |g| == 4)
  {
    assert forall i :: 0 <= i < |g| ==> IsDigit(g[i], 16) && Digit(g[i]) < 16;
    ValueBound(g, 16);
    assert Power(16, 1) == 16 && Power(16, 2) == 256 && Power(16, 3) == 4096 && Power(16, 4) == 0x1_0000;
  }

  lemma GroupsBound(groups: seq<string>)
    requires Hex(groups)
    ensures forall i :: 0 <= i < |groups| ==> Values(groups)[i] < 0x1_0000
  {
    forall i | 0 <= i < |groups| ensures Values(groups)[i] < 0x1_0000 { GroupBound(groups[i]); }
  }

  lemma QuadBound(quad: seq<string>)
    requires LegalQuad(quad)
    ensures forall i :: 0 <= i < |QuadHextets(quad)| ==> QuadHextets(quad)[i] < 0x1_0000
  {
    if quad != [] {
      QuadTextReads(quad);
      HalvesOf(QuadNumber(quad));
    }
  }

  lemma HextetsBound(sp: Spelling)
    requires Legal(sp)
    ensures forall i :: 0 <= i < 8 ==> Hextets(sp)[i] < 0x1_0000
  {
    hide QuadHextets, Values, Lower;
    GroupsBound(LowerAll(sp.head));
    GroupsBound(LowerAll(sp.tail));
    QuadBound(sp.quad);
  }

  lemma DottedJudged(v: nat)
    requires v < TWO_32
    ensures IsReservedV4(Dotted(v)) <==> ReservedRange(v)
  {
    DottedReads(v);
    ReservedV4Exact(Dotted(v));
  }

  lemma EmbeddedJudged(lower: string, h: seq<nat>)
    requires EmbedsV4(h) && h[6] < 0x1_0000 && h[7] < 0x1_0000
    ensures Judged(lower, Some(h)) <==> ReservedRange(h[6] * 0x1_0000 + h[7])
  {
    var v := h[6] * 0x1_0000 + h[7];
    assert v % TWO_32 == v;
    DottedJudged(v);
  }

  /** An embedded IPv4 address is judged by the IPv4 intervals, however it is spelled. */
  lemma EmbeddedV4Exact(sp: Spelling)
    requires Legal(sp) && EmbedsV4(Hextets(sp))
    ensures IsReservedV6(Text(sp)) <==> ReservedRange(Hextets(sp)[6] * 0x1_0000 + Hextets(sp)[7])
  {
    ExpandsEverySpelling(sp);
    HextetsBound(sp);
    EmbeddedJudged(Lower(Text(sp)), Hextets(sp));
  }

  /** fe80::/10 and fc00::/7, by the first hextet. */
  predicate LocalPrefix(h: nat) {
    0xfe80 <= h <= 0xfebf || 0xfc00 <= h <= 0xfdff
  }

  lemma FourDigits(g: string)
    requires IsNumeral(g, 16, 4) && |g| == 4
    ensures Value(g, 16) == Digit(g[0]) * 0x1000 + Digit(g[1]) * 0x100 + Digit(g[2]) * 0x10 + Digit(g[3])
  {
    var three, two, one := g[..3], g[..2], g[..1];
    assert three[..2] == two && two[..1] == one && one[..0] == "";
    assert Value(one, 16) == Digit(g[0]);
    assert Value(two, 16) == Value(one, 16) * 16 + Digit(g[1]);
    assert Value(three, 16) == Value(two, 16) * 16 + Digit(g[2]);
    assert Value(g, 16) == Value(three, 16) * 16 + Digit(g[3]);
  }

  lemma LocalDigits(a: char, b: char, c: char, d: char)
    requires IsDigit(a, 16) && IsDigit(b, 16) && IsDigit(c, 16) && IsDigit(d, 16)
    ensures LocalPrefix(Digit(a) * 0x1000 + Digit(b) * 0x100 + Digit(c) * 0x10 + Digit(d))
       <==> a == 'f' && (b == 'c' || b == 'd' || (b == 'e' && c in "89ab"))
  {
  }

  lemma LocalGroup(g: string)
    requires IsNumeral(g, 16, 4) && |g| == 4
    ensures LooksLocal(g) <==> LocalPrefix(Value(g, 16))
  {
    FourDigits(g);
    assert forall i :: 0 <= i < 4 ==> IsDigit(g[i], 16);
    LocalDigits(g[0], g[1], g[2], g[3]);
    assert "fc" <= g <==> g[0] == 'f' && g[1] == 'c';
    assert "fd" <= g <==> g[0] == 'f' && g[1] == 'd';
  }

  lemma NotLocal(h: nat)
    requires h < 0xfc00
    ensures !LocalPrefix(h)
  {
  }

  /** A group that looks local is a local hextet or a short one. */
  lemma GroupLooks(g: string)
    requires IsNumeral(g, 16, 4)
    ensures LooksLocal(g) <==> LocalPrefix(Value(g, 16)) || (|g| < 4 && LooksLocal(g))
  {
    if |g| == 4 { LocalGroup(g); } else { GroupBound(g); }
  }

  /** Only the first group decides how the text looks. */
  lemma LooksLocalByGroup(g: string, rest: string)
    requires IsNumeral(g, 16, 4) && (rest != "" ==> rest[0] == ':')
    ensures LooksLocal(g + rest) <==> LooksLocal(g)
  {
    var s := g + rest;
    assert forall i :: 0 <= i < |g| ==> s[i] == g[i] && IsDigit(g[i], 16);
    assert |g| < |s| ==> s[|g|] == ':';
    assert "fc" <= s <==> |s| >= 2 && s[0] == 'f' && s[1] == 'c';
    assert "fd" <= s <==> |s| >= 2 && s[0] == 'f' && s[1] == 'd';
    assert "fc" <= g <==> |g| >= 2 && g[0] == 'f' && g[1] == 'c';
    assert "fd" <= g <==> |g| >= 2 && g[0] == 'f' && g[1] == 'd';
  }

  lemma JoinStarts(groups: seq<string>) returns (rest: string)
    requires groups != []
    ensures Join(groups, ':') == groups[0] + rest && (rest != "" ==> rest[0] == ':')
  {
    rest := if |groups| == 1 then "" else [':'] + Join(groups[1..], ':');
  }

  lemma BodyStarts(sp: Spelling) returns (rest: string)
    requires Plain(sp)
    ensures sp.head == [] ==> sp.compressed && Body(sp) == [':', ':'] + rest
    ensures sp.head != [] ==> Body(sp) == sp.head[0] + rest && rest != "" && rest[0] == ':'
  {
    if sp.head == [] {
      rest := Join(sp.tail + Last(sp.quad), ':');
    } else if sp.compressed {
      var more := JoinStarts(sp.head);
      rest := more + ([':', ':'] + Join(sp.tail + Last(sp.quad), ':'));
      Associates(sp.head[0], more, [':', ':'] + Join(sp.tail + Last(sp.quad), ':'));
    } else {
      rest := [':'] + Join((sp.head + Last(sp.quad))[1..], ':');
    }
  }

  lemma TextLooksLocal(sp: Spelling)
    requires Plain(sp)
    ensures LooksLocal(Text(sp)) <==> sp.head != [] && LooksLocal(sp.head[0])
  {
    var rest := BodyStarts(sp);
    if sp.head != [] {
      Associates(sp.head[0], rest, sp.zone);
      LooksLocalByGroup(sp.head[0], rest + sp.zone);
    } else {
      assert Text(sp)[0] == ':';
    }
  }

  /** A first group that is not zero is the first hextet; without one the address starts with zeros. */
  lemma FirstHextet(sp: Spelling)
    requires Legal(sp)
    ensures Hextets(sp)[0] == if sp.head == [] then 0 else Value(Lower(sp.head[0]), 16)
  {
  }

  /**
    Every legal spelling outside the embedded range is reported exactly when its first hextet is
    local, or its first group is short and merely looks so.
   */
  lemma ReservedV6Exact(sp: Spelling)
    requires Legal(sp) && !EmbedsV4(Hextets(sp))
    ensures IsReservedV6(Text(sp)) <==>
            || LocalPrefix(Hextets(sp)[0])
            || (sp.head != [] && |sp.head[0]| < 4 && LooksLocal(Lower(sp.head[0])))
  {
    hide Expand, Text, Hextets, LooksLocal, EmbedsV4, LocalPrefix, Value;
    var low := Lowered(sp);
    ExpandsEverySpelling(sp);
    LoweredText(sp);
    TextLooksLocal(low);
    FirstHextet(sp);
    NotUnspecified(sp);
    if sp.head != [] { GroupLooks(low.head[0]); }
    assert !LocalPrefix(0) by { NotLocal(0); }
  }

  /** The two texts the code names are embedded addresses. */
  lemma UnspecifiedExpands(groups: seq<string>, text: string)
    requires Hex(groups) && |groups| <= 1 && text == [':', ':'] + Join(groups, ':')
    ensures Expand(text) == Some(Spelled([], groups, []))
  {
    var sp := Spelling([], true, groups, [], "");
    UnspecifiedText(sp);
    PlainExpands(sp, text);
  }

  lemma UnspecifiedText(sp: Spelling)
    requires sp.head == [] && sp.compressed && sp.quad == [] && sp.zone == ""
    ensures Text(sp) == [':', ':'] + Join(sp.tail, ':')
  {
    assert sp.tail + [] == sp.tail && Join(sp.head, ':') == "";
  }

  lemma UnspecifiedEmbeds(groups: seq<string>)
    requires |groups| <= 1
    ensures EmbedsV4(Spelled([], groups, []))
  {
  }

  lemma IsNotText(sp: Spelling, groups: seq<string>, text: string)
    requires Legal(sp) && !EmbedsV4(Hextets(sp))
    requires Hex(groups) && |groups| <= 1 && text == [':', ':'] + Join(groups, ':')
    ensures Lower(Text(sp)) != text
  {
    hide Expand, Spelled, Text, Join, EmbedsV4;
    ExpandsEverySpelling(sp);
    UnspecifiedExpands(groups, text);
    UnspecifiedEmbeds(groups);
  }

  lemma NotUnspecified(sp: Spelling)
    requires Legal(sp) && !EmbedsV4(Hextets(sp))
    ensures Lower(Text(sp)) != "::1" && Lower(Text(sp)) != "::"
  {
    assert "::" == [':', ':'] + Join([], ':') && "::1" == [':', ':'] + Join(["1"], ':');
    IsNotText(sp, [], "::");
    IsNotText(sp, ["1"], "::1");
  }

  /** Every spelling in fe80::/10 or fc00::/7 is reported. */
  lemma LocalIsReported(sp: Spelling)
    requires Legal(sp) && LocalPrefix(Hextets(sp)[0])
    ensures IsReservedV6(Text(sp))
  {
    ReservedV6Exact(sp);
  }

  /** But fc::1, whose first hextet is 0x00fc, is reported too. */
  lemma ShortGroupIsReported()
    ensures var sp := Spelling(["fc"], true, ["1"], [], "");
            Legal(sp) && Hextets(sp)[0] == 0xfc && Text(sp) == "fc::1" && IsReservedV6("fc::1")
  {
    var sp := Spelling(["fc"], true, ["1"], [], "");
    assert Lower("fc") == "fc" && Lower("1") == "1";
    assert Value("fc", 16) == 0xfc by { assert "fc"[..1] == "f" && "f"[..0] == ""; }
    assert Text(sp) == "fc::1";
    FirstHextet(sp);
    ReservedV6Exact(sp);
  }

  /** A hex digit in either case, and its value. */
  function AnyHex(c: char): Option<nat> {
    if '0' <= c <= '9' then Some((c - '0') as nat)
    else if 'a' <= c <= 'f' then Some((c - 'a') as nat + 10)
    else if 'A' <= c <= 'F' then Some((c - 'A') as nat + 10)
    else None
  }

  /** The groups a spelling may have: one to four hex digits in either case, each with its own value. */
  lemma GroupsInAnyCase(g: string)
    ensures IsNumeral(Lower(g), 16, 4) <==> 1 <= |g| <= 4 && forall i :: 0 <= i < |g| ==> AnyHex(g[i]).Some?
    ensures forall i :: 0 <= i < |g| && AnyHex(g[i]).Some? ==> Digit(Lower(g)[i]) == AnyHex(g[i]).value
  {
    hide IsDigit, AnyHex, Digit, LowerChar;
    forall i | 0 <= i < |g|
      ensures IsDigit(Lower(g)[i], 16) <==> AnyHex(g[i]).Some?
      ensures AnyHex(g[i]).Some? ==> Digit(Lower(g)[i]) == AnyHex(g[i]).value
    {
      DigitInAnyCase(g[i]);
    }
  }

  lemma DigitInAnyCase(c: char)
    ensures IsDigit(LowerChar(c), 16) <==> AnyHex(c).Some?
    ensures AnyHex(c).Some? ==> Digit(LowerChar(c)) == AnyHex(c).value
  {
  }

  /** Whatever text is expanded gives eight hextets and holds at most one compressed run; others are refused. */
  lemma ExpandedIsWhole(ip: string)
    requires Expand(ip).Some?
    ensures |Expand(ip).value| == 8 && forall i :: 0 <= i < 8 ==> Expand(ip).value[i] < 0x1_0000
    ensures var folded := Folded(ip[..Find(ip, '%')]);
            folded.Some? && |SplitDouble(folded.value, ':')| <= 2
  {
    hide SplitDouble, Folded;
    HalvesAreWhole(Folded(ip[..Find(ip, '%')]).value);
  }

  lemma GroupsAreSmall(part: string)
    requires Groups(part).Some?
    ensures forall i :: 0 <= i < |Groups(part).value| ==> Groups(part).value[i] < 0x1_0000
  {
    if part != "" { GroupsBound(Split(part, ':')); }
  }

  lemma HalvesAreWhole(folded: string)
    requires FromHalves(folded).Some?
    ensures |SplitDouble(folded, ':')| <= 2
    ensures |FromHalves(folded).value| == 8
    ensures forall i :: 0 <= i < 8 ==> FromHalves(folded).value[i] < 0x1_0000
  {
    hide SplitDouble, Groups;
    var halves := SplitDouble(folded, ':');
    GroupsAreSmall(halves[0]);
    if |halves| == 2 { GroupsAreSmall(halves[1]); }
  }
}
