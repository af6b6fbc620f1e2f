/**
  Base32 for TOTP secrets (server/src/app.ts, base32Encode and base32Decode).

  Both loops keep a 32-bit accumulator that is never masked down to the bits still pending, so
  its high bits overflow freely. Shifts are written as arithmetic on the unsigned 32-bit value.
  The reference is section 6 of RFC 4648 without padding characters: the input as a bit string,
  cut into groups of five with the last one filled up with zeros. A char is a Unicode scalar.
 */
module Base32 {
  import Strings
  import opened Wrappers

  type Byte = b: int | 0 <= b < 256

  const WORD: int := 0x1_0000_0000
  const BASE32_ALPHABET: string := "ABCDEFGHIJKLMNOPQRSTUVWXYZ234567"

  function Pow2(n: nat): (p: nat)
    ensures 0 < p
  {
    if n == 0 then 1 else 2 * Pow2(n - 1)
  }

  // ---------------------------------------------------------------------------
  // The reference

  /** The low `n` bits of `v`, most significant first. */
  function LowBits(v: nat, n: nat): (bits: seq<bool>)
    ensures |bits| == n
  {
    if n == 0 then [] else LowBits(v / 2, n - 1) + [v % 2 == 1]
  }

  function Value(bits: seq<bool>): nat {
    if bits == [] then 0
    else 2 * Value(bits[..|bits| - 1]) + (if bits[|bits| - 1] then 1 else 0)
  }

  function Bits(bytes: seq<Byte>): (bits: seq<bool>)
    ensures |bits| == 8 * |bytes|
  {
    if bytes == [] then [] else Bits(bytes[..|bytes| - 1]) + LowBits(bytes[|bytes| - 1], 8)
  }

  function Zeros(n: nat): (z: seq<bool>)
    ensures |z| == n
  {
    seq(n, _ => false)
  }

  /** The symbol of one five-bit group. */
  function Symbol(group: seq<bool>): char
    requires |group| == 5
  {
    ValueBound(group);
    BASE32_ALPHABET[Value(group)]
  }

  /** Five bits to a symbol; a short last group is filled up with zeros. */
  function Symbols(bits: seq<bool>): string {
    if bits == [] then ""
    else if |bits| < 5 then [Symbol(bits + Zeros(5 - |bits|))]
    else [Symbol(bits[..5])] + Symbols(bits[5..])
  }

  /** The unpadded base32 encoding of section 6 of RFC 4648. */
  function Encoding(bytes: seq<Byte>): string {
    Symbols(Bits(bytes))
  }

  /** Eight bits to an octet; what is left over at the end is dropped. */
  function Octets(bits: seq<bool>): seq<Byte> {
    if |bits| < 8 then []
    else (ValueBound(bits[..8]); [Value(bits[..8])] + Octets(bits[8..]))
  }

  function IndexFrom(c: char, i: nat): int
    requires i <= |BASE32_ALPHABET|
    ensures -1 <= IndexFrom(c, i) < |BASE32_ALPHABET|
    decreases |BASE32_ALPHABET| - i
  {
    if i == |BASE32_ALPHABET| then -1
    else if BASE32_ALPHABET[i] == c then i else IndexFrom(c, i + 1)
  }

  /** indexOf in the alphabet, -1 when absent. */
  function IndexOf(c: char): int { IndexFrom(c, 0) }

  /** The alphabet is table 3 of section 6 of RFC 4648: the letters, then the digits from 2 to 7. */
  lemma AlphabetIsRfc(i: nat)
    requires i < 32
    ensures |BASE32_ALPHABET| == 32
    ensures BASE32_ALPHABET[i] == if i < 26 then 'A' + i as char else '2' + (i - 26) as char
  {
    assert BASE32_ALPHABET[..26] == "ABCDEFGHIJKLMNOPQRSTUVWXYZ" && BASE32_ALPHABET[26..] == "234567";
  }

  /**
    The upper case of a character: of all characters outside ASCII, only dotless i, long s, sharp s
    and the Latin ligatures become letters of the alphabet. The others are left as they are; in
    upper or lower case they hold a character the decoder rejects.
   */
  function UpperText(c: char): string {
    if 'a' <= c <= 'z' then [c - 'a' + 'A']
    else if c == '\U{131}' then "I"
    else if c == '\U{17F}' then "S"
    else if c == '\U{DF}' then "SS"
    else if c == '\U{FB00}' then "FF"
    else if c == '\U{FB01}' then "FI"
    else if c == '\U{FB02}' then "FL"
    else if c == '\U{FB03}' then "FFI"
    else if c == '\U{FB04}' then "FFL"
    else if c == '\U{FB05}' || c == '\U{FB06}' then "ST"
    else [c]
  }

  function Upper(s: string): string {
    if s == "" then "" else UpperText(s[0]) + Upper(s[1..])
  }

  /** Drop trailing padding characters. */
  function StripPadding(s: string): string {
    if s != "" && s[|s| - 1] == '=' then StripPadding(s[..|s| - 1]) else s
  }

  function FiveBits(c: char): (bits: seq<bool>)
    ensures |bits| == 5
  {
    LowBits(if IndexOf(c) < 0 then 0 else IndexOf(c), 5)
  }

  function Gather(s: string, bits: char -> seq<bool>): seq<bool> {
    if s == "" then [] else Gather(s[..|s| - 1], bits) + bits(s[|s| - 1])
  }

  /** The bits a symbol string stands for. */
  function SymbolBits(s: string): seq<bool> { Gather(s, FiveBits) }

  predicate InAlphabet(s: string) {
    forall i :: 0 <= i < |s| ==> IndexOf(s[i]) >= 0
  }

  function Decoding(input: string): Option<seq<Byte>> {
    var text := StripPadding(Upper(input));
    if InAlphabet(text) then Some(Octets(SymbolBits(text))) else None
  }

  // ---------------------------------------------------------------------------
  // Bits and numbers

  lemma {:induction false} ValueBound(bits: seq<bool>)
    ensures Value(bits) < Pow2(|bits|)
    ensures |bits| == 5 ==> Value(bits) < 32
    ensures |bits| == 8 ==> Value(bits) < 256
  {
    if bits != [] { ValueBound(bits[..|bits| - 1]); }
    assert Pow2(5) == 32 && Pow2(8) == 256;
  }

  lemma MulMonotone(a: nat, b: nat, d: nat)
    requires a <= b
    ensures a * d <= b * d
  {
    assert (b - a) * d >= 0;
    assert b * d == a * d + (b - a) * d;
  }

  lemma DivUnique(v: nat, d: nat, q: nat, r: nat)
    requires v == q * d + r && r < d
    ensures v / d == q && v % d == r
  {
    var k := v / d;
    assert k * d <= v < k * d + d;
    if k < q { MulMonotone(k + 1, q, d); }
    if q < k { MulMonotone(q + 1, k, d); }
  }

  lemma ModPow2(v: nat, n: nat)
    requires 0 < n
    ensures v % Pow2(n) == 2 * ((v / 2) % Pow2(n - 1)) + v % 2
  {
    var p := Pow2(n - 1);
    var q, r := (v / 2) / p, (v / 2) % p;
    assert q * (2 * p) == 2 * (q * p);
    DivUnique(v, 2 * p, q, 2 * r + v % 2);
  }

  lemma DivPow2(v: nat, m: nat)
    requires 0 < m
    ensures v / Pow2(m) == (v / 2) / Pow2(m - 1)
  {
    var p := Pow2(m - 1);
    var q, r := (v / 2) / p, (v / 2) % p;
    assert v == 2 * (q * p + r) + v % 2;
    assert v == q * (2 * p) + (2 * r + v % 2) by { assert q * (2 * p) == 2 * (q * p); }
    DivUnique(v, 2 * p, q, 2 * r + v % 2);
  }

  /** Appending `k` bits is shifting left by `k` and adding. */
  lemma {:induction false} LowBitsAppend(v: nat, n: nat, low: nat, k: nat)
    requires low < Pow2(k)
    ensures LowBits(v * Pow2(k) + low, n + k) == LowBits(v, n) + LowBits(low, k)
  {
    if k > 0 {
      var p := Pow2(k - 1);
      assert v * Pow2(k) == 2 * (v * p);
      assert (v * Pow2(k) + low) / 2 == v * p + low / 2;
      LowBitsAppend(v, n, low / 2, k - 1);
    } else {
      assert LowBits(low, 0) == [];
    }
  }

  lemma HalfOfMod(v: nat, m: nat)
    requires 0 < m
    ensures (v % Pow2(m)) / 2 == (v / 2) % Pow2(m - 1) && (v % Pow2(m)) % 2 == v % 2
  {
    ModPow2(v, m);
    HalfOf((v / 2) % Pow2(m - 1), v % 2);
  }

  lemma HalfOf(a: nat, b: nat)
    requires b < 2
    ensures (2 * a + b) / 2 == a && (2 * a + b) % 2 == b
  {
  }

  /** The low bits do not see what overflows the word. */
  lemma {:induction false} LowBitsMod(v: nat, n: nat, m: nat)
    requires n <= m
    ensures LowBits(v % Pow2(m), n) == LowBits(v, n)
  {
    if n > 0 {
      HalfOfMod(v, m);
      LowBitsMod(v / 2, n - 1, m - 1);
    }
  }

  /** Shifting right drops the last bits. */
  lemma {:induction false} LowBitsSplit(v: nat, n: nat, m: nat)
    requires m <= n
    ensures LowBits(v, n)[..n - m] == LowBits(v / Pow2(m), n - m)
    ensures LowBits(v, n)[n - m..] == LowBits(v, m)
  {
    if m > 0 {
      DivPow2(v, m);
      LowBitsSplit(v / 2, n - 1, m - 1);
    }
  }

  lemma {:induction false} ValueOfLowBits(v: nat, n: nat)
    ensures Value(LowBits(v, n)) == v % Pow2(n)
  {
    if n > 0 {
      ValueOfLowBits(v / 2, n - 1);
      ModPow2(v, n);
      assert LowBits(v, n)[..n - 1] == LowBits(v / 2, n - 1);
    }
  }

  lemma {:induction false} LowBitsOfValue(bits: seq<bool>)
    ensures LowBits(Value(bits), |bits|) == bits
  {
    if bits != [] { LowBitsOfValue(bits[..|bits| - 1]); }
  }

  /** The word is wide enough for everything pending, so truncation to it is invisible. */
  lemma PushBits(value: nat, bits: nat, low: nat, k: nat)
    requires bits + k <= 32 && low < Pow2(k)
    ensures LowBits((value * Pow2(k) + low) % WORD, bits + k) == LowBits(value, bits) + LowBits(low, k)
  {
    assert Pow2(32) == WORD by { Pow2Word(); }
    LowBitsAppend(value, bits, low, k);
    LowBitsMod(value * Pow2(k) + low, bits + k, 32);
  }

  lemma Pow2Word()
    ensures Pow2(32) == WORD
  {
    assert Pow2(8) == 0x100;
    assert Pow2(16) == 0x1_0000;
    assert Pow2(24) == 0x100_0000;
  }

  /** Taking the top `k` of the pending bits is shifting right and masking. */
  lemma PopBits(value: nat, bits: nat, k: nat, rest: nat, shifted: nat)
    requires bits == k + rest && shifted == value / Pow2(rest)
    ensures Value(LowBits(value, bits)[..k]) == shifted % Pow2(k)
    ensures LowBits(value, bits)[k..] == LowBits(value, rest)
  {
    LowBitsSplit(value, bits, rest);
    ValueOfLowBits(shifted, k);
  }

  // ---------------------------------------------------------------------------
  // The encoder

  lemma SymbolsCons(group: seq<bool>, rest: seq<bool>)
    requires |group| == 5
    ensures Symbols(group + rest) == [Symbol(group)] + Symbols(rest)
  {
    assert (group + rest)[..5] == group && (group + rest)[5..] == rest;
  }

  /** Output grows by whole groups: symbols of a prefix, then symbols of the rest. */
  lemma {:induction false} SymbolsAppend(a: seq<bool>, b: seq<bool>)
    requires |a| % 5 == 0
    ensures Symbols(a + b) == Symbols(a) + Symbols(b)
  {
    if a == [] {
      assert a + b == b;
    } else {
      var group, rest := a[..5], a[5..];
      SymbolsAppend(rest, b);
      SymbolsCons(group, rest);
      SymbolsCons(group, rest + b);
      assert a == group + rest;
      Strings.Associates(group, rest, b);
      Strings.Associates([Symbol(group)], Symbols(rest), Symbols(b));
    }
  }

  /** What is out so far and what is pending together are the bits read so far. */
  ghost predicate Encoded(bits: seq<bool>, output: string, value: nat, pending: nat) {
    && pending <= |bits| && (|bits| - pending) % 5 == 0
    && output == Symbols(bits[..|bits| - pending])
    && bits[|bits| - pending..] == LowBits(value, pending)
  }

  /** Reading more bits leaves what is out alone and lengthens what is pending. */
  lemma ReadMore(bits: seq<bool>, low: seq<bool>, done: nat)
    requires done <= |bits|
    ensures (bits + low)[..done] == bits[..done]
    ensures (bits + low)[done..] == bits[done..] + low
  {
  }

  lemma TakeByte(bits: seq<bool>, output: string, value: nat, pending: nat, b: Byte)
    requires Encoded(bits, output, value, pending) && pending <= 24
    ensures Encoded(bits + LowBits(b, 8), output, (value * 256 + b) % WORD, pending + 8)
  {
    hide Symbols, LowBits;
    assert Pow2(8) == 256;
    PushBits(value, pending, b, 8);
    ReadMore(bits, LowBits(b, 8), |bits| - pending);
  }

  lemma Cut(bits: seq<bool>, done: nat, k: nat)
    requires done + k <= |bits|
    ensures bits[..done + k] == bits[..done] + bits[done..][..k]
    ensures bits[done + k..] == bits[done..][k..]
  {
  }

  lemma OneGroup(group: seq<bool>)
    requires |group| == 5
    ensures Symbols(group) == [Symbol(group)]
  {
    assert group[5..] == [] && group[..5] == group;
  }

  /** The next whole group moves from what is pending to what is out. */
  lemma PutGroup(bits: seq<bool>, output: string, done: nat, low: seq<bool>)
    requires done <= |bits| && done % 5 == 0 && output == Symbols(bits[..done])
    requires bits[done..] == low && 5 <= |low|
    ensures output + [Symbol(low[..5])] == Symbols(bits[..done + 5]) && bits[done + 5..] == low[5..]
  {
    Cut(bits, done, 5);
    SymbolsAppend(bits[..done], low[..5]);
    OneGroup(low[..5]);
  }

  lemma PutSymbol(bits: seq<bool>, output: string, value: nat, pending: nat)
    requires Encoded(bits, output, value, pending) && 5 <= pending
    ensures (value / Pow2(pending - 5)) % 32 < |BASE32_ALPHABET|
    ensures Encoded(bits, output + [BASE32_ALPHABET[(value / Pow2(pending - 5)) % 32]], value, pending - 5)
  {
    assert Pow2(5) == 32;
    PopBits(value, pending, 5, pending - 5, value / Pow2(pending - 5));
    PutGroup(bits, output, |bits| - pending, LowBits(value, pending));
  }

  lemma PutLast(bits: seq<bool>, output: string, value: nat, pending: nat)
    requires Encoded(bits, output, value, pending) && 0 < pending < 5
    ensures (value * Pow2(5 - pending)) % 32 < |BASE32_ALPHABET|
    ensures output + [BASE32_ALPHABET[(value * Pow2(5 - pending)) % 32]] == Symbols(bits)
  {
    hide LowBits, Zeros;
    var done := |bits| - pending;
    var last := bits[done..];
    assert Pow2(5) == 32;
    LowBitsAppend(value, pending, 0, 5 - pending);
    ZeroBits(5 - pending);
    ValueOfLowBits(value * Pow2(5 - pending), 5);
    assert last + Zeros(5 - pending) == LowBits(value * Pow2(5 - pending), 5);
    SymbolsAppend(bits[..done], last);
    assert bits == bits[..done] + last;
  }

  lemma {:induction false} ZeroBits(n: nat)
    ensures LowBits(0, n) == Zeros(n)
  {
    if n > 0 {
      ZeroBits(n - 1);
      assert Zeros(n) == Zeros(n - 1) + [false];
    }
  }

  /** The inner loop: whole symbols go out. */
  method PutSymbols(ghost read: seq<bool>, before: string, value: nat, pending: nat)
    returns (output: string, left: nat)
    requires Encoded(read, before, value, pending) && value < WORD
    ensures Encoded(read, output, value, left) && left < 5
  {
    output, left := before, pending;
    while left >= 5
      invariant Encoded(read, output, value, left)
    {
      PutSymbol(read, output, value, left);
      output := output + [BASE32_ALPHABET[(value / Pow2(left - 5)) % 32]];
      left := left - 5;
    }
  }

  lemma EncodedStart(bits: seq<bool>)
    requires bits == []
    ensures Encoded(bits, "", 0, 0)
  {
  }

  lemma EncodedEnd(bits: seq<bool>, output: string, value: nat)
    requires Encoded(bits, output, value, 0)
    ensures output == Symbols(bits)
  {
    assert bits[..|bits|] == bits;
  }

  /** base32Encode. The accumulator keeps whatever overflows the pending bits. */
  method Encode(input: seq<Byte>) returns (output: string)
    ensures output == Encoding(input)
  {
    var bits, value := 0, 0;
    output := "";
    var i := 0;
    EncodedStart(Bits(input[..0]));
    while i < |input|
      invariant 0 <= i <= |input| && 0 <= bits < 5 && 0 <= value < WORD
      invariant Encoded(Bits(input[..i]), output, value, bits)
    {
      assert input[..i + 1][..i] == input[..i];
      TakeByte(Bits(input[..i]), output, value, bits, input[i]);
      value := (value * 256 + input[i]) % WORD;
      output, bits := PutSymbols(Bits(input[..i + 1]), output, value, bits + 8);
      i := i + 1;
    }
    assert input[..i] == input;
    if bits > 0 {
      PutLast(Bits(input), output, value, bits);
      output := output + [BASE32_ALPHABET[(value * Pow2(5 - bits)) % 32]];
    } else {
      EncodedEnd(Bits(input), output, value);
    }
  }

  // ---------------------------------------------------------------------------
  // The decoder

  lemma GatherOne(c: char, bits: char -> seq<bool>)
    ensures Gather([c], bits) == bits(c)
  {
    assert [c][..0] == "";
    assert [] + bits(c) == bits(c);
  }

  lemma {:induction false} GatherAppend(a: string, b: string, bits: char -> seq<bool>)
    ensures Gather(a + b, bits) == Gather(a, bits) + Gather(b, bits)
  {
    if b == "" {
      assert a + b == a;
    } else {
      var front := b[..|b| - 1];
      GatherAppend(a, front, bits);
      assert (a + b)[..|a + b| - 1] == a + front && (a + b)[|a + b| - 1] == b[|b| - 1];
      GatherLast(a + b, bits);
      GatherLast(b, bits);
    }
  }

  lemma GatherLast(s: string, bits: char -> seq<bool>)
    requires s != ""
    ensures Gather(s, bits) == Gather(s[..|s| - 1], bits) + bits(s[|s| - 1])
  {
  }

  lemma OctetsOfEight(bits: seq<bool>)
    requires |bits| == 8
    ensures Octets(bits) == [Value(bits)]
  {
    assert bits[..8] == bits && Octets(bits[8..]) == [];
  }

  lemma OctetsCons(octet: seq<bool>, rest: seq<bool>)
    requires |octet| == 8
    ensures Octets(octet + rest) == (ValueBound(octet); [Value(octet)] + Octets(rest))
  {
    assert (octet + rest)[..8] == octet && (octet + rest)[8..] == rest;
  }

  lemma {:induction false} OctetsAppend(a: seq<bool>, b: seq<bool>)
    requires |a| % 8 == 0
    ensures Octets(a + b) == Octets(a) + Octets(b)
  {
    if a == [] {
      assert a + b == b;
    } else {
      var octet, rest := a[..8], a[8..];
      OctetsAppend(rest, b);
      OctetsCons(octet, rest);
      OctetsCons(octet, rest + b);
      assert a == octet + rest;
      Strings.Associates(octet, rest, b);
      ValueBound(octet);
      Strings.Associates([Value(octet)], Octets(rest), Octets(b));
    }
  }

  ghost predicate Decoded(bits: seq<bool>, bytes: seq<Byte>, value: nat, pending: nat) {
    && pending <= |bits| && (|bits| - pending) % 8 == 0
    && bytes == Octets(bits[..|bits| - pending])
    && bits[|bits| - pending..] == LowBits(value, pending)
  }

  lemma TakeSymbol(bits: seq<bool>, bytes: seq<Byte>, value: nat, pending: nat, index: nat)
    requires Decoded(bits, bytes, value, pending) && pending <= 27 && index < 32
    ensures Decoded(bits + LowBits(index, 5), bytes, (value * 32 + index) % WORD, pending + 5)
  {
    hide Octets, LowBits;
    assert Pow2(5) == 32;
    PushBits(value, pending, index, 5);
    ReadMore(bits, LowBits(index, 5), |bits| - pending);
  }

  lemma PutOctet(bits: seq<bool>, bytes: seq<Byte>, done: nat, low: seq<bool>)
    requires done <= |bits| && done % 8 == 0 && bytes == Octets(bits[..done])
    requires bits[done..] == low && 8 <= |low|
    ensures Value(low[..8]) < 256
    ensures bytes + [Value(low[..8])] == Octets(bits[..done + 8]) && bits[done + 8..] == low[8..]
  {
    ValueBound(low[..8]);
    Cut(bits, done, 8);
    OctetsAppend(bits[..done], low[..8]);
    OctetsOfEight(low[..8]);
  }

  lemma TopOctet(value: nat, pending: nat)
    requires 8 <= pending
    ensures Value(LowBits(value, pending)[..8]) == (value / Pow2(pending - 8)) % 256
    ensures LowBits(value, pending)[8..] == LowBits(value, pending - 8)
  {
    assert Pow2(8) == 256;
    PopBits(value, pending, 8, pending - 8, value / Pow2(pending - 8));
  }

  lemma DecodedNext(bits: seq<bool>, bytes: seq<Byte>, value: nat, pending: nat, octet: Byte)
    requires Decoded(bits, bytes, value, pending) && 8 <= pending && octet == Value(LowBits(value, pending)[..8])
    requires LowBits(value, pending)[8..] == LowBits(value, pending - 8)
    ensures Decoded(bits, bytes + [octet], value, pending - 8)
  {
    hide Octets, LowBits, Value;
    PutOctet(bits, bytes, |bits| - pending, LowBits(value, pending));
  }

  lemma PutByte(bits: seq<bool>, bytes: seq<Byte>, value: nat, pending: nat)
    requires Decoded(bits, bytes, value, pending) && 8 <= pending
    ensures Decoded(bits, bytes + [(value / Pow2(pending - 8)) % 256], value, pending - 8)
  {
    TopOctet(value, pending);
    DecodedNext(bits, bytes, value, pending, (value / Pow2(pending - 8)) % 256);
  }

  /** The state of the decoder after `i` characters. */
  ghost predicate DecodedTo(text: string, i: nat, bytes: seq<Byte>, value: nat, pending: nat) {
    i <= |text| && InAlphabet(text[..i]) && Decoded(SymbolBits(text[..i]), bytes, value, pending)
  }

  lemma AlphabetNext(text: string, i: nat)
    requires i < |text| && IndexOf(text[i]) >= 0 && InAlphabet(text[..i])
    ensures InAlphabet(text[..i + 1])
  {
    assert text[..i + 1] == text[..i] + [text[i]];
  }

  lemma SymbolBitsNext(text: string, i: nat)
    requires i < |text| && IndexOf(text[i]) >= 0
    ensures SymbolBits(text[..i + 1]) == SymbolBits(text[..i]) + LowBits(IndexOf(text[i]), 5)
  {
    assert text[..i + 1] == text[..i] + [text[i]];
    GatherAppend(text[..i], [text[i]], FiveBits);
    GatherOne(text[i], FiveBits);
  }

  lemma ReadSymbol(text: string, i: nat, bytes: seq<Byte>, value: nat, pending: nat)
    requires i < |text| && IndexOf(text[i]) >= 0 && pending <= 27
    requires DecodedTo(text, i, bytes, value, pending)
    ensures DecodedTo(text, i + 1, bytes, (value * 32 + IndexOf(text[i])) % WORD, pending + 5)
  {
    hide Decoded, SymbolBits, LowBits, InAlphabet;
    AlphabetNext(text, i);
    SymbolBitsNext(text, i);
    TakeSymbol(SymbolBits(text[..i]), bytes, value, pending, IndexOf(text[i]));
  }

  lemma ReadAll(text: string, bytes: seq<Byte>, value: nat, pending: nat)
    requires DecodedTo(text, |text|, bytes, value, pending) && pending < 8
    ensures InAlphabet(text) && Octets(SymbolBits(text)) == bytes
  {
    assert text[..|text|] == text;
    LeftoverDropped(SymbolBits(text), bytes, value, pending);
  }

  method PushSymbol(text: string, i: nat, ghost bytes: seq<Byte>, value: nat, ghost bits: nat) returns (shifted: nat)
    requires i < |text| && IndexOf(text[i]) >= 0 && bits < 8
    requires DecodedTo(text, i, bytes, value, bits)
    ensures DecodedTo(text, i + 1, bytes, shifted, bits + 5) && shifted < WORD
  {
    ReadSymbol(text, i, bytes, value, bits);
    shifted := (value * 32 + IndexOf(text[i])) % WORD;
  }

  method PopOctet(ghost text: string, ghost i: nat, bytes: seq<Byte>, value: nat, bits: nat) returns (grown: seq<Byte>)
    requires bits >= 8 && DecodedTo(text, i, bytes, value, bits)
    ensures DecodedTo(text, i, grown, value, bits - 8)
  {
    PutByte(SymbolBits(text[..i]), bytes, value, bits);
    grown := bytes + [(value / Pow2(bits - 8)) % 256];
  }

  lemma DecodedStart(text: string)
    ensures DecodedTo(text, 0, [], 0, 0)
  {
  }

  /** base32Decode; nothing stands for the thrown error. */
  method Decode(input: string) returns (result: Option<seq<Byte>>)
    ensures result == Decoding(input)
  {
    var text := StripPadding(Upper(input));
    var bits, value := 0, 0;
    var bytes: seq<Byte> := [];
    var i := 0;
    DecodedStart(text);
    while i < |text|
      invariant 0 <= i <= |text| && 0 <= bits < 8 && 0 <= value < WORD
      invariant DecodedTo(text, i, bytes, value, bits)
    {
      if IndexOf(text[i]) < 0 { return None; }
      value := PushSymbol(text, i, bytes, value, bits);
      bits := bits + 5;
      if bits >= 8 {
        bytes := PopOctet(text, i + 1, bytes, value, bits);
        bits := bits - 8;
      }
      i := i + 1;
    }
    ReadAll(text, bytes, value, bits);
    result := Some(bytes);
  }

  lemma LeftoverDropped(bits: seq<bool>, bytes: seq<Byte>, value: nat, pending: nat)
    requires Decoded(bits, bytes, value, pending) && pending < 8
    ensures Octets(bits) == bytes
  {
    var done := |bits| - pending;
    OctetsAppend(bits[..done], bits[done..]);
    assert bits == bits[..done] + bits[done..];
    assert Octets(bits[done..]) == [];
  }

  // ---------------------------------------------------------------------------
  // Round trip

  lemma AlphabetDistinct()
    ensures forall i, j :: 0 <= i < j < 32 ==> BASE32_ALPHABET[i] != BASE32_ALPHABET[j]
    ensures forall i :: 0 <= i < 32 ==>
              UpperText(BASE32_ALPHABET[i]) == [BASE32_ALPHABET[i]] && BASE32_ALPHABET[i] != '='
  {
    assert forall i :: 0 <= i < 32 ==> BASE32_ALPHABET[i] as int == (if i < 26 then 65 + i else 24 + i);
  }

  lemma {:induction false} IndexOfSymbol(i: nat, from: nat)
    requires from <= i < 32
    ensures IndexFrom(BASE32_ALPHABET[i], from) == i
    decreases i - from
  {
    AlphabetDistinct();
    if from < i { IndexOfSymbol(i, from + 1); }
  }

  lemma SymbolIsBits(group: seq<bool>)
    requires |group| == 5
    ensures IndexOf(Symbol(group)) == Value(group)
    ensures LowBits(IndexOf(Symbol(group)), 5) == group
    ensures UpperText(Symbol(group)) == [Symbol(group)] && Symbol(group) != '='
  {
    ValueBound(group);
    IndexOfSymbol(Value(group), 0);
    LowBitsOfValue(group);
    AlphabetDistinct();
  }

  /** How many zero bits fill up the last group. */
  function Fill(n: nat): (fill: nat)
    ensures fill < 5
  {
    if n % 5 == 0 then 0 else 5 - n % 5
  }

  lemma FillStep(n: nat)
    requires 5 <= n
    ensures Fill(n - 5) == Fill(n)
  {
  }

  lemma OneSymbol(group: seq<bool>)
    requires |group| == 5
    ensures SymbolBits([Symbol(group)]) == group
  {
    SymbolIsBits(group);
    GatherOne(Symbol(group), FiveBits);
  }

  /** A symbol, in upper case. */
  predicate Plain(c: char) {
    UpperText(c) == [c] && c != '=' && IndexOf(c) >= 0
  }

  lemma {:induction false} SymbolsShape(bits: seq<bool>)
    ensures |Symbols(bits)| == (|bits| + 4) / 5
    ensures forall i :: 0 <= i < |Symbols(bits)| ==> Plain(Symbols(bits)[i])
  {
    if 0 < |bits| < 5 {
      SymbolIsBits(bits + Zeros(5 - |bits|));
    } else if 5 <= |bits| {
      SymbolsShape(bits[5..]);
      SymbolIsBits(bits[..5]);
    }
  }

  lemma Regroup(bits: seq<bool>, zeros: seq<bool>)
    requires 5 <= |bits|
    ensures bits[..5] + (bits[5..] + zeros) == bits + zeros
  {
  }

  /** Reading symbols back gives the bits and the zeros that filled the last group. */
  lemma {:induction false} SymbolsRoundTrip(bits: seq<bool>)
    ensures SymbolBits(Symbols(bits)) == bits + Zeros(Fill(|bits|))
  {
    if bits == [] {
      assert bits + Zeros(0) == bits;
    } else if |bits| < 5 {
      OneSymbol(bits + Zeros(5 - |bits|));
    } else {
      var group, rest := bits[..5], bits[5..];
      SymbolsRoundTrip(rest);
      OneSymbol(group);
      GatherAppend([Symbol(group)], Symbols(rest), FiveBits);
      FillStep(|bits|);
      Regroup(bits, Zeros(Fill(|bits|)));
    }
  }

  lemma ValueOfOctet(b: Byte)
    ensures Value(LowBits(b, 8)) == b
  {
    ValueOfLowBits(b, 8);
    assert Pow2(8) == 256;
  }

  lemma OneOctet(b: Byte)
    ensures Octets(LowBits(b, 8)) == [b]
  {
    OctetsOfEight(LowBits(b, 8));
    ValueOfOctet(b);
  }

  lemma {:induction false} OctetsOfBits(bytes: seq<Byte>)
    ensures Octets(Bits(bytes)) == bytes
  {
    if bytes != [] {
      var front, last := bytes[..|bytes| - 1], bytes[|bytes| - 1];
      OctetsOfBits(front);
      OctetsAppend(Bits(front), LowBits(last, 8));
      OneOctet(last);
    }
  }

  lemma {:induction false} UpperFixed(s: string)
    requires forall i :: 0 <= i < |s| ==> UpperText(s[i]) == [s[i]]
    ensures Upper(s) == s
  {
    if s != "" { UpperFixed(s[1..]); }
  }

  lemma {:induction false} UpperAppend(a: string, b: string)
    ensures Upper(a + b) == Upper(a) + Upper(b)
  {
    if a == "" {
      assert a + b == b;
    } else {
      assert (a + b)[1..] == a[1..] + b;
      UpperAppend(a[1..], b);
      Strings.Associates(UpperText(a[0]), Upper(a[1..]), Upper(b));
    }
  }
  lemma {:induction false} StripPads(s: string, n: nat)
    requires forall i :: 0 <= i < |s| ==> s[i] != '='
    ensures StripPadding(s + seq(n, _ => '=')) == s
  {
    var padded := s + seq(n, _ => '=');
    if n > 0 {
      assert padded[..|padded| - 1] == s + seq(n - 1, _ => '=');
      StripPads(s, n - 1);
    } else {
      assert padded == s;
    }
  }

  /** Case and padding do not survive normalisation. */
  lemma Normalised(spelling: string, code: string, pads: nat)
    requires Upper(spelling) == code && forall i :: 0 <= i < |code| ==> Plain(code[i])
    ensures StripPadding(Upper(spelling + seq(pads, _ => '='))) == code
  {
    UpperAppend(spelling, seq(pads, _ => '='));
    UpperFixed(seq(pads, _ => '='));
    StripPads(code, pads);
  }

  lemma ShortTailDropped(bits: seq<bool>, tail: seq<bool>)
    requires |bits| % 8 == 0 && |tail| < 8
    ensures Octets(bits + tail) == Octets(bits)
  {
    OctetsAppend(bits, tail);
    assert Octets(bits) + [] == Octets(bits);
  }

  lemma EncodingInAlphabet(bytes: seq<Byte>)
    ensures InAlphabet(Encoding(bytes))
  {
    SymbolsShape(Bits(bytes));
  }

  lemma ZerosDropped(bits: seq<bool>, bytes: seq<Byte>)
    requires Octets(bits) == bytes && |bits| == 8 * |bytes|
    ensures Octets(bits + Zeros(Fill(|bits|))) == bytes
  {
    ShortTailDropped(bits, Zeros(Fill(|bits|)));
  }

  lemma EncodingReadsBack(bytes: seq<Byte>)
    ensures InAlphabet(Encoding(bytes))
    ensures Octets(SymbolBits(Encoding(bytes))) == bytes
  {
    EncodingInAlphabet(bytes);
    OctetsOfBits(bytes);
    ZerosDropped(Bits(bytes), bytes);
    SymbolsRoundTrip(Bits(bytes));
  }

  /**
    Decoding the encoding of any byte string returns it, in whatever letter case it is written
    and however many padding characters follow; the encoding has ceil(8n/5) symbols.
   */
  lemma RoundTrip(bytes: seq<Byte>, spelling: string, pads: nat)
    requires Upper(spelling) == Encoding(bytes)
    ensures Decoding(spelling + seq(pads, _ => '=')) == Some(bytes)
    ensures |Encoding(bytes)| == (8 * |bytes| + 4) / 5
  {
    SymbolsShape(Bits(bytes));
    Normalised(spelling, Encoding(bytes), pads);
    EncodingReadsBack(bytes);
  }

  /** In particular as encoded, which is already upper case. */
  lemma EncodingRoundTrip(bytes: seq<Byte>)
    ensures Decoding(Encoding(bytes)) == Some(bytes)
  {
    SymbolsShape(Bits(bytes));
    UpperFixed(Encoding(bytes));
    RoundTrip(bytes, Encoding(bytes), 0);
    assert Encoding(bytes) + seq(0, _ => '=') == Encoding(bytes);
  }

  /** Each letter of `text` stands in `spelling` in either case. */
  predicate InAnyCase(spelling: string, text: string) {
    && |spelling| == |text|
    && forall i :: 0 <= i < |text| ==>
         spelling[i] == text[i] || ('A' <= text[i] <= 'Z' && spelling[i] == text[i] - 'A' + 'a')
  }

  lemma {:induction false} AnyCaseUpper(spelling: string, text: string)
    requires InAnyCase(spelling, text) && forall i :: 0 <= i < |text| ==> Plain(text[i])
    ensures Upper(spelling) == text
  {
    if text != "" {
      assert Plain(text[0]);
      AnyCaseUpper(spelling[1..], text[1..]);
      assert UpperText(spelling[0]) == [text[0]] && [text[0]] + text[1..] == text;
    }
  }

  /** And with its letters in any mixture of cases, padded or not. */
  lemma AnyCaseRoundTrip(bytes: seq<Byte>, spelling: string, pads: nat)
    requires InAnyCase(spelling, Encoding(bytes))
    ensures Decoding(spelling + seq(pads, _ => '=')) == Some(bytes)
  {
    SymbolsShape(Bits(bytes));
    AnyCaseUpper(spelling, Encoding(bytes));
    RoundTrip(bytes, spelling, pads);
  }

  /** The characters outside ASCII whose upper case is made of letters of the alphabet. */
  lemma ForeignUpperCases()
    ensures UpperText('\U{131}') == "I" && UpperText('\U{17F}') == "S" && UpperText('\U{DF}') == "SS"
    ensures UpperText('\U{FB00}') == "FF" && UpperText('\U{FB01}') == "FI" && UpperText('\U{FB02}') == "FL"
    ensures UpperText('\U{FB03}') == "FFI" && UpperText('\U{FB04}') == "FFL"
    ensures UpperText('\U{FB05}') == "ST" && UpperText('\U{FB06}') == "ST"
  {
  }
}
