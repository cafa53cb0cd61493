/** Session ids: base32 by a wrapping 32-bit accumulator, validation, and generation
    (src/session.rs:12-36, 77-96, 134-161). */
module SessionIds {
  import opened Basics

  type bit = b: nat | b < 2

  const U32_SIZE: nat := 0x1_0000_0000
  const ALPHABET: string := "abcdefghijklmnopqrstuvwxyz234567"
  const SESSION_ID_LEN: nat := 10
  const MAX_GENERATE_ATTEMPTS: nat := 128

  // ---------------------------------------------------------------- RFC 4648, section 6

  /** The low `width` bits of `n`, most significant first. */
  function LowBits(n: nat, width: nat): (s: seq<bit>)
    ensures |s| == width
    decreases n, width
  {
    if width == 0 then [] else LowBits(n / 2, width - 1) + [n % 2]
  }

  /** The input as one bit string, each byte most significant bit first. */
  function Bits(bytes: seq<byte>): (s: seq<bit>)
    ensures |s| == 8 * |bytes|
  {
    if bytes == [] then [] else Bits(bytes[..|bytes| - 1]) + LowBits(bytes[|bytes| - 1], 8)
  }

  function Pow2(n: nat): (p: nat)
    ensures 1 <= p
  {
    if n == 0 then 1 else 2 * Pow2(n - 1)
  }

  function Value(s: seq<bit>): (v: nat)
    ensures v < Pow2(|s|)
  {
    if s == [] then 0 else 2 * Value(s[..|s| - 1]) + s[|s| - 1] as nat
  }

  function Digit(s: seq<bit>): char
    requires |s| == 5
  {
    assert Pow2(5) == 32;
    ALPHABET[Value(s)]
  }

  function Zeros(n: nat): (s: seq<bit>)
    ensures |s| == n
  {
    if n == 0 then [] else Zeros(n - 1) + [0]
  }

  /** Five bits at a time; a short last group is filled with zero bits; no padding characters. */
  function Base32(s: seq<bit>): (text: string)
    ensures |text| == (|s| + 4) / 5
    decreases |s|
  {
    if s == [] then ""
    else if |s| < 5 then [Digit(s + Zeros(5 - |s|))]
    else [Digit(s[..5])] + Base32(s[5..])
  }

  lemma FiveBits(s: seq<bit>)
    requires |s| == 5
    ensures Value(s) == 16 * s[0] as nat + 8 * s[1] as nat + 4 * s[2] as nat + 2 * s[3] as nat + s[4] as nat
  {
    assert s[..4][..3] == s[..3] && s[..3][..2] == s[..2] && s[..2][..1] == s[..1] && s[..1][..0] == [];
    assert Value(s[..1]) == s[0] as nat;
    assert Value(s[..2]) == 2 * s[0] as nat + s[1] as nat;
    assert Value(s[..3]) == 4 * s[0] as nat + 2 * s[1] as nat + s[2] as nat;
    assert Value(s[..4]) == 8 * s[0] as nat + 4 * s[1] as nat + 2 * s[2] as nat + s[3] as nat;
  }

  lemma ExampleBits()
    ensures LowBits(0x66, 8) == [0, 1, 1, 0, 0, 1, 1, 0]
  {
    assert LowBits(0, 1) == [0];
    assert LowBits(1, 2) == [0, 1];
    assert LowBits(3, 3) == [0, 1, 1];
    assert LowBits(6, 4) == [0, 1, 1, 0];
    assert LowBits(12, 5) == [0, 1, 1, 0, 0];
    assert LowBits(25, 6) == [0, 1, 1, 0, 0, 1];
    assert LowBits(51, 7) == [0, 1, 1, 0, 0, 1, 1];
  }

  lemma BitsOfOne(b: byte)
    ensures Bits([b]) == LowBits(b, 8)
  {
    assert [b][..0] == [];
  }

  lemma ExampleDigits()
    ensures Digit([0, 1, 1, 0, 0]) == 'm' && Digit([1, 1, 0, 0, 0]) == 'y'
  {
    FiveBits([0, 1, 1, 0, 0]);
    FiveBits([1, 1, 0, 0, 0]);
  }

  /** The first of the standard's own examples (section 10): "f" encodes as "my", in lower case
      and without padding. */
  lemma StandardExample()
    ensures Base32(Bits([0x66])) == "my"
  {
    ExampleBits();
    BitsOfOne(0x66);
    ExampleDigits();
    var s := Bits([0x66]);
    var rest := s[5..];
    assert s[..5] == [0, 1, 1, 0, 0] && rest == [1, 1, 0];
    assert Base32(rest) == "y" by {
      assert Zeros(2) == [0, 0] && rest + Zeros(2) == [1, 1, 0, 0, 0];
    }
  }

  // ---------------------------------------------------------------- 32-bit shifts

  /** `x << n` on a `u32`: what passes the top is lost. */
  function ShiftLeft(x: nat, n: nat): (r: nat)
    decreases x, n
  {
    if n == 0 then x else (2 * ShiftLeft(x, n - 1)) % U32_SIZE
  }

  function ShiftRight(x: nat, n: nat): (r: nat)
    decreases x, n
  {
    if n == 0 then x else ShiftRight(x / 2, n - 1)
  }

  lemma HalfOfSum(n: nat, double: nat)
    ensures (n + 2 * double) / 2 == n / 2 + double && (n + 2 * double) % 2 == n % 2
  {
  }

  lemma DoubleFactor(k: nat, p: nat)
    ensures k * (2 * p) == 2 * (k * p)
  {
  }

  /** Bits above the low `width` do not show. */
  lemma {:induction false} HighBitsInvisible(n: nat, k: nat, m: nat, width: nat)
    requires width <= m
    ensures LowBits(n + k * Pow2(m), width) == LowBits(n, width)
    decreases width
  {
    if width > 0 {
      DoubleFactor(k, Pow2(m - 1));
      HalfOfSum(n, k * Pow2(m - 1));
      HighBitsInvisible(n / 2, k, m - 1, width - 1);
    }
  }

  /** Halving a wrapped double loses only the wrapped top bit. */
  lemma HalfOfWrapped(x: nat, b: nat)
    ensures ((2 * x) % U32_SIZE + b) / 2 + x / 0x8000_0000 * 0x8000_0000 == x + b / 2
    ensures ((2 * x) % U32_SIZE + b) % 2 == b % 2
  {
    var k := x / 0x8000_0000;
    assert 2 * x == k * U32_SIZE + 2 * (x - k * 0x8000_0000);
    assert (2 * x) % U32_SIZE == 2 * (x - k * 0x8000_0000);
  }

  lemma TopBit()
    ensures Pow2(31) == 0x8000_0000
  {
    assert Pow2(8) == 0x100;
    assert Pow2(16) == 0x1_0000;
    assert Pow2(24) == 0x100_0000;
  }

  lemma WrapInvisible(x: nat, b: nat, width: nat)
    requires width <= 31
    ensures LowBits(((2 * x) % U32_SIZE + b) / 2, width) == LowBits(x + b / 2, width)
  {
    HalfOfWrapped(x, b);
    TopBit();
    HighBitsInvisible(((2 * x) % U32_SIZE + b) / 2, x / 0x8000_0000, 31, width);
  }

  lemma {:induction false} ShiftAddBits(acc: nat, width: nat, b: nat, m: nat)
    requires b < Pow2(m) && width + m <= 32
    ensures LowBits(ShiftLeft(acc, m) + b, width + m) == LowBits(acc, width) + LowBits(b, m)
    decreases m
  {
    if m > 0 {
      var x := ShiftLeft(acc, m - 1);
      ShiftAddBits(acc, width, b / 2, m - 1);
      HalfOfWrapped(x, b);
      WrapInvisible(x, b, width + m - 1);
    }
  }

  /** Bitwise or. */
  function BitOr(a: nat, b: nat): (r: nat) {
    if a == 0 && b == 0 then 0
    else 2 * BitOr(a / 2, b / 2) + if a % 2 == 1 || b % 2 == 1 then 1 else 0
  }

  lemma {:induction false} BitOrZero(a: nat)
    ensures BitOr(a, 0) == a
  {
    if a > 0 {
      BitOrZero(a / 2);
    }
  }

  /** Bits or-ed into a place that is clear are added. */
  lemma {:induction false} OrIsPlus(a: nat, m: nat, b: nat)
    requires LowBits(a, m) == LowBits(0, m) && b < Pow2(m)
    ensures BitOr(a, b) == a + b
    decreases m
  {
    if m == 0 {
      BitOrZero(a);
    } else {
      assert LowBits(a, m)[..m - 1] == LowBits(a / 2, m - 1) && LowBits(0, m)[..m - 1] == LowBits(0, m - 1);
      assert LowBits(a, m)[m - 1] == LowBits(0, m)[m - 1];
      OrIsPlus(a / 2, m - 1, b / 2);
    }
  }

  /** A left shift clears the place it makes. */
  lemma ShiftClears(x: nat, m: nat)
    requires m <= 32
    ensures LowBits(ShiftLeft(x, m), m) == LowBits(0, m)
  {
    ShiftAddBits(x, 0, 0, m);
  }

  /** Shifting left and or-ing in `m` new bits: they follow the old low bits, whatever falls
      off the top. */
  lemma ShiftInBits(acc: nat, width: nat, b: nat, m: nat)
    requires b < Pow2(m) && width + m <= 32
    ensures LowBits(BitOr(ShiftLeft(acc, m), b), width + m) == LowBits(acc, width) + LowBits(b, m)
  {
    ShiftClears(acc, m);
    OrIsPlus(ShiftLeft(acc, m), m, b);
    ShiftAddBits(acc, width, b, m);
  }

  lemma {:induction false} ZeroBits(n: nat)
    ensures LowBits(0, n) == Zeros(n)
  {
    if n > 0 {
      ZeroBits(n - 1);
    }
  }

  /** Shifting right drops the low bits, and only them. */
  lemma {:induction false} ShiftOutBits(acc: nat, width: nat, n: nat)
    ensures LowBits(acc, width + n) == LowBits(ShiftRight(acc, n), width) + LowBits(acc, n)
    decreases n
  {
    if n > 0 {
      ShiftOutBits(acc / 2, width, n - 1);
    }
  }

  lemma {:induction false} ValueOfLowBits(n: nat, width: nat)
    requires n < Pow2(width)
    ensures Value(LowBits(n, width)) == n
    decreases width
  {
    if width > 0 {
      ValueOfLowBits(n / 2, width - 1);
      assert LowBits(n, width)[..width - 1] == LowBits(n / 2, width - 1);
    }
  }

  /** The alphabet entry at the low five bits is the digit of those bits. */
  lemma MaskedDigit(x: nat)
    ensures ALPHABET[x % 32] == Digit(LowBits(x, 5))
  {
    assert Pow2(5) == 32;
    HighBitsInvisible(x % 32, x / 32, 5, 5);
    ValueOfLowBits(x % 32, 5);
  }

  // ---------------------------------------------------------------- the encoder

  lemma PrefixesOfConcat<T>(a: seq<T>, b: seq<T>, k: nat, m: nat)
    requires k <= m <= |a|
    ensures (a + b)[..k] == a[..k] && (a + b)[..m] == a[..m]
  {
  }

  lemma {:induction false} BitsGrow(bytes: seq<byte>, n: nat)
    requires n < |bytes|
    ensures Bits(bytes)[..8 * n + 8] == Bits(bytes)[..8 * n] + LowBits(bytes[n], 8)
    decreases |bytes|
  {
    var init, last := bytes[..|bytes| - 1], bytes[|bytes| - 1];
    if n < |init| {
      BitsGrow(init, n);
      PrefixesOfConcat(Bits(init), LowBits(last, 8), 8 * n, 8 * n + 8);
    }
  }

  lemma SliceGrows<T>(all: seq<T>, from: nat, m: nat, more: seq<T>)
    requires from <= m && m + |more| <= |all| && all[..m + |more|] == all[..m] + more
    ensures all[from..m + |more|] == all[from..m] + more
  {
    assert all[from..m + |more|] == all[..m + |more|][from..];
  }

  ghost predicate Follows(all: seq<bit>, from: nat, upto: nat, b: nat) {
    from <= upto && upto + 8 <= |all| && all[from..upto + 8] == all[from..upto] + LowBits(b, 8)
  }

  /** The next byte's bits follow the bits read so far. */
  lemma NextByteBits(bytes: seq<byte>, all: seq<bit>, n: nat, from: nat)
    requires n < |bytes| && all == Bits(bytes) && from <= 8 * n
    ensures Follows(all, from, 8 * n, bytes[n])
  {
    BitsGrow(bytes, n);
    SliceGrows(all, from, 8 * n, LowBits(bytes[n], 8));
  }

  /** The accumulator's low `bits` bits are the bits of `all` between `from` and `upto`. */
  ghost predicate Window(all: seq<bit>, from: nat, upto: nat, acc: nat, bits: nat) {
    upto <= |all| && from + bits == upto && LowBits(acc, bits) == all[from..upto]
  }

  lemma WindowReads(all: seq<bit>, from: nat, upto: nat, acc: nat, bits: nat, b: nat)
    requires Window(all, from, upto, acc, bits) && bits <= 4 && b < 256
    requires Follows(all, from, upto, b)
    ensures Window(all, from, upto + 8, BitOr(ShiftLeft(acc, 8), b), bits + 8)
  {
    assert Pow2(8) == 256;
    ShiftInBits(acc, bits, b, 8);
  }

  lemma WindowEmits(all: seq<bit>, from: nat, upto: nat, acc: nat, bits: nat)
    requires Window(all, from, upto, acc, bits + 5)
    ensures Window(all, from + 5, upto, acc, bits)
    ensures ALPHABET[ShiftRight(acc, bits) % 32] == Digit(all[from..from + 5])
  {
    ShiftOutBits(acc, 5, bits);
    MaskedDigit(ShiftRight(acc, bits));
    var pending := all[from..upto];
    assert pending[..5] == all[from..from + 5] && pending[5..] == all[from + 5..upto];
    assert LowBits(ShiftRight(acc, bits), 5) == pending[..5];
    assert LowBits(acc, bits) == pending[5..];
  }

  /** `output` encodes all bits before `from`. */
  ghost predicate Emitted(all: seq<bit>, output: string, from: nat) {
    from <= |all| && from == 5 * |output| && Base32(all) == output + Base32(all[from..])
  }

  lemma EmittedGrows(all: seq<bit>, output: string, from: nat)
    requires Emitted(all, output, from) && from + 5 <= |all|
    ensures Emitted(all, output + [Digit(all[from..from + 5])], from + 5)
  {
    var rest := all[from..];
    assert rest[..5] == all[from..from + 5];
    assert rest[5..] == all[from + 5..];
  }

  ghost predicate Encoding(all: seq<bit>, i: nat, output: string, acc: nat, bits: nat) {
    Window(all, 5 * |output|, 8 * i, acc, bits) && Emitted(all, output, 5 * |output|)
  }

  lemma EncodingStarts(all: seq<bit>)
    ensures Encoding(all, 0, "", 0, 0)
  {
    assert all[0..] == all;
  }

  lemma EncodingReads(all: seq<bit>, i: nat, output: string, acc: nat, bits: nat, b: nat)
    requires Encoding(all, i, output, acc, bits) && bits <= 4 && b < 256
    requires Follows(all, 5 * |output|, 8 * i, b)
    ensures Encoding(all, i + 1, output, BitOr(ShiftLeft(acc, 8), b), bits + 8)
  {
    WindowReads(all, 5 * |output|, 8 * i, acc, bits, b);
  }

  lemma EncodingEmits(all: seq<bit>, i: nat, output: string, acc: nat, bits: nat)
    requires Encoding(all, i, output, acc, bits + 5)
    ensures Encoding(all, i, output + [ALPHABET[ShiftRight(acc, bits) % 32]], acc, bits)
  {
    var from, digit := 5 * |output|, ALPHABET[ShiftRight(acc, bits) % 32];
    WindowEmits(all, from, 8 * i, acc, bits);
    EmittedGrows(all, output, from);
    assert 5 * |output + [digit]| == from + 5;
  }

  lemma EncodingStops(all: seq<bit>, i: nat, output: string, acc: nat, bits: nat)
    requires Encoding(all, i, output, acc, bits)
    ensures output == Base32(all)[..Min(|output|, (|all| + 4) / 5)]
  {
  }

  lemma EncodingFinishes(all: seq<bit>, i: nat, output: string, acc: nat, bits: nat, len: nat)
    requires |all| == 8 * i && Encoding(all, i, output, acc, bits) && bits <= 4 && |output| < len
    ensures bits == 0 ==> output == Base32(all)[..Min(len, (|all| + 4) / 5)]
    ensures bits > 0 ==> (
      output + [ALPHABET[ShiftLeft(acc, 5 - bits) % 32]] == Base32(all)[..Min(len, (|all| + 4) / 5)])
  {
    var rest := all[5 * |output|..];
    assert all[5 * |output|..8 * i] == rest;
    if bits > 0 {
      ShiftAddBits(acc, bits, 0, 5 - bits);
      ZeroBits(5 - bits);
      MaskedDigit(ShiftLeft(acc, 5 - bits));
    }
  }

  /** The inner loop of `encode_base32_lower`: characters are emitted while five bits are
      pending and there is room. */
  method EmitDigits(ghost all: seq<bit>, ghost i: nat, before: string, acc: nat, pending: nat, len: nat)
    returns (output: string, bits: nat)
    requires Encoding(all, i, before, acc, pending) && |before| <= len
    ensures Encoding(all, i, output, acc, bits) && |output| <= len
    ensures bits <= 4 || |output| == len
  {
    output, bits := before, pending;
    while bits >= 5 && |output| < len
      invariant |output| <= len
      invariant Encoding(all, i, output, acc, bits)
    {
      bits := bits - 5;
      EncodingEmits(all, i, output, acc, bits);
      var index := ShiftRight(acc, bits) % 32;
      output := output + [ALPHABET[index]];
    }
  }

  /** `encode_base32_lower`: for every input and every length the loop outputs the unpadded,
      lowercase base32 encoding, cut to `len` characters. */
  method EncodeBase32Lower(bytes: seq<byte>, len: nat) returns (output: string)
    ensures output == Base32(Bits(bytes))[..Min(len, (8 * |bytes| + 4) / 5)]
  {
    output := "";
    var acc: nat, bits: nat := 0, 0;
    ghost var all := Bits(bytes);
    EncodingStarts(all);
    var i := 0;
    while i < |bytes|
      invariant i <= |bytes| && |output| <= len && bits <= 4
      invariant Encoding(all, i, output, acc, bits)
    {
      NextByteBits(bytes, all, i, 5 * |output|);
      EncodingReads(all, i, output, acc, bits, bytes[i]);
      acc := BitOr(ShiftLeft(acc, 8), bytes[i] as nat);
      i := i + 1;
      output, bits := EmitDigits(all, i, output, acc, bits + 8, len);
      if |output| == len {
        EncodingStops(all, i, output, acc, bits);
        return;
      }
    }
    if |output| == len {
      EncodingStops(all, i, output, acc, bits);
    } else {
      EncodingFinishes(all, i, output, acc, bits, len);
    }
    if |output| < len && bits > 0 {
      var index := ShiftLeft(acc, 5 - bits) % 32;
      output := output + [ALPHABET[index]];
    }
  }

  // ---------------------------------------------------------------- which bits an id keeps

  lemma {:induction false} Base32OfPrefix(s: seq<bit>, k: nat)
    requires 5 * k <= |s|
    ensures Base32(s)[..k] == Base32(s[..5 * k])
    decreases k
  {
    if k > 0 {
      Base32OfPrefix(s[5..], k - 1);
      assert s[..5 * k][..5] == s[..5];
      assert s[..5 * k][5..] == s[5..][..5 * (k - 1)];
    }
  }

  lemma {:induction false} ValueInjective(a: seq<bit>, b: seq<bit>)
    requires |a| == |b| && Value(a) == Value(b)
    ensures a == b
    decreases |a|
  {
    if a != [] {
      var n := |a| - 1;
      ValueInjective(a[..n], b[..n]);
      assert a == a[..n] + [a[n]] && b == b[..n] + [b[n]];
    }
  }

  function AlphabetIndex(c: char): int {
    if c < 'a' then c as int - '2' as int + 26 else c as int - 'a' as int
  }

  lemma AlphabetRoundTrip(k: nat)
    requires k < 32
    ensures AlphabetIndex(ALPHABET[k]) == k
  {
  }

  lemma DigitInjective(a: seq<bit>, b: seq<bit>)
    requires |a| == |b| == 5 && Digit(a) == Digit(b)
    ensures a == b
  {
    assert Pow2(5) == 32;
    AlphabetRoundTrip(Value(a));
    AlphabetRoundTrip(Value(b));
    ValueInjective(a, b);
  }

  /** No two bit strings of one length share an encoding. */
  lemma {:induction false} Base32Injective(a: seq<bit>, b: seq<bit>)
    requires |a| == |b| && Base32(a) == Base32(b)
    ensures a == b
    decreases |a|
  {
    if 0 < |a| < 5 {
      var za, zb := a + Zeros(5 - |a|), b + Zeros(5 - |a|);
      assert Base32(a)[0] == Base32(b)[0];
      DigitInjective(za, zb);
      assert a == za[..|a|] && b == zb[..|a|];
    } else if 5 <= |a| {
      assert Base32(a)[0] == Base32(b)[0];
      assert Base32(a)[1..] == Base32(b)[1..];
      DigitInjective(a[..5], b[..5]);
      Base32Injective(a[5..], b[5..]);
      assert a == a[..5] + a[5..] && b == b[..5] + b[5..];
    }
  }

  /** The id cut from the eight hash bytes. */
  function Candidate(hash: seq<byte>): (id: string)
    requires |hash| == 8
    ensures |id| == SESSION_ID_LEN
  {
    Base32(Bits(hash))[..SESSION_ID_LEN]
  }

  /** Two hashes give the same id exactly when they agree on their first fifty bits. */
  lemma CandidatesCollideIff(x: seq<byte>, y: seq<byte>)
    requires |x| == |y| == 8
    ensures Candidate(x) == Candidate(y) <==> Bits(x)[..50] == Bits(y)[..50]
  {
    Base32OfPrefix(Bits(x), 10);
    Base32OfPrefix(Bits(y), 10);
    if Candidate(x) == Candidate(y) {
      Base32Injective(Bits(x)[..50], Bits(y)[..50]);
    }
  }

  // ---------------------------------------------------------------- validation and generation

  datatype SessionIdError = InvalidLength(len: nat) | InvalidCharacter | Random | ExhaustedGeneration
  datatype Result<+T> = Ok(value: T) | Err(error: SessionIdError)

  predicate IdCharacter(c: char) {
    'a' <= c <= 'z' || '2' <= c <= '7'
  }

  predicate WellFormed(value: string) {
    8 <= |value| <= 10 && forall i :: 0 <= i < |value| ==> IdCharacter(value[i])
  }

  /** `SessionId::new`; one `char` stands for one byte of the text. */
  function NewSessionId(value: string): (r: Result<string>)
    ensures r.Ok? <==> WellFormed(value)
    ensures r.Ok? ==> r.value == value
    ensures r == Err(InvalidLength(|value|)) <==> |value| < 8 || 10 < |value|
    ensures r == Err(InvalidCharacter)
       <==> 8 <= |value| <= 10 && exists i :: 0 <= i < |value| && !IdCharacter(value[i])
    ensures r.Ok? || r == Err(InvalidLength(|value|)) || r == Err(InvalidCharacter)
  {
    if !(8 <= |value| <= 10) then Err(InvalidLength(|value|))
    else if exists i :: 0 <= i < |value| && !IdCharacter(value[i]) then Err(InvalidCharacter)
    else Ok(value)
  }

  /** The accepted characters are those of the encoding's alphabet, no more and no less. */
  lemma IdCharactersAreTheAlphabet(c: char)
    ensures IdCharacter(c) <==> exists k :: 0 <= k < 32 && ALPHABET[k] == c
  {
    if 'a' <= c <= 'z' {
      assert ALPHABET[c as int - 'a' as int] == c;
    } else if '2' <= c <= '7' {
      assert ALPHABET[c as int - '2' as int + 26] == c;
    }
    forall k | 0 <= k < 32 && ALPHABET[k] == c ensures IdCharacter(c) {
      AlphabetIsValid(k);
    }
  }

  lemma AlphabetIsValid(k: nat)
    requires k < 32
    ensures IdCharacter(ALPHABET[k])
  {
  }

  lemma DigitIsValid(s: seq<bit>)
    requires |s| == 5
    ensures IdCharacter(Digit(s))
  {
    assert Pow2(5) == 32;
    AlphabetIsValid(Value(s));
  }

  /** Every character of an encoding is one that `SessionId::new` accepts. */
  lemma {:induction false} EncodingIsValid(s: seq<bit>, k: nat)
    requires k < |Base32(s)|
    ensures IdCharacter(Base32(s)[k])
    decreases |s|
  {
    if |s| < 5 {
      DigitIsValid(s + Zeros(5 - |s|));
    } else if k == 0 {
      DigitIsValid(s[..5]);
    } else {
      EncodingIsValid(s[5..], k - 1);
    }
  }

  lemma CandidateIsValid(hash: seq<byte>)
    requires |hash| == 8
    ensures NewSessionId(Candidate(hash)) == Ok(Candidate(hash))
  {
    forall i | 0 <= i < SESSION_ID_LEN ensures IdCharacter(Candidate(hash)[i]) {
      EncodingIsValid(Bits(hash), i);
    }
  }

  /** What one attempt draws: eight hash bytes, or nothing when the random source fails. */
  type Draw = d: Option<seq<byte>> | d.Some? ==> |d.value| == 8 witness None

  predicate Taken(existing: seq<string>, draw: Draw) {
    draw.Some? && Candidate(draw.value) in existing
  }

  /** `generate_session_id` on the results of its 128 possible attempts: it stops at the first
      draw whose id is not taken, and never returns an id that exists or that
      `SessionId::new` would refuse. */
  method GenerateSessionId(existing: seq<string>, draws: seq<Draw>) returns (r: Result<string>, ghost tried: nat)
    requires |draws| == 128
    ensures tried <= 128 && forall i :: 0 <= i < tried ==> Taken(existing, draws[i])
    ensures r.Ok? ==> r.value !in existing && WellFormed(r.value) && |r.value| == 10
    ensures r.Ok? ==> tried < 128 && draws[tried].Some? && r.value == Candidate(draws[tried].value)
    ensures r == Err(Random) <==> tried < 128 && draws[tried].None?
    ensures r == Err(ExhaustedGeneration) <==> forall i :: 0 <= i < |draws| ==> Taken(existing, draws[i])
    ensures r.Ok? || r == Err(Random) || r == Err(ExhaustedGeneration)
  {
    tried := 0;
    for attempt := 0 to MAX_GENERATE_ATTEMPTS
      invariant tried == attempt
      invariant forall i :: 0 <= i < attempt ==> Taken(existing, draws[i])
    {
      if draws[attempt].None? {
        return Err(Random), tried;
      }
      var candidate := EncodeBase32Lower(draws[attempt].value, SESSION_ID_LEN);
      CandidateIsValid(draws[attempt].value);
      var validated := NewSessionId(candidate);
      if validated.Err? {
        return validated, tried;
      }
      if validated.value !in existing {
        return validated, tried;
      }
      tried := tried + 1;
    }
    return Err(ExhaustedGeneration), tried;
  }
}
