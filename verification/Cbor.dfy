/** The two message bodies whose bytes matter here, in CBOR with shortest-form heads (section
    3.1 of RFC 8949): a keepalive nonce and a chunk of PTY data (src/protocol.rs:127-143,
    310-326). */
module Cbor {
  import opened Basics
  import opened Wire

  const UNSIGNED: nat := 0
  const ARRAY: nat := 4

  /** Initial byte and argument. */
  function Head(major: nat, n: nat): (h: seq<byte>)
    requires major < 8 && n < U64_SIZE
    ensures 1 <= |h| <= 9 && (n < 256 ==> |h| <= 2)
  {
    if n < 24 then [major * 32 + n]
    else if n < 0x100 then [major * 32 + 24] + BigEndian(n, 1)
    else if n < 0x1_0000 then [major * 32 + 25] + BigEndian(n, 2)
    else if n < 0x1_0000_0000 then [major * 32 + 26] + BigEndian(n, 4)
    else [major * 32 + 27] + BigEndian(n, 8)
  }

  function ArgumentWidth(info: nat): nat {
    if info == 24 then 1 else if info == 25 then 2 else if info == 26 then 4 else if info == 27 then 8 else 0
  }

  /** The argument of a head of the given major type that makes up all of `b`, in any of the
      permitted widths. */
  function Argument(major: nat, b: seq<byte>): Option<nat> {
    if b == [] || b[0] as nat / 32 != major then None
    else
      var info := b[0] as nat % 32;
      if info < 24 then (if |b| == 1 then Some(info) else None)
      else if info <= 27 && |b| == 1 + ArgumentWidth(info) then Some(FromBigEndian(b[1..]))
      else None
  }

  lemma CapacityOf(width: nat)
    requires width == 1 || width == 2 || width == 4 || width == 8
    ensures Capacity(1) == 0x100 && Capacity(2) == 0x1_0000 && Capacity(4) == 0x1_0000_0000
    ensures Capacity(8) == U64_SIZE
  {
    assert Capacity(1) == 0x100;
    assert Capacity(2) == Capacity(1) * 256;
    assert Capacity(4) == Capacity(2) * 256 * 256;
    assert Capacity(6) == Capacity(4) * 256 * 256;
    assert Capacity(8) == Capacity(6) * 256 * 256;
  }

  lemma ArgumentUndoesHead(major: nat, n: nat)
    requires major < 8 && n < U64_SIZE
    ensures Argument(major, Head(major, n)) == Some(n)
  {
    if n >= 24 {
      var width := if n < 0x100 then 1 else if n < 0x1_0000 then 2 else if n < 0x1_0000_0000 then 4 else 8;
      CapacityOf(width);
      BigEndianRoundTrip(n, width);
      assert Head(major, n)[1..] == BigEndian(n, width);
    }
  }

  lemma TwoBytes(n: nat)
    requires n < 0x1_0000
    ensures BigEndian(n, 2) == [n / 0x100, n % 0x100]
  {
    assert BigEndian(n, 2) == BigEndian(n / 0x100, 1) + [n % 0x100];
    assert BigEndian(n / 0x100, 1) == BigEndian(n / 0x100 / 0x100, 0) + [n / 0x100 % 0x100];
  }

  /** Initial bytes and widths as the standard has them. */
  lemma HeadLayout(major: nat, n: nat)
    requires major < 8 && n < U64_SIZE
    ensures n <= 23 ==> Head(major, n) == [32 * major + n]
    ensures 24 <= n <= 0xFF ==> Head(major, n) == [32 * major + 24, n]
    ensures 0x100 <= n <= 0xFFFF ==> Head(major, n) == [32 * major + 25, n / 0x100, n % 0x100]
    ensures 0x1_0000 <= n <= 0xFFFF_FFFF ==> |Head(major, n)| == 5 && Head(major, n)[0] == 32 * major + 26
    ensures 0xFFFF_FFFF < n ==> |Head(major, n)| == 9 && Head(major, n)[0] == 32 * major + 27
  {
    if 24 <= n <= 0xFF {
      assert BigEndian(n, 1) == BigEndian(n / 0x100, 0) + [n % 0x100];
    } else if 0x100 <= n <= 0xFFFF {
      TwoBytes(n);
    }
  }

  /** The field names: a map of one pair, a text of five characters. */
  lemma FieldsSpelled()
    ensures |NONCE_FIELD| == 7 && NONCE_FIELD[0] == 32 * 5 + 1 && NONCE_FIELD[1] == 32 * 3 + 5
    ensures |BYTES_FIELD| == 7 && BYTES_FIELD[0] == 32 * 5 + 1 && BYTES_FIELD[1] == 32 * 3 + 5
    ensures Spells(NONCE_FIELD[2..], "nonce") && Spells(BYTES_FIELD[2..], "bytes")
  {
  }

  /** A map of one entry whose key is the five-letter text "nonce", or "bytes". */
  const NONCE_FIELD: seq<byte> := [0xA1, 0x65, 110, 111, 110, 99, 101]
  const BYTES_FIELD: seq<byte> := [0xA1, 0x65, 98, 121, 116, 101, 115]

  function KeepaliveBody(nonce: nat): seq<byte>
    requires nonce < U64_SIZE
  {
    NONCE_FIELD + Head(UNSIGNED, nonce)
  }

  function ParseKeepalive(body: seq<byte>): (nonce: Option<nat>) {
    if |NONCE_FIELD| <= |body| && body[..|NONCE_FIELD|] == NONCE_FIELD
    then Argument(UNSIGNED, body[|NONCE_FIELD|..])
    else None
  }

  lemma ParseUndoesKeepaliveBody(nonce: nat)
    requires nonce < U64_SIZE
    ensures ParseKeepalive(KeepaliveBody(nonce)) == Some(nonce)
  {
    ArgumentUndoesHead(UNSIGNED, nonce);
    assert KeepaliveBody(nonce)[|NONCE_FIELD|..] == Head(UNSIGNED, nonce);
  }

  lemma {:induction false} FromBigEndianBound(b: seq<byte>)
    ensures FromBigEndian(b) < Capacity(|b|)
  {
    if b != [] {
      FromBigEndianBound(b[..|b| - 1]);
    }
  }

  lemma NonceFits(body: seq<byte>)
    requires ParseKeepalive(body).Some?
    ensures ParseKeepalive(body).value < U64_SIZE
  {
    var b := body[|NONCE_FIELD|..];
    if b[0] as nat % 32 >= 24 {
      CapacityOf(1);
      FromBigEndianBound(b[1..]);
    }
  }

  // ---------------------------------------------------------------- PTY data

  /** Each byte travels as its own CBOR integer. */
  function Integers(bytes: seq<byte>): (items: seq<byte>)
    ensures |bytes| <= |items| <= 2 * |bytes|
  {
    if bytes == [] then [] else Head(UNSIGNED, bytes[0]) + Integers(bytes[1..])
  }

  function PtyBody(bytes: seq<byte>): (body: seq<byte>)
    requires |bytes| < U64_SIZE
    ensures |body| <= 16 + 2 * |bytes|
  {
    BYTES_FIELD + (Head(ARRAY, |bytes|) + Integers(bytes))
  }

  /** `n` integers below 256 that make up all of `items`. */
  function ParseIntegers(items: seq<byte>, n: nat): (bytes: Option<seq<byte>>)
    decreases n
  {
    if n == 0 then (if items == [] then Some([]) else None)
    else if items == [] then None
    else if items[0] < 24 then Prepend(items[0], ParseIntegers(items[1..], n - 1))
    else if items[0] == 24 && |items| >= 2 then Prepend(items[1], ParseIntegers(items[2..], n - 1))
    else None
  }

  function Prepend(first: byte, rest: Option<seq<byte>>): Option<seq<byte>> {
    match rest
    case None => None
    case Some(bytes) => Some([first] + bytes)
  }

  function HeadLength(first: byte): (n: nat)
    ensures 1 <= n <= 9
  {
    1 + ArgumentWidth(first as nat % 32)
  }

  function ParsePty(body: seq<byte>): (bytes: Option<seq<byte>>) {
    if !(|BYTES_FIELD| < |body| && body[..|BYTES_FIELD|] == BYTES_FIELD) then None
    else ParseArray(body[|BYTES_FIELD|..])
  }

  function ParseArray(b: seq<byte>): (bytes: Option<seq<byte>>)
    requires b != []
  {
    var n := HeadLength(b[0]);
    if |b| < n then None
    else match Argument(ARRAY, b[..n])
      case None => None
      case Some(count) => ParseIntegers(b[n..], count)
  }

  lemma SmallHead(b: byte)
    ensures b < 24 ==> Head(UNSIGNED, b) == [b]
    ensures b >= 24 ==> Head(UNSIGNED, b) == [24, b]
  {
    assert BigEndian(b, 1) == BigEndian(b as nat / 256, 0) + [b as nat % 256];
  }

  lemma {:induction false} IntegersRoundTrip(bytes: seq<byte>)
    ensures ParseIntegers(Integers(bytes), |bytes|) == Some(bytes)
  {
    if bytes != [] {
      var head, rest := Head(UNSIGNED, bytes[0]), Integers(bytes[1..]);
      SmallHead(bytes[0]);
      IntegersRoundTrip(bytes[1..]);
      assert (head + rest)[|head|..] == rest;
      assert bytes == [bytes[0]] + bytes[1..];
    }
  }

  lemma HeadTellsItsLength(major: nat, n: nat)
    requires major < 8 && n < U64_SIZE
    ensures |Head(major, n)| == HeadLength(Head(major, n)[0])
  {
  }

  /** The bytes of a PTY_DATA body arrive as they were sent. */
  lemma ParseUndoesPtyBody(bytes: seq<byte>)
    requires |bytes| < U64_SIZE
    ensures ParsePty(PtyBody(bytes)) == Some(bytes)
  {
    var head, items := Head(ARRAY, |bytes|), Integers(bytes);
    HeadTellsItsLength(ARRAY, |bytes|);
    ArgumentUndoesHead(ARRAY, |bytes|);
    IntegersRoundTrip(bytes);
    assert (head + items)[..|head|] == head && (head + items)[|head|..] == items;
    assert PtyBody(bytes)[..|BYTES_FIELD|] == BYTES_FIELD;
    assert PtyBody(bytes)[|BYTES_FIELD|..] == head + items;
  }
}
