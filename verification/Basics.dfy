/** Vocabulary shared by every component: bytes, optional values, concatenation of
    chunks, and the "last n elements" view of a history. */
module Basics {

  type byte = b: int | 0 <= b < 256

  const U64_SIZE: nat := 0x1_0000_0000_0000_0000
  const U64_MAX: nat := U64_SIZE - 1

  datatype Option<+T> = None | Some(value: T)

  /** `bytes` are the characters of `text`. */
  predicate Spells(bytes: seq<byte>, text: string) {
    |bytes| == |text| && forall i :: 0 <= i < |text| ==> bytes[i] == text[i] as int
  }

  function Min(a: int, b: int): (m: int)
    ensures m <= a && m <= b && (m == a || m == b)
  {
    if a <= b then a else b
  }

  /** Concatenation of a sequence of chunks. */
  function Flatten<T>(chunks: seq<seq<T>>): (all: seq<T>)
    ensures chunks == [] ==> all == []
  {
    if chunks == [] then [] else Flatten(chunks[..|chunks| - 1]) + chunks[|chunks| - 1]
  }

  lemma FlattenSnoc<T>(chunks: seq<seq<T>>, last: seq<T>)
    ensures Flatten(chunks + [last]) == Flatten(chunks) + last
  {
    assert (chunks + [last])[..|chunks|] == chunks;
  }

  lemma {:induction false} FlattenConcat<T>(left: seq<seq<T>>, right: seq<seq<T>>)
    ensures Flatten(left + right) == Flatten(left) + Flatten(right)
    decreases |right|
  {
    if right == [] {
      assert left + right == left;
    } else {
      var init, last := right[..|right| - 1], right[|right| - 1];
      FlattenConcat(left, init);
      assert left + right == (left + init) + [last];
      assert right == init + [last];
      FlattenSnoc(left + init, last);
      FlattenSnoc(init, last);
    }
  }

  lemma ConcatAssociative<T>(a: seq<T>, b: seq<T>, c: seq<T>)
    ensures a + (b + c) == a + b + c
  {
  }

  lemma ConsConcat<T>(s: seq<T>, t: seq<T>)
    requires s != []
    ensures [s[0]] + (s[1..] + t) == s + t
  {
  }

  /** The last `n` elements of `s`, or all of it when it is shorter. */
  function LastN<T>(s: seq<T>, n: nat): (tail: seq<T>)
    ensures |tail| == Min(|s|, n)
    ensures tail == s[|s| - |tail|..]
  {
    if |s| <= n then s else s[|s| - n..]
  }

  /** Keeping only a tail loses nothing that a later, equally long tail would show. */
  lemma LastNAbsorbs<T>(history: seq<T>, more: seq<T>, n: nat)
    ensures LastN(LastN(history, n) + more, n) == LastN(history + more, n)
  {
    var tail := LastN(history, n);
    var whole := history + more;
    var r := LastN(tail + more, n);
    var w := LastN(whole, n);
    assert |r| == |w|;
    forall i | 0 <= i < |r| ensures r[i] == w[i] {
      var a := |tail + more| - |r| + i;
      var b := |whole| - |w| + i;
      assert r[i] == (tail + more)[a];
      assert w[i] == whole[b];
      if a < |tail| {
        assert tail[a] == history[|history| - |tail| + a];
      }
    }
  }

  /** `s` ends with `suffix`. */
  predicate EndsWith<T(==)>(s: seq<T>, suffix: seq<T>) {
    |suffix| <= |s| && s[|s| - |suffix|..] == suffix
  }
}
