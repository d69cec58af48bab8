/**
  igstk::BinaryData as Testing/igstkBinaryDataTest.cxx exercises it: a
  resizable buffer of unsigned chars with element access, copy to and from
  a raw array, equality and a lexicographic order.
*/
module BinaryDataBuffer {
  import opened NDIBinary

  /** The lexicographic order on byte strings: the first differing byte
      decides, and a proper prefix comes first. */
  function LexLess(a: seq<byte>, b: seq<byte>): bool
    decreases |a|
  {
    if |b| == 0 then false
    else if |a| == 0 then true
    else if a[0] != b[0] then a[0] < b[0]
    else LexLess(a[1..], b[1..])
  }

  /** a and b agree on their first k bytes. */
  predicate SharePrefix(a: seq<byte>, b: seq<byte>, k: nat)
  {
    k <= |a| && k <= |b| && a[..k] == b[..k]
  }

  /** A shared prefix of length at least one shares the first byte. */
  lemma SharePrefixHead(a: seq<byte>, b: seq<byte>, k: nat)
    requires SharePrefix(a, b, k)
    ensures k > 0 ==> a[0] == b[0]
  {
    if k > 0 {
      assert a[..k][0] == a[0] && b[..k][0] == b[0];
    }
  }

  /** The order as the C++ standard library defines it for containers:
      either the bytes first differ at some k with a[k] < b[k], or a is a
      proper prefix of b. */
  predicate LexBefore(a: seq<byte>, b: seq<byte>)
  {
    (exists k :: 0 <= k < |a| && k < |b| && SharePrefix(a, b, k) && a[k] < b[k])
    || (|a| < |b| && a == b[..|a|])
  }

  /** LexLess is that order. */
  lemma {:induction false} LexLessIsLexBefore(a: seq<byte>, b: seq<byte>)
    ensures LexLess(a, b) <==> LexBefore(a, b)
    decreases |a|
  {
    if |b| == 0 {
    } else if |a| == 0 {
      assert a == b[..0];
    } else if a[0] != b[0] {
      if a[0] < b[0] {
        assert SharePrefix(a, b, 0);
      } else {
        forall k | 0 <= k < |a| && k < |b| && SharePrefix(a, b, k)
          ensures k == 0
        {
          SharePrefixHead(a, b, k);
        }
        if |a| < |b| {
          assert b[..|a|][0] == b[0] != a[0];
        }
      }
    } else {
      var a', b' := a[1..], b[1..];
      LexLessIsLexBefore(a', b');
      if LexBefore(a', b') {
        if k :| 0 <= k < |a'| && k < |b'| && SharePrefix(a', b', k) && a'[k] < b'[k] {
          assert a[..k + 1] == [a[0]] + a'[..k];
          assert b[..k + 1] == [b[0]] + b'[..k];
          assert SharePrefix(a, b, k + 1) && a[k + 1] < b[k + 1];
        } else {
          assert a == [a[0]] + a' && b[..|a|] == [b[0]] + b'[..|a'|];
        }
      }
      if LexBefore(a, b) {
        if k :| 0 <= k < |a| && k < |b| && SharePrefix(a, b, k) && a[k] < b[k] {
          assert k > 0;
          assert a'[..k - 1] == a[1..k] == a[..k][1..];
          assert b'[..k - 1] == b[1..k] == b[..k][1..];
          assert SharePrefix(a', b', k - 1) && a'[k - 1] < b'[k - 1];
        } else {
          assert a' == a[..|a|][1..] && b'[..|a'|] == b[..|a|][1..];
        }
      }
    }
  }

  /** No buffer is before itself. */
  lemma {:induction false} LexIrreflexive(a: seq<byte>)
    ensures !LexLess(a, a)
    decreases |a|
  {
    if |a| > 0 {
      LexIrreflexive(a[1..]);
    }
  }

  /** The order is transitive. */
  lemma {:induction false} LexTransitive(a: seq<byte>, b: seq<byte>, c: seq<byte>)
    requires LexLess(a, b) && LexLess(b, c)
    ensures LexLess(a, c)
    decreases |a|
  {
    if |a| > 0 && a[0] == b[0] && b[0] == c[0] {
      LexTransitive(a[1..], b[1..], c[1..]);
    }
  }

  /** Any two buffers are equal or ordered one way, and never both ways. */
  lemma {:induction false} LexTrichotomy(a: seq<byte>, b: seq<byte>)
    ensures LexLess(a, b) || a == b || LexLess(b, a)
    ensures !(LexLess(a, b) && LexLess(b, a))
    decreases |a|
  {
    if |a| > 0 && |b| > 0 && a[0] == b[0] {
      LexTrichotomy(a[1..], b[1..]);
      if a[1..] == b[1..] {
        assert a == [a[0]] + a[1..] && b == [b[0]] + b[1..];
      }
    }
  }

  /** The first differing byte decides. */
  lemma FirstDifferenceDecides(a: seq<byte>, b: seq<byte>, k: nat)
    requires k < |a| && k < |b| && SharePrefix(a, b, k) && a[k] != b[k]
    ensures LexLess(a, b) <==> a[k] < b[k]
  {
    LexLessIsLexBefore(a, b);
    LexLessIsLexBefore(b, a);
    if a[k] < b[k] {
      assert LexBefore(a, b);
    } else {
      assert SharePrefix(b, a, k);
      assert LexBefore(b, a);
      LexTrichotomy(a, b);
    }
  }

  /** A proper prefix comes before the longer buffer, never after it. */
  lemma ProperPrefixFirst(a: seq<byte>, b: seq<byte>)
    requires |a| < |b| && a == b[..|a|]
    ensures LexLess(a, b) && !LexLess(b, a)
  {
    LexLessIsLexBefore(a, b);
    LexTrichotomy(a, b);
  }

  /** The buffer after resizing to n: the old bytes up to n, then zeros. */
  function Resized(d: seq<byte>, n: nat): (r: seq<byte>)
    ensures |r| == n
    ensures forall i :: 0 <= i < n && i < |d| ==> r[i] == d[i]
    ensures forall i :: |d| <= i < n ==> r[i] == 0
  {
    if n <= |d| then d[..n] else d + seq(n - |d|, _ => 0)
  }

  class BinaryData {
    var data: seq<byte>

    constructor()
      ensures data == []
    {
      data := [];
    }

    function GetSize(): (n: nat)
      reads this
      ensures n == |data|
    {
      |data|
    }

    /** GetData: the container itself. */
    function GetData(): (d: seq<byte>)
      reads this
      ensures |d| == GetSize() && forall i :: 0 <= i < |d| ==> d[i] == Get(i)
    {
      data
    }

    /** SetSize: the first bytes are kept, added ones are zero. */
    method SetSize(n: nat)
      modifies this
      ensures data == Resized(old(data), n)
    {
      data := Resized(data, n);
    }

    /** operator[], reading. */
    function Get(i: nat): byte
      requires i < |data|
      reads this
    {
      data[i]
    }

    /** operator[], writing through the reference. */
    method Set(i: nat, v: byte)
      requires i < |data|
      modifies this
      ensures data == old(data)[i := v]
      ensures Get(i) == v && forall j :: 0 <= j < |data| && j != i ==> Get(j) == old(Get(j))
    {
      data := data[i := v];
    }

    /** CopyTo: the bytes into the start of a caller's array. */
    method CopyTo(buffer: array<byte>)
      requires buffer.Length >= |data|
      modifies buffer
      ensures buffer[..|data|] == data
      ensures buffer[|data|..] == old(buffer[|data|..])
    {
      var i := 0;
      while i < |data|
        invariant 0 <= i <= |data|
        invariant buffer[..i] == data[..i]
        invariant buffer[i..] == old(buffer[i..])
      {
        buffer[i] := data[i];
        assert buffer[i + 1..] == old(buffer[i + 1..]) by {
          assert forall j :: i + 1 <= j < buffer.Length ==> buffer[j] == old(buffer[i..])[j - i];
        }
        i := i + 1;
      }
    }

    /** CopyFrom: the buffer becomes the first n bytes of the array. */
    method CopyFrom(buffer: array<byte>, n: nat)
      requires n <= buffer.Length
      modifies this
      ensures data == buffer[..n]
    {
      var d: seq<byte> := [];
      var i := 0;
      while i < n
        invariant 0 <= i <= n
        invariant d == buffer[..i]
      {
        d := d + [buffer[i]];
        i := i + 1;
      }
      data := d;
    }

    /** operator==: the same size and the same bytes. */
    function Equals(other: BinaryData): (r: bool)
      reads this, other
      ensures r <==> |data| == |other.data| && forall i :: 0 <= i < |data| ==> data[i] == other.data[i]
    {
      data == other.data
    }

    /** operator!=. */
    function NotEquals(other: BinaryData): (r: bool)
      reads this, other
      ensures r <==> !Equals(other)
    {
      !Equals(other)
    }

    /** operator<: lexicographic by byte. */
    function Less(other: BinaryData): (r: bool)
      reads this, other
      ensures r <==> LexBefore(data, other.data)
    {
      LexLessIsLexBefore(data, other.data);
      LexLess(data, other.data)
    }
  }

  /** CopyTo followed by CopyFrom with the source's size reproduces it. */
  method CopyRoundTrip(src: BinaryData, dst: BinaryData, buffer: array<byte>)
    requires buffer.Length >= |src.data| && src != dst
    modifies buffer, dst
    ensures dst.data == src.data && src.data == old(src.data)
  {
    src.CopyTo(buffer);
    dst.CopyFrom(buffer, src.GetSize());
  }

  /** The first fill of the test: the digits '0' to '9', then a zero. */
  method FillDigits(data: BinaryData)
    modifies data
    ensures |data.data| == 11 && data.data[10] == 0
    ensures forall j :: 0 <= j < 10 ==> data.data[j] == j + '0' as int
  {
    data.SetSize(11);
    for i := 0 to 10
      invariant |data.data| == 11
      invariant forall j :: 0 <= j < i ==> data.data[j] == j + '0' as int
    {
      data.Set(i, i + '0' as int);
    }
    data.Set(10, 0);
  }

  /** The second fill of the test: the bytes 1 to 200, then a zero. */
  method FillCounting(data: BinaryData)
    modifies data
    ensures |data.data| == 201 && data.data[200] == 0
    ensures forall j :: 0 <= j < 200 ==> data.data[j] == j + 1
  {
    data.SetSize(201);
    for i := 0 to 200
      invariant |data.data| == 201
      invariant forall j :: 0 <= j < i ==> data.data[j] == j + 1
    {
      data.Set(i, i + 1);
    }
    data.Set(200, 0);
  }

  /** The first half of the test: fill two buffers, copy the second out
      and back into a third, and compare the first two. */
  method CompareScenario() returns (copied: bool, eq: bool, ne: bool, lt: bool)
    ensures copied && !eq && ne && !lt
  {
    var data := new BinaryData();
    var data2 := new BinaryData();
    var data3 := new BinaryData();
    var buffer := new byte[201];
    FillDigits(data);
    FillCounting(data2);
    CopyRoundTrip(data2, data3, buffer);
    copied := data3.Equals(data2) && |data.GetData()| == data.GetSize();
    eq := data.Equals(data2);
    ne := data.NotEquals(data2);
    assert data.data[0] == 48 && data2.data[0] == 1;
    FirstDifferenceDecides(data.data, data2.data, 0);
    lt := data.Less(data2);
  }

  /** The second half of the test: shrink the buffers to {'\\', 0} and
      {'\\', 0, 0}; the shorter one is before the longer. */
  method PrefixScenario(data: BinaryData, data2: BinaryData) returns (shortLt: bool)
    requires data != data2
    modifies data, data2
    ensures shortLt
  {
    data.SetSize(2);
    data2.SetSize(3);
    data.Set(0, '\\' as int);
    data.Set(1, 0);
    data2.Set(0, '\\' as int);
    data2.Set(1, 0);
    data2.Set(2, 0);
    ProperPrefixFirst(data.data, data2.data);
    shortLt := data.Less(data2);
  }
}
