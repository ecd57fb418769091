/** Values shared by every component of the ingestion and query pipeline:
    the error-carrying wrappers, the document record that flows between the
    stages, and the sequence facts the batch pipeline relies on. */
module Common {

  datatype Option<+T> = None | Some(value: T)

  datatype Result<+T, +E> = Success(value: T) | Failure(error: E)

  /** A dynamically typed value (Go's `any`) as it appears in document
      metadata and in the columns of a vector-search result. */
  datatype Any =
    | Null
    | Text(s: string)
    | Int(i: int)
    | Bool(b: bool)
    | Map(m: map<string, Any>)

  /** `schema.Document`: an identifier, the text and an optional (nil-able)
      metadata map. */
  datatype Document = Document(id: string, content: string, metaData: Option<map<string, Any>>)

  type Batch = seq<Document>

  /** A Go `int` used as a count: negative values count as zero. */
  function NonNegative(x: int): (r: nat)
  {
    if x < 0 then 0 else x
  }

  /** All items of a sequence of batches, batch after batch (Go's repeated
      `append(all, batch...)`). */
  function Flatten<T>(bs: seq<seq<T>>): (r: seq<T>)
  {
    if bs == [] then [] else bs[0] + Flatten(bs[1..])
  }

  lemma {:induction false} FlattenAppend<T>(xs: seq<seq<T>>, ys: seq<seq<T>>)
    ensures Flatten(xs + ys) == Flatten(xs) + Flatten(ys)
  {
    if xs == [] {
      assert xs + ys == ys;
    } else {
      assert (xs + ys)[1..] == xs[1..] + ys;
      FlattenAppend(xs[1..], ys);
    }
  }

  /** The items of a sequence of batches do not depend on the order of the
      batches: any rearrangement of the batches yields the same multiset of
      items. */
  lemma {:induction false} FlattenPermutation<T>(xs: seq<seq<T>>, ys: seq<seq<T>>)
    requires multiset(xs) == multiset(ys)
    ensures multiset(Flatten(xs)) == multiset(Flatten(ys))
    decreases |xs|
  {
    if xs == [] {
      assert |ys| == |multiset(ys)| == 0;
      assert ys == [];
    } else {
      var x := xs[0];
      assert x in multiset(ys);
      var k :| 0 <= k < |ys| && ys[k] == x;
      var rest := ys[..k] + ys[k + 1..];
      RemoveAt(ys, k);
      assert xs == [x] + xs[1..];
      assert multiset(xs[1..]) == multiset(xs) - multiset{x};
      FlattenPermutation(xs[1..], rest);
      FlattenAt(ys, k);
      FlattenAppend(ys[..k], ys[k + 1..]);
    }
  }

  lemma RemoveAt<T>(ys: seq<T>, k: nat)
    requires k < |ys|
    ensures multiset(ys[..k] + ys[k + 1..]) == multiset(ys) - multiset{ys[k]}
  {
    assert ys == ys[..k] + [ys[k]] + ys[k + 1..];
  }

  lemma {:induction false} FlattenAt<T>(ys: seq<seq<T>>, k: nat)
    requires k < |ys|
    ensures Flatten(ys) == Flatten(ys[..k]) + ys[k] + Flatten(ys[k + 1..])
    decreases k
  {
    if k > 0 {
      var tail := ys[1..];
      FlattenAt(tail, k - 1);
      assert tail[..k - 1] == ys[1..k];
      assert tail[k - 1] == ys[k];
      assert tail[k..] == ys[k + 1..];
      assert ys[..k][1..] == ys[1..k];
      assert Flatten(ys[..k]) == ys[0] + Flatten(ys[1..k]);
    }
  }

  /** Go's `strings.Contains(s, sub)`. */
  predicate Contains(s: string, sub: string)
    decreases |s|
  {
    |sub| <= |s| && (s[..|sub|] == sub || Contains(s[1..], sub))
  }

  /** `sub` occurs in `s` starting at offset `i`. */
  predicate OccursAt(s: string, sub: string, i: int)
  {
    0 <= i && i + |sub| <= |s| && s[i..i + |sub|] == sub
  }

  /** Where `sub` occurs in a text that contains it. */
  lemma {:induction false} OccursWhenContains(s: string, sub: string) returns (i: nat)
    requires Contains(s, sub)
    ensures OccursAt(s, sub, i)
    decreases |s|
  {
    if s[..|sub|] == sub {
      i := 0;
    } else {
      var j := OccursWhenContains(s[1..], sub);
      assert s[1..][j..j + |sub|] == s[j + 1..j + 1 + |sub|];
      i := j + 1;
    }
  }

  lemma {:induction false} ContainsWhenOccurs(s: string, sub: string, i: int)
    requires OccursAt(s, sub, i)
    ensures Contains(s, sub)
    decreases i
  {
    if i > 0 {
      assert s[1..][i - 1..i - 1 + |sub|] == s[i..i + |sub|];
      ContainsWhenOccurs(s[1..], sub, i - 1);
    }
  }

  /** Contains holds exactly when `sub` occurs at some offset of `s`. */
  lemma ContainsIffOccurs(s: string, sub: string)
    ensures Contains(s, sub) <==> exists i :: OccursAt(s, sub, i)
  {
    if Contains(s, sub) {
      var i := OccursWhenContains(s, sub);
    }
    if exists i :: OccursAt(s, sub, i) {
      var i :| OccursAt(s, sub, i);
      ContainsWhenOccurs(s, sub, i);
    }
  }

  /** `strings.Join(parts, sep)`. */
  function Join(parts: seq<string>, sep: string): (r: string)
  {
    if parts == [] then ""
    else if |parts| == 1 then parts[0]
    else parts[0] + sep + Join(parts[1..], sep)
  }

  /** Every part occurs in the joined text. */
  lemma {:induction false} JoinContainsParts(parts: seq<string>, sep: string, k: nat)
    requires k < |parts|
    ensures Contains(Join(parts, sep), parts[k])
    decreases |parts|
  {
    var j := Join(parts, sep);
    if k == 0 {
      ContainsWhenOccurs(j, parts[0], 0);
    } else {
      JoinContainsParts(parts[1..], sep, k - 1);
      var tail := Join(parts[1..], sep);
      assert j == (parts[0] + sep) + tail + "";
      ContainsInfix(parts[0] + sep, tail, "", parts[k]);
    }
  }

  lemma {:induction false} ContainsInfix(prefix: string, mid: string, suffix: string, sub: string)
    requires Contains(mid, sub)
    ensures Contains(prefix + mid + suffix, sub)
  {
    var i := OccursWhenContains(mid, sub);
    var s := prefix + mid + suffix;
    assert s[|prefix| + i..|prefix| + i + |sub|] == mid[i..i + |sub|];
    ContainsWhenOccurs(s, sub, |prefix| + i);
  }

  /** Multiplying by a positive number keeps the order. */
  lemma {:induction false} MulMono(a: int, b: int, d: int)
    requires d > 0 && a <= b
    ensures a * d <= b * d
    decreases b - a
  {
    if a < b {
      MulMono(a, b - 1, d);
      assert b * d == (b - 1) * d + d;
    }
  }

  // ---------------------------------------------------------------------
  // Decimal rendering of integers (Go's "%d")

  function DigitChar(d: nat): (c: char)
    requires d < 10
  {
    (d + '0' as int) as char
  }

  function DigitValue(c: char): (d: Option<nat>)
  {
    if '0' <= c <= '9' then Some(c as int - '0' as int) else None
  }

  /** "%d" of a natural number: the shortest decimal digit string. */
  function NatToDecimal(n: nat): (s: string)
    decreases n
  {
    if n < 10 then [DigitChar(n)] else NatToDecimal(n / 10) + [DigitChar(n % 10)]
  }

  /** "%d" of an integer: a minus sign before the digits of a negative value. */
  function IntToDecimal(i: int): (s: string)
  {
    if i < 0 then "-" + NatToDecimal(-i) else NatToDecimal(i)
  }

  /** The reading of a digit string, None if some character is not a digit. */
  function ParseNat(s: string): (r: Option<nat>)
    decreases |s|
  {
    if s == [] then None
    else
      var last := DigitValue(s[|s| - 1]);
      if last.None? then None
      else if |s| == 1 then last
      else
        var init := ParseNat(s[..|s| - 1]);
        if init.None? then None else Some(10 * init.value + last.value)
  }

  /** Reads back what `IntToDecimal` writes. */
  function ParseDecimal(s: string): (r: Option<int>)
  {
    if |s| > 0 && s[0] == '-' then
      var n := ParseNat(s[1..]);
      if n.Some? && n.value > 0 then Some(0 - n.value) else None
    else ParseNat(s)
  }

  lemma {:induction false} NatToDecimalRoundTrip(n: nat)
    ensures |NatToDecimal(n)| > 0 && NatToDecimal(n)[0] != '-'
    ensures ParseNat(NatToDecimal(n)) == Some(n)
    decreases n
  {
    var s := NatToDecimal(n);
    if n < 10 {
      assert DigitValue(DigitChar(n)) == Some(n);
    } else {
      NatToDecimalRoundTrip(n / 10);
      assert s[..|s| - 1] == NatToDecimal(n / 10);
      assert DigitValue(s[|s| - 1]) == Some(n % 10);
      assert NatToDecimal(n / 10)[0] != '-';
      assert s[0] == NatToDecimal(n / 10)[0];
    }
  }

  /** Decimal rendering is lossless: different integers get different
      strings, and parsing recovers the integer. */
  lemma DecimalRoundTrip(i: int)
    ensures ParseDecimal(IntToDecimal(i)) == Some(i)
  {
    if i < 0 {
      var digits := NatToDecimal(-i);
      NatToDecimalRoundTrip(-i);
      var s := "-" + digits;
      assert s[0] == '-' && s[1..] == digits;
      assert ParseDecimal(s) == Some(0 - (-i));
    } else {
      NatToDecimalRoundTrip(i);
    }
  }

  // ---------------------------------------------------------------------
  // Go's int64 (time.Duration is an int64 count of nanoseconds)

  const Int64Min: int := -0x8000_0000_0000_0000
  const Int64Max: int := 0x7FFF_FFFF_FFFF_FFFF

  predicate IsInt64(x: int) { Int64Min <= x <= Int64Max }

  /** Two's-complement wrap-around of an integer into the int64 range. */
  function WrapInt64(x: int): (r: int)
    ensures IsInt64(r)
    ensures IsInt64(x) ==> r == x
    ensures (r - x) % 0x1_0000_0000_0000_0000 == 0
  {
    (x - Int64Min) % 0x1_0000_0000_0000_0000 + Int64Min
  }
}
