/** String operations the source uses: `join`, splitting at a separator, decimal digits and prefixes. */
module Strings {

  /** `Array.prototype.join(sep)` on a list of strings. */
  function Join(parts: seq<string>, sep: string): string
  {
    if |parts| == 0 then ""
    else if |parts| == 1 then parts[0]
    else parts[0] + sep + Join(parts[1..], sep)
  }

  /** `s.split(c)` for a single separator character: the pieces between separators (at least one). */
  function Split(s: string, c: char): (r: seq<string>)
    ensures |r| >= 1
  {
    if |s| == 0 then [""]
    else if s[0] == c then [""] + Split(s[1..], c)
    else
      var rest := Split(s[1..], c);
      [[s[0]] + rest[0]] + rest[1..]
  }

  /** A string free of the separator is a single piece. */
  lemma {:induction false} SplitWithoutSeparator(s: string, c: char)
    requires c !in s
    ensures Split(s, c) == [s]
  {
    if |s| > 0 {
      assert c !in s[1..];
      SplitWithoutSeparator(s[1..], c);
      assert [s[0]] + s[1..] == s;
    }
  }

  /** Splitting cuts at the first separator when the part before it is free of separators. */
  lemma {:induction false} SplitAtFirst(a: string, c: char, rest: string)
    requires c !in a
    ensures Split(a + [c] + rest, c) == [a] + Split(rest, c)
  {
    var s := a + [c] + rest;
    if |a| == 0 {
      assert s == [c] + rest;
      assert s[1..] == rest;
    } else {
      assert c !in a[1..];
      SplitAtFirst(a[1..], c, rest);
      assert s[0] == a[0];
      assert s[1..] == a[1..] + [c] + rest;
      assert [a[0]] + a[1..] == a;
    }
  }

  /** Splitting at a separator splits the text on either side of it independently. */
  lemma {:induction false} SplitConcat(x: string, c: char, y: string)
    ensures Split(x + [c] + y, c) == Split(x, c) + Split(y, c)
  {
    var s := x + [c] + y;
    if |x| == 0 {
      assert s == [c] + y;
      assert s[1..] == y;
    } else {
      SplitConcat(x[1..], c, y);
      if x[0] == c {
        SplitConcatAtSeparator(x, c, y);
      } else {
        SplitConcatAtOther(x, c, y);
      }
    }
  }

  /** `SplitConcat`'s step for text starting with the separator. */
  lemma SplitConcatAtSeparator(x: string, c: char, y: string)
    requires |x| > 0 && x[0] == c
    requires Split(x[1..] + [c] + y, c) == Split(x[1..], c) + Split(y, c)
    ensures Split(x + [c] + y, c) == Split(x, c) + Split(y, c)
  {
    var s := x + [c] + y;
    assert s[0] == x[0];
    assert s[1..] == x[1..] + [c] + y;
    var rest := Split(x[1..], c);
    var right := Split(y, c);
    assert Split(s, c) == [""] + (rest + right);
    assert Split(x, c) == [""] + rest;
    ConsAssoc("", rest, right);
  }

  /** `SplitConcat`'s step for text starting with another character. */
  lemma SplitConcatAtOther(x: string, c: char, y: string)
    requires |x| > 0 && x[0] != c
    requires Split(x[1..] + [c] + y, c) == Split(x[1..], c) + Split(y, c)
    ensures Split(x + [c] + y, c) == Split(x, c) + Split(y, c)
  {
    var s := x + [c] + y;
    assert s[0] == x[0];
    assert s[1..] == x[1..] + [c] + y;
    var rest := Split(x[1..], c);
    var right := Split(y, c);
    assert Split(s, c) == [[x[0]] + (rest + right)[0]] + (rest + right)[1..];
    assert Split(x, c) == [[x[0]] + rest[0]] + rest[1..];
    MergeFirst([x[0]], rest, right);
  }

  /** Extending the first piece of a concatenation extends the first piece of its left part. */
  lemma MergeFirst<T>(h: seq<T>, rest: seq<seq<T>>, right: seq<seq<T>>)
    requires |rest| > 0
    ensures [h + (rest + right)[0]] + (rest + right)[1..] == ([h + rest[0]] + rest[1..]) + right
  {
    var both := rest + right;
    assert both[0] == rest[0];
    assert both[1..] == rest[1..] + right;
    ConsAssoc(h + rest[0], rest[1..], right);
  }

  lemma ConsAssoc<T>(h: T, a: seq<T>, b: seq<T>)
    ensures [h] + (a + b) == ([h] + a) + b
  {
  }

  /** The pieces of each part, one part after the other. */
  function SplitEach(parts: seq<string>, c: char): (r: seq<string>)
    ensures |r| >= |parts|
  {
    if |parts| == 0 then [] else Split(parts[0], c) + SplitEach(parts[1..], c)
  }

  /** Joining with a one-character separator and splitting at it gives the pieces of every part in turn. */
  lemma {:induction false} SplitJoinPieces(parts: seq<string>, c: char)
    requires |parts| > 0
    ensures Split(Join(parts, [c]), c) == SplitEach(parts, c)
  {
    if |parts| == 1 {
      assert parts[1..] == [];
      assert SplitEach(parts, c) == Split(parts[0], c) + [];
    } else {
      SplitJoinPieces(parts[1..], c);
      SplitConcat(parts[0], c, Join(parts[1..], [c]));
    }
  }

  /** Joining with a one-character separator that occurs in no part is undone by splitting at it. */
  lemma {:induction false} SplitJoin(parts: seq<string>, c: char)
    requires |parts| > 0
    requires forall i :: 0 <= i < |parts| ==> c !in parts[i]
    ensures Split(Join(parts, [c]), c) == parts
  {
    if |parts| == 1 {
      SplitWithoutSeparator(parts[0], c);
    } else {
      SplitJoin(parts[1..], c);
      SplitAtFirst(parts[0], c, Join(parts[1..], [c]));
      assert [parts[0]] + parts[1..] == parts;
    }
  }

  /** JavaScript's `\d`: an ASCII decimal digit. */
  predicate IsDigit(c: char)
  {
    '0' <= c <= '9'
  }

  predicate AllDigits(s: string)
  {
    forall i :: 0 <= i < |s| ==> IsDigit(s[i])
  }

  function DigitChar(d: nat): (c: char)
    requires d < 10
    ensures IsDigit(c) && c as int - '0' as int == d
  {
    ('0' as int + d) as char
  }

  /** The decimal text of a non-negative integer, as `Number.prototype.toString()` gives it. */
  function NatToDecimal(n: nat): (r: string)
    ensures |r| > 0 && AllDigits(r)
    ensures r[0] == '0' <==> n == 0
    decreases n
  {
    if n < 10 then [DigitChar(n)] else NatToDecimal(n / 10) + [DigitChar(n % 10)]
  }

  /** The number a string of decimal digits denotes. */
  function DecimalValue(s: string): nat
    requires AllDigits(s)
  {
    if |s| == 0 then 0 else DecimalValue(s[..|s| - 1]) * 10 + (s[|s| - 1] as int - '0' as int)
  }

  /** Reading back the decimal text of `n` gives `n`. */
  lemma {:induction false} DecimalRoundTrip(n: nat)
    ensures DecimalValue(NatToDecimal(n)) == n
    decreases n
  {
    var r := NatToDecimal(n);
    if n >= 10 {
      DecimalRoundTrip(n / 10);
      assert r[..|r| - 1] == NatToDecimal(n / 10);
    }
  }

  /** `s.startsWith(prefix)`. */
  predicate StartsWith(s: string, prefix: string)
  {
    |prefix| <= |s| && s[..|prefix|] == prefix
  }
}
