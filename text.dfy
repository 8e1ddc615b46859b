/**
 * The string operations the client and the server rely on: Python's `str(int)`,
 * `sep.join(xs)`, `s.split(c)` and `os.path.basename`, with the facts about them
 * that the rest of the model uses.
 */
module Text {

  import opened Wrappers

  // ----- decimal rendering of integers (`str(n)`, `f"{n}"`) -----

  predicate IsDigit(c: char) { '0' <= c <= '9' }

  predicate AllDigits(s: string) { forall i :: 0 <= i < |s| ==> IsDigit(s[i]) }

  function Digit(d: nat): (c: char)
    requires d < 10
    ensures IsDigit(c) && c as int - '0' as int == d
  {
    "0123456789"[d]
  }

  /** The decimal digits of `n`, most significant first, without leading zeros. */
  function NatToString(n: nat): (s: string)
    ensures |s| >= 1 && AllDigits(s)
    ensures n < 10 <==> |s| == 1
    decreases n
  {
    if n < 10 then [Digit(n)] else NatToString(n / 10) + [Digit(n % 10)]
  }

  /** `str(i)` for a Python int: a minus sign before the digits of a negative number. */
  function IntToString(i: int): (s: string)
    ensures |s| >= 1
  {
    if i < 0 then "-" + NatToString(-i) else NatToString(i)
  }

  /** The number a string of decimal digits denotes. */
  function DigitsValue(s: string): nat
    requires AllDigits(s)
  {
    if s == [] then 0 else DigitsValue(s[..|s| - 1]) * 10 + (s[|s| - 1] as int - '0' as int)
  }

  /** Python's `int(s)` restricted to what `str(int)` produces: an optional minus and digits. */
  function ParseInt(s: string): Option<int>
  {
    if |s| >= 2 && s[0] == '-' && AllDigits(s[1..]) then Some(0 - DigitsValue(s[1..]) as int)
    else if |s| >= 1 && AllDigits(s) then Some(DigitsValue(s))
    else None
  }

  lemma {:induction false} DigitsValueOfNatToString(n: nat)
    ensures DigitsValue(NatToString(n)) == n
    decreases n
  {
    if n >= 10 {
      var s := NatToString(n);
      assert s[..|s| - 1] == NatToString(n / 10);
      DigitsValueOfNatToString(n / 10);
    }
  }

  lemma ParseNatToString(n: nat)
    ensures ParseInt(NatToString(n)) == Some(n)
  {
    var s := NatToString(n);
    assert s[0] != '-' by { assert IsDigit(s[0]); }
    DigitsValueOfNatToString(n);
  }

  lemma ParseNegated(n: nat)
    ensures ParseInt("-" + NatToString(n)) == Some(0 - n)
  {
    var d := NatToString(n);
    var s := "-" + d;
    assert s[1..] == d;
    DigitsValueOfNatToString(n);
  }

  /** Reading back a rendered integer gives the integer. */
  lemma ParseIntToString(i: int)
    ensures ParseInt(IntToString(i)) == Some(i)
  {
    if i < 0 {
      var n: nat := -i;
      ParseNegated(n);
      assert IntToString(i) == "-" + NatToString(n);
    } else {
      var n: nat := i;
      ParseNatToString(n);
      assert IntToString(i) == NatToString(n);
    }
  }

  // ----- sequences -----

  /** Dropping the last element of `a + b` drops the last element of `b`. */
  lemma DropLast<T>(a: seq<T>, b: seq<T>)
    requires b != []
    ensures (a + b)[..|a + b| - 1] == a + b[..|b| - 1] && (a + b)[|a + b| - 1] == b[|b| - 1]
  {
  }

  /** A sequence is what comes before position `i`, the element at `i`, and what follows. */
  lemma Around<T>(s: seq<T>, i: nat)
    requires i < |s|
    ensures s == s[..i] + [s[i]] + s[i + 1..]
  {
  }

  // ----- prefixes -----

  predicate StartsWith(s: string, prefix: string) { |prefix| <= |s| && s[..|prefix|] == prefix }

  /** A string that starts with `prefix` is `prefix` followed by the rest. */
  lemma StartsWithSplit(s: string, prefix: string)
    requires StartsWith(s, prefix)
    ensures s == prefix + s[|prefix|..]
  {
    assert s == s[..|prefix|] + s[|prefix|..];
  }

  /** Two strings that differ at a position both have: no extension of one is an extension of the other. */
  predicate Apart(a: string, b: string)
  {
    exists i :: 0 <= i < |a| && i < |b| && a[i] != b[i]
  }

  lemma ApartExtensions(a: string, b: string, x: string, y: string)
    requires Apart(a, b)
    ensures a + x != b + y
    ensures !StartsWith(b + y, a) && !StartsWith(a + x, b)
  {
    var i :| 0 <= i < |a| && i < |b| && a[i] != b[i];
    assert (a + x)[i] == a[i] && (b + y)[i] == b[i];
    if |a| <= |b + y| {
      assert (b + y)[..|a|][i] != a[i];
    }
    if |b| <= |a + x| {
      assert (a + x)[..|b|][i] != b[i];
    }
  }

  lemma StartsWithConcat(prefix: string, rest: string)
    ensures StartsWith(prefix + rest, prefix)
    ensures (prefix + rest)[|prefix|..] == rest
  {
    assert (prefix + rest)[..|prefix|] == prefix;
  }

  /** A string that differs from `prefix` at a position both have does not start with it. */
  lemma DiffersAt(s: string, prefix: string, i: nat)
    requires i < |s| && i < |prefix| && s[i] != prefix[i]
    ensures !StartsWith(s, prefix)
  {
    if |prefix| <= |s| {
      assert s[..|prefix|][i] == s[i];
    }
  }

  /** The lines of `lines` that start with `prefix`, in order. */
  function Starting(lines: seq<string>, prefix: string): seq<string>
  {
    if lines == [] then []
    else Starting(lines[..|lines| - 1], prefix)
         + (if StartsWith(lines[|lines| - 1], prefix) then [lines[|lines| - 1]] else [])
  }

  lemma {:induction false} StartingAppend(a: seq<string>, b: seq<string>, prefix: string)
    ensures Starting(a + b, prefix) == Starting(a, prefix) + Starting(b, prefix)
    decreases |b|
  {
    if b != [] {
      assert (a + b)[..|a + b| - 1] == a + b[..|b| - 1];
      StartingAppend(a, b[..|b| - 1], prefix);
    } else {
      assert a + b == a;
    }
  }

  // ----- `sep.join(xs)` and `s.split(c)` -----

  /** Python's `sep.join(xs)`. */
  function Join(xs: seq<string>, sep: string): string
  {
    if |xs| == 0 then "" else if |xs| == 1 then xs[0] else xs[0] + sep + Join(xs[1..], sep)
  }

  /** A join contains a character only if a part or the separator does. */
  lemma {:induction false} JoinExcludes(xs: seq<string>, sep: string, c: char)
    requires c !in sep
    requires forall i :: 0 <= i < |xs| ==> c !in xs[i]
    ensures c !in Join(xs, sep)
    decreases |xs|
  {
    if |xs| > 1 {
      JoinExcludes(xs[1..], sep, c);
      assert forall k :: 0 <= k < |xs[0] + sep + Join(xs[1..], sep)| ==>
        (xs[0] + sep + Join(xs[1..], sep))[k] != c;
    }
  }

  /** Python's `s.split(c)` for a one-character separator: never an empty list. */
  function Split(s: string, c: char): (parts: seq<string>)
    ensures |parts| >= 1
  {
    if s == [] then [""]
    else
      var rest := Split(s[1..], c);
      if s[0] == c then [""] + rest else [[s[0]] + rest[0]] + rest[1..]
  }

  lemma {:induction false} SplitWithoutSeparator(a: string, c: char)
    requires c !in a
    ensures Split(a, c) == [a]
  {
    if a != [] {
      SplitWithoutSeparator(a[1..], c);
      assert [a[0]] + a[1..] == a;
    }
  }

  lemma {:induction false} SplitAtFirstSeparator(a: string, c: char, rest: string)
    requires c !in a
    ensures Split(a + [c] + rest, c) == [a] + Split(rest, c)
  {
    var s := a + [c] + rest;
    if a == [] {
      assert s[1..] == rest;
    } else {
      assert s[1..] == a[1..] + [c] + rest;
      SplitAtFirstSeparator(a[1..], c, rest);
      assert [a[0]] + a[1..] == a;
    }
  }

  /** Splitting a join on its one-character separator recovers the parts,
      provided there is at least one part and no part contains the separator. */
  lemma {:induction false} SplitJoin(xs: seq<string>, c: char)
    requires |xs| >= 1
    requires forall i :: 0 <= i < |xs| ==> c !in xs[i]
    ensures Split(Join(xs, [c]), c) == xs
  {
    if |xs| == 1 {
      SplitWithoutSeparator(xs[0], c);
    } else {
      SplitJoin(xs[1..], c);
      SplitAtFirstSeparator(xs[0], c, Join(xs[1..], [c]));
      assert [xs[0]] + xs[1..] == xs;
    }
  }

  // ----- `os.path.basename` -----

  /** POSIX `os.path.basename(p)`: what follows the last `/`, or all of `p` if it has none. */
  function Basename(p: string): (b: string)
    ensures '/' !in b
    ensures |b| <= |p| && b == p[|p| - |b|..]
    ensures |b| < |p| ==> p[|p| - |b| - 1] == '/'
  {
    if p == [] then []
    else if p[|p| - 1] == '/' then []
    else Basename(p[..|p| - 1]) + [p[|p| - 1]]
  }
}
