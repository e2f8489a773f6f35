/**
 * The string helpers the resolution chain relies on: `explode`/`implode`
 * (and lodash-php's `split`), ASCII lower-casing (`__::lowerCase`),
 * first-letter upper-casing (`__::capitalize`, PHP's `ucfirst`) and
 * `__::camelCase`, plus decimal rendering of integers.
 */
module Strings {

  /** Splits `s` at every occurrence of `c`; an empty string gives one empty token. */
  function Split(s: string, c: char): (r: seq<string>)
    ensures |r| >= 1
    decreases |s|
  {
    if |s| == 0 then [""]
    else if s[0] == c then [""] + Split(s[1..], c)
    else
      var rest := Split(s[1..], c);
      [[s[0]] + rest[0]] + rest[1..]
  }

  /** Joins `parts` with `sep` between consecutive parts. */
  function Join(parts: seq<string>, sep: string): string
  {
    if |parts| == 0 then ""
    else if |parts| == 1 then parts[0]
    else parts[0] + sep + Join(parts[1..], sep)
  }

  predicate IsUpper(ch: char) { 'A' <= ch <= 'Z' }

  predicate IsLower(ch: char) { 'a' <= ch <= 'z' }

  function LowerChar(ch: char): char
  {
    if IsUpper(ch) then (ch as int - 'A' as int + 'a' as int) as char else ch
  }

  function UpperChar(ch: char): char
  {
    if IsLower(ch) then (ch as int - 'a' as int + 'A' as int) as char else ch
  }

  /** ASCII lower-casing; other characters are left alone. */
  function Lower(s: string): string
  {
    seq(|s|, i requires 0 <= i < |s| => LowerChar(s[i]))
  }

  /** Upper-cases the first character only. */
  function Capitalize(s: string): string
  {
    if |s| == 0 then s else [UpperChar(s[0])] + s[1..]
  }

  /**
   * lodash's camelCase, on the inputs it receives here: a single word that is
   * already lower case, which it returns unchanged.
   */
  function CamelCase(s: string): string
  {
    s
  }

  function LowerAll(ts: seq<string>): seq<string>
  {
    seq(|ts|, i requires 0 <= i < |ts| => Lower(ts[i]))
  }

  function CapitalizeAll(ts: seq<string>): seq<string>
  {
    seq(|ts|, i requires 0 <= i < |ts| => Capitalize(ts[i]))
  }

  function NatToDecimal(n: nat): string
  {
    if n < 10 then ["0123456789"[n]] else NatToDecimal(n / 10) + ["0123456789"[n % 10]]
  }

  /** PHP's conversion of an integer to a string. */
  function IntToDecimal(n: int): string
  {
    if n < 0 then "-" + NatToDecimal(-n) else NatToDecimal(n)
  }

  // ---------------------------------------------------------------------
  // Lemmas

  lemma {:induction false} JoinPrefixHead(x: string, rest: seq<string>, sep: string)
    requires |rest| >= 1
    ensures Join([x + rest[0]] + rest[1..], sep) == x + Join(rest, sep)
  {
    var r := [x + rest[0]] + rest[1..];
    if |rest| == 1 {
    } else {
      assert r[1..] == rest[1..];
    }
  }

  /** Splitting and re-joining with the same separator gives back the string. */
  lemma {:induction false} SplitJoin(s: string, c: char)
    ensures Join(Split(s, c), [c]) == s
    decreases |s|
  {
    if |s| == 0 {
    } else if s[0] == c {
      var rest := Split(s[1..], c);
      SplitJoin(s[1..], c);
      assert ([""] + rest)[1..] == rest;
      assert s == [c] + s[1..];
    } else {
      var rest := Split(s[1..], c);
      SplitJoin(s[1..], c);
      JoinPrefixHead([s[0]], rest, [c]);
      assert s == [s[0]] + s[1..];
    }
  }

  /** No token of a split contains the separator. */
  lemma {:induction false} SplitTokensLackSeparator(s: string, c: char)
    ensures forall i :: 0 <= i < |Split(s, c)| ==> c !in Split(s, c)[i]
    decreases |s|
  {
    if |s| > 0 {
      SplitTokensLackSeparator(s[1..], c);
      var rest := Split(s[1..], c);
      if s[0] != c {
        assert c !in rest[0];
        assert c !in [s[0]] + rest[0];
      }
    }
  }

  /** The first token of a split is everything before the first separator. */
  lemma {:induction false} SplitAtFirst(a: string, c: char, b: string)
    requires c !in a
    ensures Split(a + [c] + b, c) == [a] + Split(b, c)
    decreases |a|
  {
    var s := a + [c] + b;
    if |a| == 0 {
      assert s == [c] + b && s[1..] == b;
    } else {
      assert s[0] == a[0] && s[1..] == a[1..] + [c] + b;
      assert c !in a[1..] by {
        forall k | 0 <= k < |a[1..]| ensures a[1..][k] != c { assert a[1..][k] == a[k + 1]; }
      }
      SplitAtFirst(a[1..], c, b);
      assert [a[0]] + a[1..] == a;
    }
  }

  /** A string without the separator splits into itself alone. */
  lemma {:induction false} SplitWithoutSeparator(s: string, c: char)
    requires c !in s
    ensures Split(s, c) == [s]
    decreases |s|
  {
    if |s| > 0 {
      assert c !in s[1..] by {
        forall k | 0 <= k < |s[1..]| ensures s[1..][k] != c { assert s[1..][k] == s[k + 1]; }
      }
      SplitWithoutSeparator(s[1..], c);
      assert s == [s[0]] + s[1..];
    }
  }

  /** Lower-casing distributes over concatenation. */
  lemma LowerConcat(a: string, b: string)
    ensures Lower(a + b) == Lower(a) + Lower(b)
  {
    assert forall i :: 0 <= i < |a + b| ==> Lower(a + b)[i] == (Lower(a) + Lower(b))[i];
  }

  /** Lower-casing every token of a non-empty list: the head, then the rest. */
  lemma LowerAllCons(x: string, xs: seq<string>)
    ensures LowerAll([x] + xs) == [Lower(x)] + LowerAll(xs)
  {
    assert forall i :: 0 <= i < |xs| + 1 ==> LowerAll([x] + xs)[i] == ([Lower(x)] + LowerAll(xs))[i];
  }

  /** Splitting a lower-cased string on '-' gives the lower-cased tokens: lower-casing keeps the hyphens where they are. */
  lemma {:induction false} SplitLower(s: string)
    ensures Split(Lower(s), '-') == LowerAll(Split(s, '-'))
    decreases |s|
  {
    if |s| > 0 {
      var head, tail := [s[0]], s[1..];
      assert s == head + tail;
      LowerConcat(head, tail);
      var l := Lower(s);
      assert l[0] == LowerChar(s[0]) && l[1..] == Lower(tail);
      SplitLower(tail);
      var rest := Split(tail, '-');
      if s[0] == '-' {
        LowerAllCons("", rest);
        assert l[0] == '-';
        assert Split(l, '-') == [""] + Split(l[1..], '-');
        assert Split(s, '-') == [""] + rest;
        assert Lower("") == "";
      } else {
        assert l[0] != '-';
        LowerConcat(head, rest[0]);
        assert rest == [rest[0]] + rest[1..];
        LowerAllCons(rest[0], rest[1..]);
        LowerAllCons(head + rest[0], rest[1..]);
        var lrest := Split(l[1..], '-');
        assert lrest == [Lower(rest[0])] + LowerAll(rest[1..]);
        assert Split(l, '-') == [[l[0]] + lrest[0]] + lrest[1..];
        assert lrest[1..] == LowerAll(rest[1..]);
        assert [l[0]] + Lower(rest[0]) == Lower(head + rest[0]);
        assert Split(s, '-') == [head + rest[0]] + rest[1..];
      }
    }
  }

  lemma CapitalizeKeepsHyphens(s: string)
    ensures '-' in Capitalize(s) <==> '-' in s
  {
    if |s| > 0 {
      assert s == [s[0]] + s[1..];
    }
  }

  /** Concatenating tokens that lack a character gives a string that lacks it. */
  lemma {:induction false} JoinLacks(ts: seq<string>, c: char)
    requires forall i :: 0 <= i < |ts| ==> c !in ts[i]
    ensures c !in Join(ts, "")
  {
    if |ts| > 1 {
      JoinLacks(ts[1..], c);
    }
  }
}
