/** Text building blocks shared by the key renderer, the relation fingerprint and the filter language. */
module Text {

  lemma ConcatAssoc<T>(a: seq<T>, b: seq<T>, c: seq<T>)
    ensures a + b + c == a + (b + c)
  {
  }

  /** strings.Join: the parts separated by `sep`. */
  function Join(parts: seq<string>, sep: string): string {
    if |parts| == 0 then ""
    else if |parts| == 1 then parts[0]
    else parts[0] + sep + Join(parts[1..], sep)
  }

  /** Decimal digits of a natural number, most significant first (no leading zeros). */
  function Digits(n: nat): (s: string)
    ensures |s| >= 1 && (n >= 10 ==> |s| >= 2)
    ensures forall i :: 0 <= i < |s| ==> '0' <= s[i] <= '9'
  {
    (if n < 10 then "" else Digits(n / 10)) + [Digit(n % 10)]
  }

  function Digit(d: nat): (c: char)
    requires d < 10
    ensures '0' <= c <= '9' && c as int == '0' as int + d
  {
    ('0' as int + d) as char
  }

  /** The rendering of an integer by the `%d` verb. */
  function Decimal(n: int): string {
    if n < 0 then "-" + Digits(-n) else Digits(n)
  }

  predicate Free(c: char, s: string) {
    c !in s
  }

  /** The number that decimal digits denote. */
  function ValueOf(s: string): int {
    if |s| == 0 then 0 else 10 * ValueOf(s[..|s| - 1]) + (s[|s| - 1] as int - '0' as int)
  }

  lemma AppendDigit(s: string, d: nat)
    requires d < 10
    ensures ValueOf(s + [Digit(d)]) == 10 * ValueOf(s) + d
  {
    assert (s + [Digit(d)])[..|s|] == s;
  }

  lemma {:induction false} DigitsValue(n: nat)
    ensures ValueOf(Digits(n)) == n
  {
    if n < 10 {
      AppendDigit("", n);
      assert Digits(n) == "" + [Digit(n)];
    } else {
      var q, d := n / 10, n % 10;
      DigitsValue(q);
      AppendDigit(Digits(q), d);
    }
  }

  lemma DigitsInjective(a: nat, b: nat)
    requires Digits(a) == Digits(b)
    ensures a == b
  {
    DigitsValue(a);
    DigitsValue(b);
  }

  lemma SignShows(n: int)
    ensures |Decimal(n)| > 0
    ensures n < 0 <==> Decimal(n)[0] == '-'
    ensures n < 0 ==> Decimal(n)[1..] == Digits(-n)
  {
    if n >= 0 {
      var s := Digits(n);
      assert '0' <= s[0] <= '9';
    }
  }

  lemma {:induction false} DecimalInjective(a: int, b: int)
    requires Decimal(a) == Decimal(b)
    ensures a == b
  {
    SignShows(a);
    SignShows(b);
    if a < 0 {
      DigitsInjective(-a, -b);
    } else {
      DigitsInjective(a, b);
    }
  }

  lemma DecimalFree(n: int)
    ensures Free('|', Decimal(n))
  {
  }

  /** A separator-free head determines where the first separator is. */
  lemma HeadUnique(x: string, r: string, y: string, s: string, sep: char)
    requires Free(sep, x) && Free(sep, y)
    requires x + [sep] + r == y + [sep] + s
    ensures x == y && r == s
  {
    var u := x + [sep] + r;
    assert u[|x|] == sep && (y + [sep] + s)[|y|] == sep;
    assert forall i :: 0 <= i < |x| ==> u[i] == x[i];
    assert forall i :: 0 <= i < |y| ==> (y + [sep] + s)[i] == y[i];
    assert |x| == |y|;
    assert x == u[..|x|] && y == u[..|y|];
    assert r == u[|x| + 1..] && s == u[|y| + 1..];
  }

  /** Joining with a separator loses nothing when no part contains the separator. */
  lemma {:induction false} JoinInjective(a: seq<string>, b: seq<string>, sep: char)
    requires |a| > 0 && |b| > 0
    requires forall p :: p in a ==> Free(sep, p)
    requires forall p :: p in b ==> Free(sep, p)
    requires Join(a, [sep]) == Join(b, [sep])
    ensures a == b
  {
    assert Free(sep, a[0]) && Free(sep, b[0]);
    assert |a| > 1 ==> Join(a, [sep])[|a[0]|] == sep;
    assert |b| > 1 ==> Join(b, [sep])[|b[0]|] == sep;
    assert |a| > 1 <==> sep in Join(a, [sep]);
    assert |b| > 1 <==> sep in Join(b, [sep]);
    if |a| > 1 {
      HeadUnique(a[0], Join(a[1..], [sep]), b[0], Join(b[1..], [sep]), sep);
      JoinInjective(a[1..], b[1..], sep);
    }
  }

  // ---- exactly when joining loses nothing

  function Count(c: char, s: string): nat {
    if |s| == 0 then 0 else Count(c, s[..|s| - 1]) + if s[|s| - 1] == c then 1 else 0
  }

  lemma {:induction false} CountConcat(c: char, s: string, t: string)
    ensures Count(c, s + t) == Count(c, s) + Count(c, t)
    decreases |t|
  {
    if |t| == 0 {
      assert s + t == s;
    } else {
      CountConcat(c, s, t[..|t| - 1]);
      assert (s + t)[..|s + t| - 1] == s + t[..|t| - 1];
    }
  }

  lemma {:induction false} CountFree(c: char, s: string)
    ensures Count(c, s) == 0 <==> Free(c, s)
  {
    if |s| > 0 {
      CountFree(c, s[..|s| - 1]);
      assert s == s[..|s| - 1] + [s[|s| - 1]];
    }
  }

  /** A join contains one separator between any two neighbours, and more exactly when a part contains one. */
  lemma {:induction false} CountJoin(a: seq<string>, sep: char)
    requires |a| > 0
    ensures Count(sep, Join(a, [sep])) >= |a| - 1
    ensures Count(sep, Join(a, [sep])) == |a| - 1 <==> forall p :: p in a ==> Free(sep, p)
    decreases |a|
  {
    CountFree(sep, a[0]);
    if |a| > 1 {
      CountJoin(a[1..], sep);
      CountConcat(sep, a[0] + [sep], Join(a[1..], [sep]));
      CountConcat(sep, a[0], [sep]);
      assert Count(sep, [sep]) == 1 by { assert [sep][..0] == []; }
      assert a == [a[0]] + a[1..];
    }
  }

  /** A join of separator-free parts can be split back, given the number of parts. */
  lemma JoinOfFreeParts(a: seq<string>, b: seq<string>, sep: char)
    requires |a| == |b| > 0 && Join(a, [sep]) == Join(b, [sep])
    requires forall p :: p in a ==> Free(sep, p)
    ensures a == b
  {
    CountJoin(a, sep);
    CountJoin(b, sep);
    JoinInjective(a, b, sep);
  }

  /** A join only shows two neighbouring parts as one text. */
  lemma {:induction false} JoinAround(pre: seq<string>, x: string, y: string, post: seq<string>, sep: string)
    ensures Join(pre + [x, y] + post, sep) == Join(pre + [x + sep + y] + post, sep)
    decreases |pre|
  {
    var a, b := pre + [x, y] + post, pre + [x + sep + y] + post;
    if |pre| > 0 {
      assert a[1..] == pre[1..] + [x, y] + post && b[1..] == pre[1..] + [x + sep + y] + post;
      JoinAround(pre[1..], x, y, post, sep);
    } else {
      assert a[1..] == [y] + post && b[1..] == post && a[1..][1..] == post;
      if |post| > 0 {
        ConcatAssoc(x + sep, y + sep, Join(post, sep));
        ConcatAssoc(x + sep, y, sep);
      }
    }
  }

  function Regroup(pre: seq<string>, x: string, y: string, post: seq<string>): seq<string> {
    pre + [x, y] + post
  }

  /** Two neighbours with the same text between them join alike. */
  lemma JoinRegroup(pre: seq<string>, x: string, y: string, x': string, y': string, post: seq<string>, sep: string)
    requires x + sep + y == x' + sep + y'
    ensures Join(Regroup(pre, x, y, post), sep) == Join(Regroup(pre, x', y', post), sep)
  {
    JoinAround(pre, x, y, post, sep);
    JoinAround(pre, x', y', post, sep);
  }

  /** A separator inside a part can be given to a neighbour instead. */
  lemma JoinSplitsElsewhere(a: seq<string>, i: nat, sep: char) returns (b: seq<string>)
    requires i < |a| && |a| > 1 && !Free(sep, a[i])
    ensures |b| == |a| && b != a && Join(b, [sep]) == Join(a, [sep])
  {
    var k :| 0 <= k < |a[i]| && a[i][k] == sep;
    var u, v := a[i][..k], a[i][k + 1..];
    assert a[i] == u + [sep] + v;
    if i + 1 < |a| {
      var w := v + [sep] + a[i + 1];
      assert a == Regroup(a[..i], a[i], a[i + 1], a[i + 2..]);
      assert a[i] + [sep] + a[i + 1] == u + [sep] + w;
      JoinRegroup(a[..i], a[i], a[i + 1], u, w, a[i + 2..], [sep]);
      b := Regroup(a[..i], u, w, a[i + 2..]);
      assert b[i] == u;
    } else {
      var w := a[i - 1] + [sep] + u;
      assert a == Regroup(a[..i - 1], a[i - 1], a[i], []);
      assert a[i - 1] + [sep] + a[i] == w + [sep] + v;
      JoinRegroup(a[..i - 1], a[i - 1], a[i], w, v, [], [sep]);
      b := Regroup(a[..i - 1], w, v, []);
      assert b[i] == v;
    }
  }
}
