/** Small vocabulary shared by the modules of the transcriber model: an
    optional value, the string operations the Python code relies on
    (`startswith`, `endswith`, `in`, `lower`, `max`) and the
    lexicographic order that Python uses to compare strings. */
module Common {

  datatype Option<+T> = None | Some(value: T)

  function Max(a: int, b: int): (r: int)
    ensures r >= a && r >= b
    ensures r == a || r == b
  {
    if a >= b then a else b
  }

  function Min(a: int, b: int): (r: int)
    ensures r <= a && r <= b
    ensures r == a || r == b
  {
    if a <= b then a else b
  }

  predicate StartsWith(s: string, prefix: string)
  {
    |prefix| <= |s| && s[..|prefix|] == prefix
  }

  predicate EndsWith(s: string, suffix: string)
  {
    |suffix| <= |s| && s[|s| - |suffix|..] == suffix
  }

  /** `sub` occurs in `s` starting at offset `i`. */
  ghost predicate OccursAt(s: string, sub: string, i: int)
  {
    0 <= i <= |s| - |sub| && s[i..i + |sub|] == sub
  }

  /** Python's `sub in s` for strings: `sub` occurs at some offset of `s`. */
  ghost predicate Contains(s: string, sub: string)
  {
    exists i :: OccursAt(s, sub, i)
  }

  /** `Contains` decided by a scan from the left, the way CPython searches. */
  function Find(s: string, sub: string, from: nat): (r: bool)
    requires from <= |s| + 1
    ensures r <==> exists i :: from <= i && OccursAt(s, sub, i)
    decreases |s| + 1 - from
  {
    if from + |sub| > |s| then false
    else if s[from..from + |sub|] == sub then assert OccursAt(s, sub, from); true
    else Find(s, sub, from + 1)
  }

  function HasSubstring(s: string, sub: string): (r: bool)
    ensures r <==> Contains(s, sub)
  {
    Find(s, sub, 0)
  }

  /** ASCII lower-casing of one character. */
  function LowerChar(c: char): char
  {
    if 'A' <= c <= 'Z' then (c as int - 'A' as int + 'a' as int) as char else c
  }

  /** `str.lower()` restricted to ASCII letters. */
  function Lower(s: string): (r: string)
    ensures |r| == |s|
    ensures forall i :: 0 <= i < |s| ==> r[i] == LowerChar(s[i])
  {
    if s == [] then [] else [LowerChar(s[0])] + Lower(s[1..])
  }

  /** Python's `a <= b` on strings: code-point lexicographic order. */
  predicate StrLe(a: string, b: string)
  {
    a == [] || (b != [] && (a[0] < b[0] || (a[0] == b[0] && StrLe(a[1..], b[1..]))))
  }

  lemma {:induction false} StrLeReflexive(a: string)
    ensures StrLe(a, a)
  {
    if a != [] {
      StrLeReflexive(a[1..]);
    }
  }

  lemma {:induction false} StrLeTotal(a: string, b: string)
    ensures StrLe(a, b) || StrLe(b, a)
  {
    if a != [] && b != [] && a[0] == b[0] {
      StrLeTotal(a[1..], b[1..]);
    }
  }

  lemma {:induction false} StrLeAntisymmetric(a: string, b: string)
    requires StrLe(a, b) && StrLe(b, a)
    ensures a == b
  {
    if a != [] && b != [] {
      StrLeAntisymmetric(a[1..], b[1..]);
      assert a == [a[0]] + a[1..] && b == [b[0]] + b[1..];
    }
  }

  lemma {:induction false} StrLeTransitive(a: string, b: string, c: string)
    requires StrLe(a, b) && StrLe(b, c)
    ensures StrLe(a, c)
  {
    if a != [] && b != [] && c != [] && a[0] == b[0] && b[0] == c[0] {
      StrLeTransitive(a[1..], b[1..], c[1..]);
    }
  }

  predicate Distinct<T(==)>(s: seq<T>)
  {
    forall i, j :: 0 <= i < j < |s| ==> s[i] != s[j]
  }

  /** `r` is `s` with some elements left out, the rest kept in order. */
  predicate IsSubsequence<T(==)>(r: seq<T>, s: seq<T>)
  {
    if r == [] then true
    else if s == [] then false
    else (r[0] == s[0] && IsSubsequence(r[1..], s[1..])) || IsSubsequence(r, s[1..])
  }

  lemma {:induction false} SubsequenceMembers<T>(r: seq<T>, s: seq<T>, x: T)
    requires IsSubsequence(r, s) && x in r
    ensures x in s
  {
    if x == r[0] && r[0] == s[0] {
    } else if r[0] == s[0] && IsSubsequence(r[1..], s[1..]) {
      SubsequenceMembers(r[1..], s[1..], x);
    } else {
      SubsequenceMembers(r, s[1..], x);
    }
  }

  /** A subsequence of a list without repetitions has no repetitions either. */
  lemma {:induction false} SubsequenceDistinct<T>(r: seq<T>, s: seq<T>)
    requires IsSubsequence(r, s) && Distinct(s)
    ensures Distinct(r)
  {
    if r != [] {
      assert Distinct(s[1..]);
      if r[0] == s[0] && IsSubsequence(r[1..], s[1..]) {
        SubsequenceDistinct(r[1..], s[1..]);
        forall j | 0 < j < |r|
          ensures r[0] != r[j]
        {
          SubsequenceMembers(r[1..], s[1..], r[j]);
        }
      } else {
        SubsequenceDistinct(r, s[1..]);
      }
    }
  }

  /** Position of the first occurrence of `x` in `s`. */
  function IndexOf<T(==)>(s: seq<T>, x: T): (k: nat)
    requires x in s
    ensures k < |s| && s[k] == x && x !in s[..k]
  {
    if s[0] == x then 0
    else
      var k := 1 + IndexOf(s[1..], x);
      assert s[..k] == [s[0]] + s[1..][..k - 1];
      k
  }

  /** The first occurrence is the only position before which `x` does not occur. */
  lemma IndexOfUnique<T>(s: seq<T>, x: T, k: nat)
    requires k < |s| && s[k] == x && x !in s[..k]
    ensures IndexOf(s, x) == k
  {
  }

  /** An element of a prefix is first found at the same place in the whole sequence. */
  lemma IndexOfInPrefix<T>(s: seq<T>, n: nat, y: T)
    requires n <= |s| && y in s[..n]
    ensures IndexOf(s, y) == IndexOf(s[..n], y) < n
  {
    var k := IndexOf(s[..n], y);
    assert s[..n][..k] == s[..k];
    IndexOfUnique(s, y, k);
  }

  /** `list(OrderedDict.fromkeys(s))`: the distinct elements of `s`, each
      kept at its first appearance. Entries are added from the left, the
      way the dictionary is filled. */
  function Dedup<T(==,!new)>(s: seq<T>): (r: seq<T>)
    ensures forall x :: x in r <==> x in s
    ensures Distinct(r)
    decreases |s|
  {
    if s == [] then []
    else
      var prefix := Dedup(s[..|s| - 1]);
      var last := s[|s| - 1];
      assert forall x :: x in s <==> x in s[..|s| - 1] || x == last by {
        assert s == s[..|s| - 1] + [last];
      }
      if last in prefix then prefix else prefix + [last]
  }

  /** Every element of `r` occurs in `s`, and `r` lists them in the order of
      their first appearance in `s`. */
  ghost predicate InFirstAppearanceOrder<T>(s: seq<T>, r: seq<T>)
  {
    (forall x :: x in r ==> x in s) &&
    forall i, j :: 0 <= i < j < |r| ==> IndexOf(s, r[i]) < IndexOf(s, r[j])
  }

  /** `Dedup` lists the elements in the order of their first appearance. */
  lemma {:induction false} DedupFirstAppearanceOrder<T(!new)>(s: seq<T>)
    ensures InFirstAppearanceOrder(s, Dedup(s))
    decreases |s|
  {
    if s != [] {
      var n := |s| - 1;
      var t := s[..n];
      DedupFirstAppearanceOrder(t);
      var p := Dedup(t);
      var r := Dedup(s);
      forall y | y in p
        ensures IndexOf(s, y) == IndexOf(t, y) < n
      {
        IndexOfInPrefix(s, n, y);
      }
      if s[n] !in p {
        assert r == p + [s[n]];
        IndexOfUnique(s, s[n], n);
        forall i, j | 0 <= i < j < |r|
          ensures IndexOf(s, r[i]) < IndexOf(s, r[j])
        {
          assert r[i] == p[i];
          if j < |p| {
            assert r[j] == p[j];
            assert IndexOf(t, p[i]) < IndexOf(t, p[j]);
          } else {
            assert r[j] == s[n];
          }
        }
      } else {
        assert r == p;
        forall i, j | 0 <= i < j < |r|
          ensures IndexOf(s, r[i]) < IndexOf(s, r[j])
        {
          assert IndexOf(t, p[i]) < IndexOf(t, p[j]);
        }
      }
    }
  }

  /** Removing equal first elements from equal collections leaves equal
      collections. */
  lemma MultisetTail<T>(r: seq<T>, s: seq<T>)
    requires r != [] && s != [] && r[0] == s[0] && multiset(r) == multiset(s)
    ensures multiset(r[1..]) == multiset(s[1..])
  {
    assert r == [r[0]] + r[1..] && s == [s[0]] + s[1..];
    assert multiset(r[1..]) == multiset(r) - multiset{r[0]};
    assert multiset(s[1..]) == multiset(s) - multiset{s[0]};
  }

  lemma DistinctAppend<T>(s: seq<T>, x: T)
    requires Distinct(s) && x !in s
    ensures Distinct(s + [x])
  {
  }

  /** The decimal digit for `d`. */
  function Digit(d: nat): char
    requires d < 10
  {
    "0123456789"[d]
  }

  /** Python's `str(n)` for a natural number: its decimal digits, most
      significant first, without leading zeros. */
  function NatText(n: nat): (r: string)
    ensures 1 <= |r|
    ensures forall i :: 0 <= i < |r| ==> '0' <= r[i] <= '9'
    ensures |r| > 1 ==> r[0] != '0'
  {
    if n < 10 then [Digit(n)] else NatText(n / 10) + [Digit(n % 10)]
  }

  /** The number a string of decimal digits denotes. */
  function DigitsValue(s: string): nat
    requires forall i :: 0 <= i < |s| ==> '0' <= s[i] <= '9'
  {
    if s == [] then 0 else 10 * DigitsValue(s[..|s| - 1]) + (s[|s| - 1] - '0') as nat
  }

  lemma DigitValue(d: nat)
    requires d < 10
    ensures (Digit(d) - '0') as nat == d
  {
  }

  /** Reading the decimal text back gives the number. */
  lemma {:induction false} NatTextRoundTrip(n: nat)
    ensures DigitsValue(NatText(n)) == n
  {
    var r := NatText(n);
    if n < 10 {
      DigitValue(n);
      assert r[..0] == [];
    } else {
      NatTextRoundTrip(n / 10);
      DigitValue(n % 10);
      DropLastOfSnoc(NatText(n / 10), Digit(n % 10));
      assert DigitsValue(r) == 10 * (n / 10) + n % 10;
    }
  }

  /** The quote `repr` puts around a string: a double quote when the text
      holds a single quote and no double quote, a single quote otherwise. */
  function ReprQuote(s: string): (q: char)
    ensures q == '"' <==> '\'' in s && '"' !in s
    ensures q == '\'' || q == '"'
  {
    if '\'' in s && '"' !in s then '"' else '\''
  }

  /** A lower-case hexadecimal digit. */
  function HexDigit(d: int): (c: char)
    requires 0 <= d < 16
  {
    if d < 10 then ('0' as int + d) as char else ('a' as int + d - 10) as char
  }

  /** The value of a hexadecimal digit written by `HexDigit`. */
  function HexValue(c: char): (d: int)
    ensures 0 <= d < 16
  {
    if '0' <= c <= '9' then c as int - '0' as int
    else if 'a' <= c <= 'f' then c as int - 'a' as int + 10
    else 0
  }

  /** How `repr` writes one character inside quotes `q`: the backslash and
      the quote are escaped, tab, newline and carriage return get their
      letter escapes, the other ASCII control characters `\xhh`. */
  function EscapeChar(c: char, q: char): (e: string)
    ensures 1 <= |e| <= 4
    ensures |e| == 1 <==> c != '\\' && c != q && ' ' <= c && c as int != 127
    ensures |e| == 1 ==> e == [c]
    ensures |e| > 1 ==> e[0] == '\\'
  {
    if c == '\\' || c == q then ['\\', c]
    else if c == '\n' then "\\n"
    else if c == '\r' then "\\r"
    else if c == '\t' then "\\t"
    else if c < ' ' || c as int == 127 then "\\x" + [HexDigit(c as int / 16), HexDigit(c as int % 16)]
    else [c]
  }

  function Escaped(s: string, q: char): string
  {
    if s == [] then [] else EscapeChar(s[0], q) + Escaped(s[1..], q)
  }

  /** `repr(s)` of a Python string. */
  function PyRepr(s: string): (r: string)
    ensures |r| >= |s| + 2
    ensures r[0] == ReprQuote(s) && r[|r| - 1] == ReprQuote(s)
  {
    EscapedLength(s, ReprQuote(s));
    [ReprQuote(s)] + Escaped(s, ReprQuote(s)) + [ReprQuote(s)]
  }

  lemma {:induction false} EscapedLength(s: string, q: char)
    ensures |Escaped(s, q)| >= |s|
  {
    if s != [] {
      EscapedLength(s[1..], q);
    }
  }

  /** Reading an escaped text back, as the Python parser reads the inside
      of a string literal. */
  function Unescaped(t: string): string
    decreases |t|
  {
    if t == [] then []
    else if t[0] == '\\' && |t| >= 4 && t[1] == 'x' then
      [(HexValue(t[2]) * 16 + HexValue(t[3])) as char] + Unescaped(t[4..])
    else if t[0] == '\\' && |t| >= 2 then
      [if t[1] == 'n' then '\n' else if t[1] == 'r' then '\r' else if t[1] == 't' then '\t' else t[1]]
        + Unescaped(t[2..])
    else [t[0]] + Unescaped(t[1..])
  }

  /** Reading one escaped character back gives the character. */
  lemma UnescapeEscapeChar(c: char, q: char, rest: string)
    requires q == '\'' || q == '"'
    ensures Unescaped(EscapeChar(c, q) + rest) == [c] + Unescaped(rest)
  {
    var t := EscapeChar(c, q) + rest;
    if c == '\\' || c == q || c == '\n' || c == '\r' || c == '\t' {
      assert t[2..] == rest;
    } else if c < ' ' || c as int == 127 {
      assert HexValue(HexDigit(c as int / 16)) == c as int / 16;
      assert HexValue(HexDigit(c as int % 16)) == c as int % 16;
      assert t[4..] == rest;
    } else {
      assert t[1..] == rest;
    }
  }

  /** The text between the quotes of `repr(s)` reads back as `s`. */
  lemma {:induction false} ReprRoundTrip(s: string)
    ensures var r := PyRepr(s); Unescaped(r[1..|r| - 1]) == s
  {
    var q := ReprQuote(s);
    var r := PyRepr(s);
    assert r[1..|r| - 1] == Escaped(s, q);
    EscapedRoundTrip(s, q);
  }

  lemma {:induction false} EscapedRoundTrip(s: string, q: char)
    requires q == '\'' || q == '"'
    ensures Unescaped(Escaped(s, q)) == s
  {
    if s != [] {
      EscapedRoundTrip(s[1..], q);
      UnescapeEscapeChar(s[0], q, Escaped(s[1..], q));
      assert s == [s[0]] + s[1..];
    }
  }

  /** A text without quotes, backslashes or control characters is shown
      as it is, between single quotes. */
  lemma {:induction false} ReprPlain(s: string)
    requires forall i :: 0 <= i < |s| ==> s[i] != '\'' && s[i] != '\\' && ' ' <= s[i] && s[i] as int != 127
    ensures PyRepr(s) == "'" + s + "'"
  {
    EscapedPlain(s);
  }

  lemma {:induction false} EscapedPlain(s: string)
    requires forall i :: 0 <= i < |s| ==> s[i] != '\'' && s[i] != '\\' && ' ' <= s[i] && s[i] as int != 127
    ensures Escaped(s, '\'') == s
  {
    if s != [] {
      EscapedPlain(s[1..]);
      assert s == [s[0]] + s[1..];
    }
  }

  /** Sequence steps stated once for every element type, so that proofs
      about sequences of paths need not compare elements. */
  lemma TakeSnoc<T>(q: seq<T>, n: nat)
    requires 0 < n <= |q|
    ensures q[..n] == q[..n - 1] + [q[n - 1]]
  {
  }

  lemma DropNext<T>(q: seq<T>, k: nat)
    requires k < |q|
    ensures q[k..] != [] && q[k..][0] == q[k] && q[k..][1..] == q[k + 1..]
  {
  }

  lemma AppendAssociative<T>(a: seq<T>, b: seq<T>, c: seq<T>)
    ensures (a + b) + c == a + (b + c)
  {
  }

  lemma TakeLonger<T>(q: seq<T>, n: nat)
    requires n < |q|
    ensures q[..n + 1][..n] == q[..n] && q[..n + 1][n] == q[n]
  {
  }

  lemma TakeAll<T>(q: seq<T>)
    ensures q[..|q|] == q
  {
  }

  lemma AppendEmpty<T>(a: seq<T>)
    ensures [] + a == a && a + [] == a
  {
  }

  lemma DropAppended<T>(a: seq<T>, b: seq<T>)
    ensures (a + b)[|a|..] == b
  {
  }

  lemma DropNone<T>(q: seq<T>)
    ensures q[0..] == q
  {
  }

  /** Appending one element at a time regroups as appending a block. */
  lemma SnocThree<T>(e: seq<T>, a: T, b: T, c: T)
    ensures ((e + [a]) + [b]) + [c] == e + ([a, b] + [c])
  {
  }

  lemma SnocFour<T>(e: seq<T>, a: T, b: T, c: T, d: T)
    ensures (((e + [a]) + [b]) + [c]) + [d] == e + ([a, b] + ([c] + [d]))
  {
  }

  lemma AroundBlock<T>(e: seq<T>, a: T, m: seq<T>, b: T, c: T)
    ensures (((e + [a]) + m) + [b]) + [c] == e + (([a] + m) + [b, c])
  {
  }

  lemma DropLastOfSnoc<T>(a: seq<T>, x: T)
    ensures (a + [x])[..|a|] == a && (a + [x])[|a|] == x
  {
  }
}
