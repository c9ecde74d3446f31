/** The JavaScript string operations the dashboard relies on: `includes`, `toLowerCase`,
    the relational operators on strings, `join`/`split` on one separator character,
    and the decimal part of `parseFloat`. */
module Text {
  import opened Lists

  /** `haystack.includes(needle)`. */
  predicate Contains(haystack: string, needle: string)
    decreases |haystack|
  {
    needle <= haystack || (haystack != [] && Contains(haystack[1..], needle))
  }

  /** `needle` occurs in `haystack` starting at offset `i`. */
  ghost predicate OccursAt(haystack: string, needle: string, i: int)
  {
    0 <= i && i + |needle| <= |haystack| && haystack[i..i + |needle|] == needle
  }

  /** The recursive search finds the needle exactly when it occurs at some offset. */
  lemma {:induction false} ContainsIffOccurs(haystack: string, needle: string)
    ensures Contains(haystack, needle) <==> exists i :: OccursAt(haystack, needle, i)
    decreases |haystack|
  {
    if needle <= haystack {
      assert OccursAt(haystack, needle, 0);
    } else if haystack == [] {
      assert needle != [];
      assert forall i :: !OccursAt(haystack, needle, i);
    } else {
      ContainsIffOccurs(haystack[1..], needle);
      if exists i :: OccursAt(haystack[1..], needle, i) {
        var i :| OccursAt(haystack[1..], needle, i);
        assert haystack[1..][i..i + |needle|] == haystack[i + 1..i + 1 + |needle|];
        assert OccursAt(haystack, needle, i + 1);
      }
      if exists i :: OccursAt(haystack, needle, i) {
        var i :| OccursAt(haystack, needle, i);
        assert i != 0;
        assert haystack[1..][i - 1..i - 1 + |needle|] == haystack[i..i + |needle|];
        assert OccursAt(haystack[1..], needle, i - 1);
      }
    }
  }

  /** JavaScript's `toLowerCase` on one character, for the ASCII letters. */
  function ToLowerChar(c: char): (r: char)
    ensures 'A' <= c <= 'Z' ==> 'a' <= r <= 'z' && r as int == c as int + 32
    ensures !('A' <= c <= 'Z') ==> r == c
  {
    if 'A' <= c <= 'Z' then (c as int + 32) as char else c
  }

  function ToLower(s: string): (r: string)
    ensures |r| == |s|
    ensures forall i :: 0 <= i < |s| ==> r[i] == ToLowerChar(s[i])
  {
    if s == [] then [] else [ToLowerChar(s[0])] + ToLower(s[1..])
  }

  /** `haystack.toLowerCase().includes(needle.toLowerCase())`. */
  predicate ContainsIgnoreCase(haystack: string, needle: string)
  {
    Contains(ToLower(haystack), ToLower(needle))
  }

  /** Lower-casing commutes with taking a slice. */
  lemma ToLowerSlice(s: string, i: nat, j: nat)
    requires i <= j <= |s|
    ensures ToLower(s[i..j]) == ToLower(s)[i..j]
  {
  }

  /** Every exact (case-sensitive) match is also a case-insensitive match. */
  lemma ExactMatchIgnoresCase(haystack: string, needle: string)
    requires Contains(haystack, needle)
    ensures ContainsIgnoreCase(haystack, needle)
  {
    ContainsIffOccurs(haystack, needle);
    var i :| OccursAt(haystack, needle, i);
    ToLowerSlice(haystack, i, i + |needle|);
    assert OccursAt(ToLower(haystack), ToLower(needle), i);
    ContainsIffOccurs(ToLower(haystack), ToLower(needle));
  }

  /** Searching ignoring case does not depend on the case of the query. */
  lemma {:induction false} IgnoreCaseQueryCase(haystack: string, needle: string)
    ensures ContainsIgnoreCase(haystack, ToLower(needle)) == ContainsIgnoreCase(haystack, needle)
  {
    assert ToLower(ToLower(needle)) == ToLower(needle);
  }

  /** `a <= b` on JavaScript strings: code-unit-wise lexicographic order, a prefix first. */
  predicate LexLe(a: string, b: string)
  {
    a == [] || (b != [] && (a[0] < b[0] || (a[0] == b[0] && LexLe(a[1..], b[1..]))))
  }

  lemma {:induction false} LexLeReflexive(a: string)
    ensures LexLe(a, a)
  {
    if a != [] {
      LexLeReflexive(a[1..]);
    }
  }

  lemma {:induction false} LexLeTotal(a: string, b: string)
    ensures LexLe(a, b) || LexLe(b, a)
  {
    if a != [] && b != [] && a[0] == b[0] {
      LexLeTotal(a[1..], b[1..]);
    }
  }

  lemma {:induction false} LexLeTransitive(a: string, b: string, c: string)
    requires LexLe(a, b) && LexLe(b, c)
    ensures LexLe(a, c)
  {
    if a != [] && b != [] && c != [] && a[0] == b[0] == c[0] {
      LexLeTransitive(a[1..], b[1..], c[1..]);
    }
  }

  lemma {:induction false} LexLeAntisymmetric(a: string, b: string)
    requires LexLe(a, b) && LexLe(b, a)
    ensures a == b
  {
    if a != [] && b != [] {
      LexLeAntisymmetric(a[1..], b[1..]);
      assert a == [a[0]] + a[1..] && b == [b[0]] + b[1..];
    }
  }

  /** Comparing two strings that start with equally long heads: the heads decide unless they
      are equal, in which case the tails do. */
  lemma {:induction false} LexLeConcat(p: string, x: string, q: string, y: string)
    requires |p| == |q|
    ensures LexLe(p + x, q + y) <==> (p == q && LexLe(x, y)) || (p != q && LexLe(p, q))
  {
    if p != [] {
      assert (p + x)[0] == p[0] && (q + y)[0] == q[0];
      assert (p + x)[1..] == p[1..] + x && (q + y)[1..] == q[1..] + y;
      LexLeConcat(p[1..], x, q[1..], y);
      if p[0] == q[0] && p[1..] == q[1..] {
        assert p == q;
      }
      if p == q {
        assert p[1..] == q[1..];
      }
    } else {
      assert p + x == x && q + y == y;
    }
  }

  /** `parts.join(sep)`; the empty array joins to the empty string. */
  function Join(parts: seq<string>, sep: char): string
  {
    if parts == [] then []
    else if |parts| == 1 then parts[0]
    else parts[0] + [sep] + Join(parts[1..], sep)
  }

  /** Joining adds no character other than the separator. */
  lemma {:induction false} JoinAvoids(parts: seq<string>, sep: char, c: char)
    requires c != sep
    requires forall i :: 0 <= i < |parts| ==> c !in parts[i]
    ensures c !in Join(parts, sep)
  {
    if |parts| > 1 {
      JoinAvoids(parts[1..], sep, c);
      assert c !in parts[0] + [sep];
    }
  }

  /** A CSV field free of both separators the dashboard's exports use. */
  predicate Plain(s: string)
  {
    ',' !in s && '\n' !in s
  }

  /** Number text (`toString`, `toFixed`, `toLocaleString`) that never holds a separator. */
  ghost predicate PlainNumbers(show: real -> string)
  {
    forall x :: Plain(show(x))
  }

  /** `s.split(sep)` for a one-character separator: never empty, one more piece than there
      are separators. */
  function Split(s: string, sep: char): (r: seq<string>)
    ensures |r| >= 1
  {
    if s == [] then [[]]
    else if s[0] == sep then [[]] + Split(s[1..], sep)
    else
      var rest := Split(s[1..], sep);
      [[s[0]] + rest[0]] + rest[1..]
  }

  lemma {:induction false} SplitNoSeparator(p: string, sep: char)
    requires sep !in p
    ensures Split(p, sep) == [p]
  {
    if p != [] {
      SplitNoSeparator(p[1..], sep);
      assert [p[0]] + p[1..] == p;
    }
  }

  lemma {:induction false} SplitAfterPiece(p: string, t: string, sep: char)
    requires sep !in p
    ensures Split(p + [sep] + t, sep) == [p] + Split(t, sep)
  {
    if p == [] {
      assert p + [sep] + t == [sep] + t;
      assert ([sep] + t)[1..] == t;
    } else {
      assert (p + [sep] + t)[0] == p[0];
      assert (p + [sep] + t)[1..] == p[1..] + [sep] + t;
      SplitAfterPiece(p[1..], t, sep);
      assert [p[0]] + p[1..] == p;
    }
  }

  /** Splitting a joined list gives the list back when no piece contains the separator:
      the round trip of every comma- and newline-joined export in the dashboard. */
  lemma {:induction false} SplitJoin(parts: seq<string>, sep: char)
    requires |parts| >= 1
    requires forall i :: 0 <= i < |parts| ==> sep !in parts[i]
    ensures Split(Join(parts, sep), sep) == parts
  {
    if |parts| == 1 {
      SplitNoSeparator(parts[0], sep);
    } else {
      SplitJoin(parts[1..], sep);
      SplitAfterPiece(parts[0], Join(parts[1..], sep), sep);
      assert [parts[0]] + parts[1..] == parts;
    }
  }

  /** Number of occurrences of `c` in `s`. */
  function Occurrences(s: string, c: char): nat
  {
    if s == [] then 0 else (if s[0] == c then 1 else 0) + Occurrences(s[1..], c)
  }

  lemma {:induction false} OccurrencesConcat(a: string, b: string, c: char)
    ensures Occurrences(a + b, c) == Occurrences(a, c) + Occurrences(b, c)
  {
    if a == [] {
      assert a + b == b;
    } else {
      assert (a + b)[1..] == a[1..] + b;
      OccurrencesConcat(a[1..], b, c);
    }
  }

  lemma {:induction false} OccurrencesPositive(s: string, c: char)
    requires c in s
    ensures Occurrences(s, c) > 0
  {
    if s[0] != c {
      OccurrencesPositive(s[1..], c);
    }
  }

  /** Splitting yields one more piece than there are separators. */
  lemma {:induction false} SplitCount(s: string, sep: char)
    ensures |Split(s, sep)| == Occurrences(s, sep) + 1
  {
    if s != [] {
      SplitCount(s[1..], sep);
    }
  }

  /** A joined string holds one separator between each two pieces, plus any the pieces carry. */
  lemma {:induction false} JoinOccurrences(parts: seq<string>, sep: char, k: nat)
    requires |parts| >= 1 && k < |parts|
    ensures Occurrences(Join(parts, sep), sep) >= |parts| - 1 + Occurrences(parts[k], sep)
  {
    if |parts| > 1 {
      var rest := Join(parts[1..], sep);
      OccurrencesConcat(parts[0] + [sep], rest, sep);
      OccurrencesConcat(parts[0], [sep], sep);
      JoinOccurrences(parts[1..], sep, if k == 0 then 0 else k - 1);
    }
  }

  /** Without quoting, a piece that itself holds the separator makes the joined string split
      into more pieces than were joined. */
  lemma SeparatorInPieceAddsPieces(parts: seq<string>, sep: char, k: nat)
    requires k < |parts| && sep in parts[k]
    ensures |Split(Join(parts, sep), sep)| > |parts|
  {
    OccurrencesPositive(parts[k], sep);
    JoinOccurrences(parts, sep, k);
    SplitCount(Join(parts, sep), sep);
  }

  predicate IsDigit(c: char)
  {
    '0' <= c <= '9'
  }

  predicate AllDigits(s: string)
  {
    forall i :: 0 <= i < |s| ==> IsDigit(s[i])
  }

  function DigitValue(c: char): nat
    requires IsDigit(c)
  {
    c as int - '0' as int
  }

  function DigitChar(d: nat): (c: char)
    requires d < 10
    ensures IsDigit(c) && DigitValue(c) == d
  {
    ('0' as int + d) as char
  }

  /** The number a string of decimal digits denotes. */
  function DigitsValue(s: string): nat
    requires AllDigits(s)
  {
    if s == [] then 0 else DigitsValue(s[..|s| - 1]) * 10 + DigitValue(s[|s| - 1])
  }

  function Pow10(n: nat): (r: nat)
    ensures r >= 1
  {
    if n == 0 then 1 else 10 * Pow10(n - 1)
  }

  /** A numeral of `n` digits denotes less than 10^n. */
  lemma {:induction false} DigitsValueBound(s: string)
    requires AllDigits(s)
    ensures DigitsValue(s) < Pow10(|s|)
  {
    if s != [] {
      DigitsValueBound(s[..|s| - 1]);
    }
  }

  /** Reading digits in two parts: the head scaled by the tail's length, plus the tail. */
  lemma LeadingDigitDecides(x: nat, y: nat, u: nat, v: nat, p: nat)
    requires u < p && v < p
    ensures x < y ==> x * p + u < y * p + v
    ensures y < x ==> y * p + v < x * p + u
    ensures x == y ==> (x * p + u <= y * p + v <==> u <= v)
  {
    if x < y {
      MulMonotone(x + 1, y, p);
    } else if y < x {
      MulMonotone(y + 1, x, p);
    }
  }

  lemma ShiftDigit(x: nat, p: nat, y: nat, d: nat)
    ensures (x * p + y) * 10 + d == x * (10 * p) + (y * 10 + d)
  {
  }

  lemma {:induction false} AllDigitsConcat(a: string, b: string)
    requires AllDigits(a) && AllDigits(b)
    ensures AllDigits(a + b)
  {
    assert forall i :: 0 <= i < |a + b| ==> (a + b)[i] == if i < |a| then a[i] else b[i - |a|];
  }

  /** A non-empty numeral is the numeral of all but its last digit, shifted, plus that digit. */
  lemma DigitsValueLast(s: string)
    requires AllDigits(s) && s != []
    ensures AllDigits(s[..|s| - 1]) && IsDigit(s[|s| - 1])
    ensures DigitsValue(s) == DigitsValue(s[..|s| - 1]) * 10 + DigitValue(s[|s| - 1])
  {
  }

  lemma {:induction false} DigitsValueConcat(a: string, b: string)
    requires AllDigits(a) && AllDigits(b)
    ensures AllDigits(a + b)
    ensures DigitsValue(a + b) == DigitsValue(a) * Pow10(|b|) + DigitsValue(b)
    decreases |b|
  {
    AllDigitsConcat(a, b);
    if b == [] {
      assert a + b == a;
    } else {
      var b' := b[..|b| - 1];
      var c := b[|b| - 1];
      assert (a + b)[..|a + b| - 1] == a + b';
      assert (a + b)[|a + b| - 1] == c;
      DigitsValueLast(a + b);
      DigitsValueLast(b);
      DigitsValueConcat(a, b');
      ShiftDigit(DigitsValue(a), Pow10(|b'|), DigitsValue(b'), DigitValue(c));
    }
  }

  /** A non-empty numeral is its first digit scaled by the rest's length, plus the rest. */
  lemma HeadDigitSplit(a: string)
    requires AllDigits(a) && a != []
    ensures AllDigits(a[1..])
    ensures DigitsValue(a) == DigitValue(a[0]) * Pow10(|a| - 1) + DigitsValue(a[1..])
    ensures DigitsValue(a[1..]) < Pow10(|a| - 1)
  {
    var h, t := [a[0]], a[1..];
    assert a == h + t;
    DigitsValueConcat(h, t);
    assert DigitsValue(h) == DigitValue(a[0]) by {
      assert h[..0] == [];
    }
    DigitsValueBound(t);
  }

  /** For numerals of equal length, string order and numeric order agree. */
  lemma {:induction false} DigitsOrder(a: string, b: string)
    requires AllDigits(a) && AllDigits(b) && |a| == |b|
    ensures LexLe(a, b) <==> DigitsValue(a) <= DigitsValue(b)
  {
    if a != [] {
      HeadDigitSplit(a);
      HeadDigitSplit(b);
      DigitsOrder(a[1..], b[1..]);
      var x, y := DigitValue(a[0]), DigitValue(b[0]);
      LeadingDigitDecides(x, y, DigitsValue(a[1..]), DigitsValue(b[1..]), Pow10(|a| - 1));
      assert x == y <==> a[0] == b[0];
      assert x < y <==> a[0] < b[0];
    }
  }

  /** The decimal numeral of `n` (what `String(n)` gives for a non-negative integer). */
  function NatText(n: nat): (r: string)
    ensures |r| >= 1 && AllDigits(r)
    ensures DigitsValue(r) == n
  {
    if n < 10 then [DigitChar(n)]
    else
      var r := NatText(n / 10) + [DigitChar(n % 10)];
      assert r[..|r| - 1] == NatText(n / 10);
      r
  }

  /** The longest prefix of `s` made of digits. */
  function LeadingDigits(s: string): (r: string)
    ensures r <= s && AllDigits(r)
    ensures |r| < |s| ==> !IsDigit(s[|r|])
  {
    if s == [] || !IsDigit(s[0]) then [] else [s[0]] + LeadingDigits(s[1..])
  }

  /** `parseFloat` on the decimal forms the dashboard stores: an optional sign, digits and an
      optional fraction, read as the longest such prefix; `None` stands for NaN. */
  function ParseFloat(s: string): Option<real>
  {
    var body := if |s| > 0 && (s[0] == '-' || s[0] == '+') then s[1..] else s;
    var whole := LeadingDigits(body);
    var rest := body[|whole|..];
    var frac := if |rest| > 0 && rest[0] == '.' then LeadingDigits(rest[1..]) else [];
    if whole == [] && frac == [] then None
    else
      var m := DigitsValue(whole) as real + DigitsValue(frac) as real / Pow10(|frac|) as real;
      Some(if |s| > 0 && s[0] == '-' then -m else m)
  }

  lemma {:induction false} LeadingDigitsOfNumeral(d: string, t: string)
    requires AllDigits(d)
    requires t == [] || !IsDigit(t[0])
    ensures LeadingDigits(d + t) == d
  {
    if d == [] {
      assert d + t == t;
    } else {
      assert (d + t)[1..] == d[1..] + t;
      LeadingDigitsOfNumeral(d[1..], t);
      assert [d[0]] + d[1..] == d;
    }
  }

  /** `parseFloat` reads back the numeral of a whole number, whatever non-numeric text
      follows it. */
  lemma ParseFloatNatText(n: nat, t: string)
    requires t == [] || (!IsDigit(t[0]) && t[0] != '.')
    ensures ParseFloat(NatText(n) + t) == Some(n as real)
  {
    var s := NatText(n) + t;
    assert s[0] == NatText(n)[0];
    LeadingDigitsOfNumeral(NatText(n), t);
    assert s[|NatText(n)|..] == t;
  }
}
