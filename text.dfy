/**
 * The JavaScript string operations the source uses: `join`, `split` on one
 * character, `trim`, `includes`, `startsWith`, the `||` fallback for empty
 * strings, and number-to-decimal conversion.
 */
module Text {
  import opened Seqs

  /** `parts.join(sep)`. */
  function Join(parts: seq<string>, sep: string): (r: string)
    ensures |parts| == 0 ==> r == ""
    ensures |parts| == 1 ==> r == parts[0]
    decreases |parts|
  {
    if |parts| == 0 then ""
    else if |parts| == 1 then parts[0]
    else parts[0] + sep + Join(parts[1..], sep)
  }

  /** `s || fallback` on a string: the empty string is falsy. */
  function OrElse(s: string, fallback: string): (r: string)
    ensures s == "" ==> r == fallback
    ensures s != "" ==> r == s
  {
    if s == "" then fallback else s
  }

  /** `s.startsWith(prefix)`. */
  predicate StartsWith(s: string, prefix: string) {
    |prefix| <= |s| && s[..|prefix|] == prefix
  }

  /** `s.includes(sub)`: `sub` occurs somewhere in `s`. */
  predicate Contains(s: string, sub: string)
    decreases |s|
  {
    StartsWith(s, sub) || (|s| > 0 && Contains(s[1..], sub))
  }

  /** `s.endsWith(suffix)`. */
  predicate EndsWith(s: string, suffix: string) {
    |suffix| <= |s| && s[|s| - |suffix|..] == suffix
  }

  /** Text written after a prefix ends with it. */
  lemma EndsWithSuffix(p: string, q: string)
    ensures EndsWith(p + q, q)
  {
    assert (p + q)[|p|..] == q;
  }

  /** What follows position `k` is a suffix. */
  lemma TailEndsWith(s: string, k: nat, q: string)
    requires k <= |s| && s[k..] == q
    ensures EndsWith(s, q)
  {
  }

  /** Text ends with its last part together with whatever follows it. */
  lemma EndsWithLast(p: string, h: string, l: string, q: string)
    ensures EndsWith(p + (h + l) + q, l + q)
  {
    var s := p + (h + l) + q;
    assert s == (p + h) + (l + q);
    assert s[|p + h|..] == l + q;
  }

  /** `sub` occurs in `s` starting at index `i`. */
  predicate OccursAt(s: string, sub: string, i: int) {
    0 <= i <= |s| - |sub| && s[i..i + |sub|] == sub
  }

  /** `includes` agrees with its reference definition: an occurrence at some index. */
  lemma {:induction false} ContainsIffOccurs(s: string, sub: string)
    ensures Contains(s, sub) <==> exists i :: OccursAt(s, sub, i)
    decreases |s|
  {
    if |s| > 0 {
      ContainsIffOccurs(s[1..], sub);
    }
    if Contains(s, sub) {
      if StartsWith(s, sub) {
        assert OccursAt(s, sub, 0);
      } else {
        var i :| OccursAt(s[1..], sub, i);
        assert s[i + 1..i + 1 + |sub|] == s[1..][i..i + |sub|];
        assert OccursAt(s, sub, i + 1);
      }
    }
    if exists i :: OccursAt(s, sub, i) {
      var i :| OccursAt(s, sub, i);
      if i > 0 {
        assert s[1..][i - 1..i - 1 + |sub|] == s[i..i + |sub|];
        assert OccursAt(s[1..], sub, i - 1);
      }
    }
  }

  /** Text that surrounds an occurrence still contains it. */
  lemma ContainsInfix(p: string, sub: string, q: string)
    ensures Contains(p + sub + q, sub)
  {
    var s := p + sub + q;
    assert OccursAt(s, sub, |p|);
    ContainsIffOccurs(s, sub);
  }

  /** Each of the first three pieces of a middle part occurs in the text around it. */
  lemma ContainsEachOfThree(p: string, a: string, b: string, c: string, l: string, q: string)
    ensures Contains(p + (a + b + c + l) + q, a)
    ensures Contains(p + (a + b + c + l) + q, b)
    ensures Contains(p + (a + b + c + l) + q, c)
  {
    var s := p + (a + b + c + l) + q;
    assert s == p + a + (b + c + l + q);
    ContainsInfix(p, a, b + c + l + q);
    assert s == (p + a) + b + (c + l + q);
    ContainsInfix(p + a, b, c + l + q);
    assert s == (p + a + b) + c + (l + q);
    ContainsInfix(p + a + b, c, l + q);
  }

  /** A string that lacks the first character of `sub` does not contain `sub`. */
  lemma ContainsNeedsFirstChar(s: string, sub: string)
    requires |sub| > 0 && forall i :: 0 <= i < |s| ==> s[i] != sub[0]
    ensures !Contains(s, sub)
  {
    ContainsIffOccurs(s, sub);
    forall i
      ensures !OccursAt(s, sub, i)
    {
      if 0 <= i <= |s| - |sub| {
        assert s[i..i + |sub|][0] == s[i] != sub[0];
      }
    }
  }

  /** A string that lacks the second character of `sub` does not contain `sub`. */
  lemma ContainsAfterFirstChar(s: string, sub: string)
    requires |sub| > 1 && forall i :: 0 <= i < |s| ==> s[i] != sub[1]
    ensures !Contains(s, sub)
  {
    ContainsIffOccurs(s, sub);
    forall i
      ensures !OccursAt(s, sub, i)
    {
      if 0 <= i <= |s| - |sub| {
        assert s[i..i + |sub|][1] == s[i + 1] != sub[1];
      }
    }
  }

  /** The characters `String.prototype.trim` removes (ECMAScript WhiteSpace and LineTerminator). */
  predicate IsWhitespace(c: char) {
    c == '\t' || c == '\n' || c == '\r' || c == ' '
    || c == '\U{000B}' || c == '\U{000C}' || c == '\U{00A0}' || c == '\U{1680}'
    || ('\U{2000}' <= c <= '\U{200A}')
    || c == '\U{2028}' || c == '\U{2029}' || c == '\U{202F}' || c == '\U{205F}'
    || c == '\U{3000}' || c == '\U{FEFF}'
  }

  predicate AllWhitespace(s: string) {
    forall i :: 0 <= i < |s| ==> IsWhitespace(s[i])
  }

  /** Neither end of `s` is whitespace. */
  predicate Trimmed(s: string) {
    s == "" || (!IsWhitespace(s[0]) && !IsWhitespace(s[|s| - 1]))
  }

  function TrimStart(s: string): (r: string)
    ensures r == "" || !IsWhitespace(r[0])
    ensures |r| <= |s|
    decreases |s|
  {
    if |s| > 0 && IsWhitespace(s[0]) then TrimStart(s[1..]) else s
  }

  /** What `TrimStart` cuts off is whitespace. */
  lemma {:induction false} TrimStartCutsWhitespace(s: string)
    ensures s[|s| - |TrimStart(s)|..] == TrimStart(s)
    ensures AllWhitespace(s[..|s| - |TrimStart(s)|])
    decreases |s|
  {
    if |s| > 0 && IsWhitespace(s[0]) {
      TrimStartCutsWhitespace(s[1..]);
      var k := |s| - |TrimStart(s)|;
      assert forall i :: 1 <= i < k ==> s[..k][i] == s[1..][..k - 1][i - 1];
    }
  }

  function TrimEnd(s: string): (r: string)
    ensures r == "" || !IsWhitespace(r[|r| - 1])
    ensures |r| <= |s|
    decreases |s|
  {
    if |s| > 0 && IsWhitespace(s[|s| - 1]) then TrimEnd(s[..|s| - 1]) else s
  }

  /** What `TrimEnd` cuts off is whitespace. */
  lemma {:induction false} TrimEndCutsWhitespace(s: string)
    ensures s[..|TrimEnd(s)|] == TrimEnd(s)
    ensures AllWhitespace(s[|TrimEnd(s)|..])
    decreases |s|
  {
    if |s| > 0 && IsWhitespace(s[|s| - 1]) {
      TrimEndCutsWhitespace(s[..|s| - 1]);
      var k := |TrimEnd(s)|;
      assert forall i :: 0 <= i < |s| - 1 - k ==> s[k..][i] == s[..|s| - 1][k..][i];
    }
  }

  /** `s.trim()`: `s` without its leading and trailing whitespace. */
  function Trim(s: string): (r: string)
    ensures Trimmed(r)
  {
    var t := TrimStart(s);
    var r := TrimEnd(t);
    assert r == "" || !IsWhitespace(r[0]) by {
      TrimEndCutsWhitespace(t);
      if r != "" { assert r[0] == t[0]; }
    }
    r
  }

  /** A trim is the middle of its input, with only whitespace cut off at either end. */
  lemma TrimIsSlice(s: string)
    ensures exists a, b :: 0 <= a <= b <= |s| && Trim(s) == s[a..b] && AllWhitespace(s[..a]) && AllWhitespace(s[b..])
  {
    var t := TrimStart(s);
    var r := TrimEnd(t);
    var a := |s| - |t|;
    TrimStartCutsWhitespace(s);
    TrimEndCutsWhitespace(t);
    assert t == s[a..];
    assert s[a + |r|..] == t[|r|..];
    assert r == s[a..a + |r|];
  }

  /** A string with no whitespace at either end is its own trim. */
  lemma TrimOfTrimmed(s: string)
    requires Trimmed(s)
    ensures Trim(s) == s
  {
  }

  /** Trimming is idempotent. */
  lemma TrimIdempotent(s: string)
    ensures Trim(Trim(s)) == Trim(s)
  {
    TrimOfTrimmed(Trim(s));
  }

  /** Trailing whitespace is removed only up to the last non-space of the part that ends in one. */
  lemma {:induction false} TrimEndAfter(p: string, q: string)
    requires |p| > 0 && !IsWhitespace(p[|p| - 1])
    ensures TrimEnd(p + q) == p + TrimEnd(q)
    decreases |q|
  {
    if |q| == 0 {
      assert p + q == p;
    } else if IsWhitespace(q[|q| - 1]) {
      assert (p + q)[..|p + q| - 1] == p + q[..|q| - 1];
      TrimEndAfter(p, q[..|q| - 1]);
    } else {
    }
  }

  /** The parts written one after another. */
  function Concat(parts: seq<string>): string
    decreases |parts|
  {
    if |parts| == 0 then "" else parts[0] + Concat(parts[1..])
  }

  lemma ConcatFive(a: string, b: string, c: string, d: string, e: string)
    ensures Concat([a, b, c, d, e]) == (a + b + c + d) + e
  {
    assert [e][1..] == [] && Concat([e]) == e;
    assert [d, e][1..] == [e] && Concat([d, e]) == d + e;
    assert [c, d, e][1..] == [d, e] && Concat([c, d, e]) == c + (d + e);
    assert [b, c, d, e][1..] == [c, d, e] && Concat([b, c, d, e]) == b + (c + (d + e));
    assert [a, b, c, d, e][1..] == [b, c, d, e];
    assert a + (b + (c + (d + e))) == (a + b + c + d) + e;
  }

  /** A concatenation ends with its last part's last character. */
  lemma {:induction false} ConcatEnd(parts: seq<string>)
    requires |parts| > 0 && |parts[|parts| - 1]| > 0
    ensures |Concat(parts)| > 0
    ensures Concat(parts)[|Concat(parts)| - 1] == parts[|parts| - 1][|parts[|parts| - 1]| - 1]
    decreases |parts|
  {
    if |parts| > 1 {
      ConcatEnd(parts[1..]);
    }
  }

  /** A non-empty join starts with its first part and ends with its last. */
  lemma {:induction false} JoinEnds(parts: seq<string>, sep: string)
    requires |parts| > 0
    ensures StartsWith(Join(parts, sep), parts[0])
    ensures EndsWith(Join(parts, sep), parts[|parts| - 1])
    decreases |parts|
  {
    if |parts| > 1 {
      JoinEnds(parts[1..], sep);
      var rest := Join(parts[1..], sep);
      assert Join(parts, sep) == parts[0] + (sep + rest);
      EndsWithSuffix(parts[0] + sep, rest);
      assert EndsWith(rest, parts[|parts| - 1]);
      assert Join(parts, sep)[|Join(parts, sep)| - |rest|..] == rest;
    }
  }

  /** The characters of the first part open the joined text. */
  lemma JoinedCharOfFirst(parts: seq<string>, sep: string, i: nat)
    requires |parts| > 0 && i < |parts[0]|
    ensures i < |Join(parts, sep)| && Join(parts, sep)[i] == parts[0][i]
  {
    JoinEnds(parts, sep);
  }

  /**
   * Trimming a template `"\n" + h + " " + v + "\n"` whose body `h` neither
   * starts nor ends with whitespace drops the two newlines and the trailing
   * whitespace of the value `v` only.
   */
  lemma TrimFramed(h: string, v: string)
    requires |h| > 0 && !IsWhitespace(h[0]) && !IsWhitespace(h[|h| - 1])
    ensures Trim("\n" + h + " " + v + "\n") == h + TrimEnd(" " + v)
  {
    var s := "\n" + h + " " + v + "\n";
    var body := h + (" " + v) + "\n";
    assert s == "\n" + body;
    assert s[1..] == body;
    assert TrimStart(s) == body;
    assert body[..|body| - 1] == h + (" " + v);
    assert TrimEnd(body) == TrimEnd(h + (" " + v));
    TrimEndAfter(h, " " + v);
  }

  /** `s.split(c)` for a one-character separator: the maximal pieces between occurrences of `c`. */
  function Split(s: string, c: char): (r: seq<string>)
    ensures |r| >= 1
    ensures forall i :: 0 <= i < |r| ==> c !in r[i]
    decreases |s|
  {
    if |s| == 0 then [""]
    else
      var rest := Split(s[1..], c);
      if s[0] == c then [""] + rest else [[s[0]] + rest[0]] + rest[1..]
  }

  /** Splitting and joining back with the same separator restores the string. */
  lemma {:induction false} JoinSplit(s: string, c: char)
    ensures Join(Split(s, c), [c]) == s
    decreases |s|
  {
    if |s| > 0 {
      var rest := Split(s[1..], c);
      JoinSplit(s[1..], c);
      if s[0] == c {
        assert Split(s, c) == [""] + rest;
        assert ([""] + rest)[1..] == rest;
      } else {
        var r := [[s[0]] + rest[0]] + rest[1..];
        assert Split(s, c) == r;
        if |rest| == 1 {
          assert Join(rest, [c]) == rest[0];
        } else {
          assert r[1..] == rest[1..];
          assert Join(rest, [c]) == rest[0] + [c] + Join(rest[1..], [c]);
        }
        assert s == [s[0]] + s[1..];
      }
    }
  }

  /** Text without the separator is a single piece. */
  lemma {:induction false} SplitNoSep(a: string, c: char)
    requires c !in a
    ensures Split(a, c) == [a]
    decreases |a|
  {
    if |a| > 0 {
      SplitNoSep(a[1..], c);
      assert a == [a[0]] + a[1..];
    }
  }

  /** A separator-free first piece followed by the separator splits off as one piece. */
  lemma {:induction false} SplitAtSep(a: string, b: string, c: char)
    requires c !in a
    ensures Split(a + [c] + b, c) == [a] + Split(b, c)
    decreases |a|
  {
    var s := a + [c] + b;
    if |a| == 0 {
      assert s[1..] == b;
    } else {
      assert s[1..] == a[1..] + [c] + b;
      SplitAtSep(a[1..], b, c);
      assert a == [a[0]] + a[1..];
    }
  }

  /** A leading character other than the separator joins the first piece. */
  lemma SplitLeading(x: char, s: string, c: char)
    requires x != c
    ensures Split([x] + s, c) == [[x] + Split(s, c)[0]] + Split(s, c)[1..]
  {
    assert ([x] + s)[1..] == s;
  }

  /** Leading whitespace does not survive a trim. */
  lemma TrimLeadingWhitespace(w: char, s: string)
    requires IsWhitespace(w)
    ensures Trim([w] + s) == Trim(s)
  {
    assert ([w] + s)[1..] == s;
  }

  /** Decimal digits of a natural number, as `String(n)` writes them: no leading zero except for zero itself. */
  function NatToString(n: nat): (r: string)
    ensures |r| > 0
    ensures forall i :: 0 <= i < |r| ==> IsDigit(r[i])
    ensures r[0] == '0' ==> n == 0
    decreases n
  {
    var d := [(('0' as int) + n % 10) as char];
    if n < 10 then d else NatToString(n / 10) + d
  }

  predicate IsDigit(c: char) {
    '0' <= c <= '9'
  }

  /** The number a string of decimal digits denotes, read most significant digit first. */
  function DigitsValue(s: string): (v: nat)
    ensures |s| == 1 && IsDigit(s[0]) ==> v == s[0] as int - '0' as int
    decreases |s|
  {
    if |s| == 0 then 0
    else
      var c := s[|s| - 1];
      DigitsValue(s[..|s| - 1]) * 10 + (if IsDigit(c) then c as int - '0' as int else 0)
  }

  /** Reading back the digits of `n` gives `n`: the label text is the decimal form of the count. */
  lemma {:induction false} NatToStringValue(n: nat)
    ensures DigitsValue(NatToString(n)) == n
    decreases n
  {
    var d := [(('0' as int) + n % 10) as char];
    if n >= 10 {
      NatToStringValue(n / 10);
      var x := NatToString(n / 10);
      assert (x + d)[..|x + d| - 1] == x;
    }
  }
}
