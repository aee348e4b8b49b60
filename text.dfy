/**
 * The handful of Python string operations the detector relies on, over
 * `string` (a sequence of code points, like a Python `str`):
 * `lower()` (ASCII letters only), the `in` substring test, `startswith`,
 * `strip()`, `split(c)`, `sep.join(...)`, slicing `s[:n]` and `int()`.
 */
module Text {

  datatype Option<+T> = None | Some(value: T)

  // ---------------------------------------------------------------------
  // Slicing, prefixes, case
  // ---------------------------------------------------------------------

  /** Python `s[:n]`: the first `n` characters, or all of `s` when it is shorter. */
  function Take<T>(s: seq<T>, n: nat): (r: seq<T>)
    ensures |r| == if |s| <= n then |s| else n
    ensures r <= s
  {
    if |s| <= n then s else s[..n]
  }

  /** Python `s.startswith(p)`. */
  predicate StartsWith(s: string, p: string) {
    |p| <= |s| && s[..|p|] == p
  }

  predicate IsUpper(c: char) {
    'A' <= c <= 'Z'
  }

  function LowerChar(c: char): char {
    if IsUpper(c) then (c as int + 32) as char else c
  }

  /** `str.lower()` restricted to the ASCII letters. */
  function Lower(s: string): (r: string)
    ensures |r| == |s|
    ensures forall i :: 0 <= i < |s| ==> r[i] == LowerChar(s[i])
  {
    seq(|s|, i requires 0 <= i < |s| => LowerChar(s[i]))
  }

  // ---------------------------------------------------------------------
  // Substring test: Python `t in s`
  // ---------------------------------------------------------------------

  /** `t` occurs in `s` starting at index `i`. */
  ghost predicate OccursAt(s: string, t: string, i: int) {
    0 <= i && i + |t| <= |s| && s[i..i + |t|] == t
  }

  /** Python `t in s`, computed by trying every start position in turn. */
  predicate Contains(s: string, t: string)
    decreases |s|
  {
    StartsWith(s, t) || (|s| > 0 && Contains(s[1..], t))
  }

  /** The scan finds `t` exactly when some position of `s` holds a copy of it. */
  lemma {:induction false} ContainsIff(s: string, t: string)
    ensures Contains(s, t) <==> exists i :: OccursAt(s, t, i)
    decreases |s|
  {
    if StartsWith(s, t) {
      assert OccursAt(s, t, 0);
    }
    if |s| > 0 {
      ContainsIff(s[1..], t);
      if Contains(s[1..], t) {
        var i :| OccursAt(s[1..], t, i);
        assert s[i + 1..i + 1 + |t|] == s[1..][i..i + |t|];
        assert OccursAt(s, t, i + 1);
      }
      if i :| OccursAt(s, t, i) {
        if i > 0 {
          assert s[1..][i - 1..i - 1 + |t|] == s[i..i + |t|];
          assert OccursAt(s[1..], t, i - 1);
        } else {
          assert StartsWith(s, t);
        }
      }
    } else {
      if i :| OccursAt(s, t, i) {
        assert StartsWith(s, t);
      }
    }
  }

  /** Python `any(t in s for t in terms)`. */
  predicate ContainsAny(s: string, terms: seq<string>)
    decreases |terms|
  {
    |terms| > 0 && (Contains(s, terms[0]) || ContainsAny(s, terms[1..]))
  }

  lemma {:induction false} ContainsAnyIff(s: string, terms: seq<string>)
    ensures ContainsAny(s, terms) <==> exists t :: t in terms && Contains(s, t)
    decreases |terms|
  {
    if |terms| > 0 {
      ContainsAnyIff(s, terms[1..]);
      assert terms[0] in terms;
      assert forall t :: t in terms <==> t == terms[0] || t in terms[1..];
    }
  }

  // ---------------------------------------------------------------------
  // strip()
  // ---------------------------------------------------------------------

  /**
   * The characters `str.strip()` removes, among the ASCII ones: space, tab,
   * line feed, vertical tab, form feed, carriage return and the four
   * information separators 0x1C-0x1F.
   */
  predicate IsSpace(c: char) {
    c == ' ' || c == '\t' || c == '\n' || c == '\r' ||
    c == '\U{000B}' || c == '\U{000C}' || ('\U{001C}' <= c <= '\U{001F}')
  }

  predicate AllSpace(s: string) {
    forall i :: 0 <= i < |s| ==> IsSpace(s[i])
  }

  /** Neither end of `s` is whitespace (so `strip()` leaves it alone). */
  predicate Trimmed(s: string) {
    s == [] || (!IsSpace(s[0]) && !IsSpace(s[|s| - 1]))
  }

  /** `s.lstrip()`: the longest suffix of `s` that does not start with whitespace. */
  function TrimStart(s: string): (r: string)
    ensures |r| <= |s| && r == s[|s| - |r|..]
    ensures AllSpace(s[..|s| - |r|])
    ensures r != [] ==> !IsSpace(r[0])
    decreases |s|
  {
    if |s| > 0 && IsSpace(s[0]) then
      var r := TrimStart(s[1..]);
      TrimStartStep(s, r);
      r
    else s
  }

  /** `s.rstrip()`: the longest prefix of `s` that does not end in whitespace. */
  function TrimEnd(s: string): (r: string)
    ensures |r| <= |s| && r == s[..|r|]
    ensures AllSpace(s[|r|..])
    ensures r != [] ==> !IsSpace(r[|r| - 1])
    decreases |s|
  {
    if |s| > 0 && IsSpace(s[|s| - 1]) then
      var r := TrimEnd(s[..|s| - 1]);
      TrimEndStep(s, r);
      r
    else s
  }

  /** A whitespace first character joins the prefix that `lstrip()` drops from the rest. */
  lemma TrimStartStep(s: string, r: string)
    requires |s| > 0 && IsSpace(s[0])
    requires |r| <= |s| - 1 && r == s[1..][|s| - 1 - |r|..] && AllSpace(s[1..][..|s| - 1 - |r|])
    ensures r == s[|s| - |r|..] && AllSpace(s[..|s| - |r|])
  {
    assert s[..|s| - |r|] == [s[0]] + s[1..][..|s| - 1 - |r|];
  }

  /** A whitespace last character joins the suffix that `rstrip()` drops from the rest. */
  lemma TrimEndStep(s: string, r: string)
    requires |s| > 0 && IsSpace(s[|s| - 1])
    requires |r| <= |s| - 1 && r == s[..|s| - 1][..|r|] && AllSpace(s[..|s| - 1][|r|..])
    ensures r == s[..|r|] && AllSpace(s[|r|..])
  {
    assert s[|r|..] == s[..|s| - 1][|r|..] + [s[|s| - 1]];
  }

  /** Python `s.strip()`. */
  function Strip(s: string): string {
    TrimEnd(TrimStart(s))
  }

  /** `lstrip()` removes exactly a whitespace prefix in front of a text that does not start with whitespace. */
  lemma {:induction false} TrimStartPadded(pre: string, t: string)
    requires AllSpace(pre) && (t == [] || !IsSpace(t[0]))
    ensures TrimStart(pre + t) == t
    decreases |pre|
  {
    if pre != [] {
      assert (pre + t)[0] == pre[0];
      assert (pre + t)[1..] == pre[1..] + t;
      TrimStartPadded(pre[1..], t);
    }
  }

  /** `rstrip()` removes exactly a whitespace suffix after a text that does not end in whitespace. */
  lemma {:induction false} TrimEndPadded(t: string, post: string)
    requires AllSpace(post) && (t == [] || !IsSpace(t[|t| - 1]))
    ensures TrimEnd(t + post) == t
    decreases |post|
  {
    var w := t + post;
    if post != [] {
      assert w[|w| - 1] == post[|post| - 1];
      assert w[..|w| - 1] == t + post[..|post| - 1];
      TrimEndPadded(t, post[..|post| - 1]);
    } else {
      assert w == t;
    }
  }

  /** Stripping removes exactly the whitespace padding around a trimmed text. */
  lemma StripPadded(pre: string, s: string, post: string)
    requires AllSpace(pre) && AllSpace(post) && Trimmed(s)
    ensures Strip(pre + s + post) == s
  {
    if s == [] {
      assert pre + s + post == (pre + post) + [];
      TrimStartPadded(pre + post, []);
    } else {
      assert pre + s + post == pre + (s + post);
      TrimStartPadded(pre, s + post);
      TrimEndPadded(s, post);
    }
  }

  /** The space after a label's colon is stripped away. */
  lemma StripLeadingSpace(s: string)
    requires Trimmed(s)
    ensures Strip(" " + s) == s
  {
    StripPadded(" ", s, "");
    assert " " + s + "" == " " + s;
  }

  lemma StripTrimmed(s: string)
    requires Trimmed(s)
    ensures Strip(s) == s
  {
    StripPadded([], s, []);
    assert [] + s + [] == s;
  }

  // ---------------------------------------------------------------------
  // split(c) and c.join(...)
  // ---------------------------------------------------------------------

  /** Index of the first `c` in `s`. */
  function IndexOf(s: string, c: char): (i: nat)
    requires c in s
    ensures i < |s| && s[i] == c && c !in s[..i]
  {
    if s[0] == c then 0 else 1 + IndexOf(s[1..], c)
  }

  lemma IndexOfAt(s: string, c: char, k: nat)
    requires k < |s| && s[k] == c && c !in s[..k]
    ensures IndexOf(s, c) == k
  {
  }

  /** Number of occurrences of `c` in `s`. */
  function Count(s: string, c: char): nat {
    if s == [] then 0 else (if s[0] == c then 1 else 0) + Count(s[1..], c)
  }

  /**
   * Python `s.split(c)` for a single-character separator: the pieces
   * between consecutive separators, always at least one (`"".split(c)` is `[""]`).
   */
  function Split(s: string, c: char): (parts: seq<string>)
    ensures |parts| == Count(s, c) + 1
    ensures forall k :: 0 <= k < |parts| ==> c !in parts[k]
    decreases |s|
  {
    if c !in s then
      CountAbsent(s, c);
      [s]
    else
      var i := IndexOf(s, c);
      CountSplit(s[..i], s[i + 1..], c);
      assert s == s[..i] + [c] + s[i + 1..];
      [s[..i]] + Split(s[i + 1..], c)
  }

  lemma {:induction false} CountAbsent(s: string, c: char)
    requires c !in s
    ensures Count(s, c) == 0
  {
    if s != [] {
      assert c !in s[1..];
      CountAbsent(s[1..], c);
    }
  }

  lemma {:induction false} CountSplit(a: string, b: string, c: char)
    requires c !in a
    ensures Count(a + [c] + b, c) == Count(b, c) + 1
    decreases |a|
  {
    if a == [] {
      assert a + [c] + b == [c] + b;
      assert ([c] + b)[1..] == b;
    } else {
      assert (a + [c] + b)[1..] == a[1..] + [c] + b;
      assert c !in a[1..];
      CountSplit(a[1..], b, c);
    }
  }

  /** Splitting at a first separator: the text before it is the first piece. */
  lemma SplitAt(a: string, b: string, c: char)
    requires c !in a
    ensures Split(a + [c] + b, c) == [a] + Split(b, c)
  {
    var s := a + [c] + b;
    assert s[..|a|] == a;
    IndexOfAt(s, c, |a|);
    assert s[|a| + 1..] == b;
  }

  /** Python `sep.join(parts)` for a one-character separator. */
  function Join(parts: seq<string>, c: char): string
    decreases |parts|
  {
    if |parts| == 0 then []
    else if |parts| == 1 then parts[0]
    else parts[0] + [c] + Join(parts[1..], c)
  }

  lemma JoinCons(first: string, rest: seq<string>, c: char)
    requires |rest| >= 1
    ensures Join([first] + rest, c) == first + [c] + Join(rest, c)
  {
    assert ([first] + rest)[1..] == rest;
  }

  /** Two lines without the separator, joined, split back into the two. */
  lemma SplitPair(x: string, y: string, c: char)
    requires c !in x && c !in y
    ensures Split(x + [c] + y, c) == [x, y]
  {
    var parts := [x, y];
    assert [x] + [y] == parts;
    JoinCons(x, [y], c);
    SplitJoin(parts, c);
  }

  lemma JoinFour(a: string, b: string, d: string, e: string, c: char)
    ensures Join([a, b, d, e], c) == a + [c] + b + [c] + d + [c] + e
  {
    var parts := [a, b, d, e];
    JoinCons(d, [e], c);
    assert parts[2..] == [d] + [e];
    JoinCons(b, parts[2..], c);
    assert parts[1..] == [b] + parts[2..];
    JoinCons(a, parts[1..], c);
    assert parts == [a] + parts[1..];
  }

  lemma JoinStartsWithFirst(parts: seq<string>, c: char)
    requires |parts| >= 1
    ensures parts[0] <= Join(parts, c)
  {
  }

  /** Joining the pieces of a split gives back the text. */
  lemma {:induction false} JoinSplit(s: string, c: char)
    ensures Join(Split(s, c), c) == s
    decreases |s|
  {
    if c in s {
      var i := IndexOf(s, c);
      assert s == s[..i] + [c] + s[i + 1..];
      SplitAt(s[..i], s[i + 1..], c);
      JoinSplit(s[i + 1..], c);
    }
  }

  /** Splitting a join gives back the pieces, when no piece holds the separator. */
  lemma {:induction false} SplitJoin(parts: seq<string>, c: char)
    requires |parts| >= 1
    requires forall k :: 0 <= k < |parts| ==> c !in parts[k]
    ensures Split(Join(parts, c), c) == parts
    decreases |parts|
  {
    if |parts| > 1 {
      var rest := parts[1..];
      assert forall k :: 0 <= k < |rest| ==> c !in rest[k] by {
        forall k | 0 <= k < |rest|
          ensures c !in rest[k]
        {
          assert rest[k] == parts[k + 1];
        }
      }
      SplitJoin(rest, c);
      assert c !in parts[0];
      assert Join(parts, c) == parts[0] + [c] + Join(rest, c);
      SplitAt(parts[0], Join(rest, c), c);
      assert parts == [parts[0]] + rest;
    } else {
      assert c !in parts[0];
    }
  }

  /** The text after the first `c`: Python `s.split(c, 1)[1]`. */
  function AfterFirst(s: string, c: char): (r: string)
    requires c in s
    ensures |r| < |s| && c in s[..|s| - |r|] && s == s[..|s| - |r|] + r
  {
    s[IndexOf(s, c) + 1..]
  }

  // ---------------------------------------------------------------------
  // int() and decimal rendering
  // ---------------------------------------------------------------------

  predicate IsDigit(c: char) {
    '0' <= c <= '9'
  }

  /** A non-empty run of decimal digits. */
  predicate IsDigits(s: string) {
    |s| > 0 && forall i :: 0 <= i < |s| ==> IsDigit(s[i])
  }

  function DigitValue(c: char): nat
    requires IsDigit(c)
  {
    c as int - '0' as int
  }

  /** The number a run of decimal digits denotes (leading zeros allowed, as in `int("007")`). */
  function DigitsValue(s: string): nat
    requires forall i :: 0 <= i < |s| ==> IsDigit(s[i])
    decreases |s|
  {
    if |s| == 0 then 0 else 10 * DigitsValue(s[..|s| - 1]) + DigitValue(s[|s| - 1])
  }

  /**
   * Python `int(s)` on an already stripped string: an optional sign followed by
   * at least one decimal digit; anything else is a ValueError, here `None`.
   */
  function ParseInt(s: string): Option<int> {
    if |s| > 0 && (s[0] == '-' || s[0] == '+') then
      if IsDigits(s[1..]) then
        Some(if s[0] == '-' then -(DigitsValue(s[1..]) as int) else DigitsValue(s[1..]))
      else None
    else if IsDigits(s) then Some(DigitsValue(s))
    else None
  }

  function Digit(d: nat): (c: char)
    requires d < 10
    ensures IsDigit(c) && DigitValue(c) == d
  {
    ('0' as int + d) as char
  }

  /** Decimal digits of `n`, most significant first, no leading zeros. */
  function NatToString(n: nat): (s: string)
    ensures IsDigits(s)
    decreases n
  {
    if n < 10 then [Digit(n)] else NatToString(n / 10) + [Digit(n % 10)]
  }

  /** Python `str(n)` for an integer. */
  function IntToString(n: int): (s: string)
    ensures |s| > 0 && Trimmed(s)
    ensures forall i :: 0 <= i < |s| ==> IsDigit(s[i]) || s[i] == '-'
  {
    if n < 0 then "-" + NatToString(-n) else NatToString(n)
  }

  lemma {:induction false} NatToStringValue(n: nat)
    ensures DigitsValue(NatToString(n)) == n
    decreases n
  {
    if n >= 10 {
      NatToStringValue(n / 10);
      var s := NatToString(n);
      assert s[..|s| - 1] == NatToString(n / 10);
    }
  }

  /** `int(str(n)) == n`. */
  lemma ParseIntToString(n: int)
    ensures ParseInt(IntToString(n)) == Some(n)
  {
    var s := IntToString(n);
    if n < 0 {
      NatToStringValue(-n);
      assert s[1..] == NatToString(-n);
    } else {
      NatToStringValue(n);
    }
  }
}
