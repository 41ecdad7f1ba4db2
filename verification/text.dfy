/** The two string operations the core relies on: `str.split()[0]` and Python's `<` on `str`. */
module Text {
  import opened Wrappers

  /** The characters Python's `str.split()` with no argument separates on (`str.isspace`). */
  predicate IsSpace(c: char)
  {
    || c == ' '
    || '\U{9}' <= c <= '\U{D}'
    || '\U{1C}' <= c <= '\U{1F}'
    || c == '\U{85}' || c == '\U{A0}' || c == '\U{1680}'
    || '\U{2000}' <= c <= '\U{200A}'
    || c == '\U{2028}' || c == '\U{2029}' || c == '\U{202F}'
    || c == '\U{205F}' || c == '\U{3000}'
  }

  predicate AllSpace(s: string)
  {
    forall i | 0 <= i < |s| :: IsSpace(s[i])
  }

  predicate NoSpace(s: string)
  {
    forall i | 0 <= i < |s| :: !IsSpace(s[i])
  }

  /** `s` is empty or starts with whitespace: what may follow a word. */
  predicate Separated(s: string)
  {
    s == [] || IsSpace(s[0])
  }

  /** The number of whitespace characters `s` starts with. */
  function LeadingSpace(s: string): (n: nat)
    ensures n <= |s|
    ensures AllSpace(s[..n])
    ensures n == |s| || !IsSpace(s[n])
  {
    if |s| == 0 || !IsSpace(s[0]) then 0
    else
      var m := LeadingSpace(s[1..]);
      assert s[..m + 1] == [s[0]] + s[1..][..m];
      m + 1
  }

  /** The length of the longest prefix of `s` without whitespace. */
  function WordLength(s: string): (n: nat)
    ensures n <= |s|
    ensures NoSpace(s[..n])
    ensures n == |s| || IsSpace(s[n])
  {
    if |s| == 0 || IsSpace(s[0]) then 0
    else
      var m := WordLength(s[1..]);
      assert s[..m + 1] == [s[0]] + s[1..][..m];
      m + 1
  }

  /**
   * `s.split()[0]`: the first maximal run of non-whitespace characters. `None`
   * when `s.split()` is the empty list, where indexing it raises IndexError.
   */
  function FirstWord(s: string): (r: Option<string>)
    ensures r.None? <==> AllSpace(s)
    ensures r.Some? ==> r.value != [] && NoSpace(r.value)
    ensures r.Some? ==> exists pre, rest ::
      s == pre + r.value + rest && AllSpace(pre) && Separated(rest)
  {
    var k := LeadingSpace(s);
    if k == |s| then
      assert s[..k] == s;
      None
    else
      var n := WordLength(s[k..]);
      var pre, w, rest := s[..k], s[k..][..n], s[k..][n..];
      assert s == pre + w + rest;
      assert rest == [] || rest[0] == s[k..][n];
      assert Separated(rest);
      Some(w)
  }

  /** A label made of leading whitespace, a word and a separated remainder splits to that word. */
  lemma FirstWordOfLabel(pre: string, w: string, rest: string)
    requires AllSpace(pre) && w != [] && NoSpace(w)
    requires Separated(rest)
    ensures FirstWord(pre + w + rest) == Some(w)
  {
    var s := pre + w + rest;
    var k := LeadingSpace(s);
    assert forall i | 0 <= i < |pre| :: s[i] == pre[i];
    assert forall i | 0 <= i < k :: s[..k][i] == s[i];
    assert s[|pre|] == w[0];
    assert k == |pre|;
    var t := s[k..];
    assert t == w + rest;
    var n := WordLength(t);
    assert forall i | 0 <= i < |w| :: t[i] == w[i];
    assert forall i | 0 <= i < n :: t[..n][i] == t[i];
    assert rest != [] ==> t[|w|] == rest[0];
    assert n == |w|;
  }

  /** Python's `a < b` on strings: code-point order, a proper prefix being the smaller. */
  predicate LexLess(a: string, b: string)
  {
    if |b| == 0 then false
    else if |a| == 0 then true
    else if a[0] != b[0] then a[0] < b[0]
    else LexLess(a[1..], b[1..])
  }

  lemma {:induction false} LexLessIrreflexive(a: string)
    ensures !LexLess(a, a)
  {
    if |a| > 0 {
      LexLessIrreflexive(a[1..]);
    }
  }

  /** Comparing two strings whose first parts have equal length decides on those parts first. */
  lemma {:induction false} LexLessConcat(p: string, q: string, x: string, y: string)
    requires |p| == |q|
    ensures LexLess(p + x, q + y) <==> LexLess(p, q) || (p == q && LexLess(x, y))
  {
    if |p| > 0 {
      assert (p + x)[0] == p[0] && (q + y)[0] == q[0];
      assert (p + x)[1..] == p[1..] + x && (q + y)[1..] == q[1..] + y;
      LexLessConcat(p[1..], q[1..], x, y);
      if p[0] == q[0] && p[1..] == q[1..] {
        assert p == [p[0]] + p[1..] && q == [q[0]] + q[1..];
      }
    } else {
      assert p + x == x && q + y == y;
    }
  }

  function Digit(n: nat): char
    requires n < 10
  {
    ('0' as int + n) as char
  }

  /** A number below 100 as two zero-padded decimal digits (strftime's `%H`, `%M`, `%S`). */
  function TwoDigits(n: nat): string
    requires n < 100
  {
    [Digit(n / 10), Digit(n % 10)]
  }

  /** A time of day as strftime("%H:%M:%S") writes it. */
  function ClockText(h: nat, m: nat, s: nat): string
    requires h < 24 && m < 60 && s < 60
  {
    TwoDigits(h) + ([':'] + (TwoDigits(m) + ([':'] + TwoDigits(s))))
  }

  lemma TwoDigitsOrder(a: nat, b: nat)
    requires a < 100 && b < 100
    ensures LexLess(TwoDigits(a), TwoDigits(b)) <==> a < b
    ensures TwoDigits(a) == TwoDigits(b) <==> a == b
  {
    var da, db := TwoDigits(a), TwoDigits(b);
    assert a == 10 * (a / 10) + a % 10 && b == 10 * (b / 10) + b % 10;
    assert da[1..][1..] == [] && db[1..][1..] == [];
    assert !LexLess([], []);
    assert LexLess(da, db) <==> a / 10 < b / 10 || (a / 10 == b / 10 && a % 10 < b % 10);
  }

  /** On times written as HH:MM:SS, string order is the order of the times. */
  lemma ClockTextOrder(h1: nat, m1: nat, s1: nat, h2: nat, m2: nat, s2: nat)
    requires h1 < 24 && m1 < 60 && s1 < 60 && h2 < 24 && m2 < 60 && s2 < 60
    ensures LexLess(ClockText(h1, m1, s1), ClockText(h2, m2, s2))
        <==> h1 * 3600 + m1 * 60 + s1 < h2 * 3600 + m2 * 60 + s2
  {
    var tail1 := [':'] + TwoDigits(s1);
    var tail2 := [':'] + TwoDigits(s2);
    var mid1 := [':'] + (TwoDigits(m1) + tail1);
    var mid2 := [':'] + (TwoDigits(m2) + tail2);
    TwoDigitsOrder(h1, h2);
    TwoDigitsOrder(m1, m2);
    TwoDigitsOrder(s1, s2);
    LexLessConcat(TwoDigits(h1), TwoDigits(h2), mid1, mid2);
    LexLessConcat([':'], [':'], TwoDigits(m1) + tail1, TwoDigits(m2) + tail2);
    LexLessIrreflexive([':']);
    LexLessConcat(TwoDigits(m1), TwoDigits(m2), tail1, tail2);
    LexLessConcat([':'], [':'], TwoDigits(s1), TwoDigits(s2));
  }
}
