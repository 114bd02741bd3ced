/** String helpers shared by the front end and the back end models.

    The repository mixes two runtimes: the pages are JavaScript and the
    services are Python. Where the two languages disagree (which characters
    count as whitespace, how `%` rounds) the helpers below take the
    difference as an explicit parameter or come in two versions. */
module Text {

  datatype Option<T> = None | Some(value: T)

  datatype Result<T, E> = Ok(value: T) | Err(error: E)

  /** Which runtime's notion of whitespace applies. */
  datatype Runtime = Python | JavaScript

  /** Python's `str.isspace` (used by `strip()` and by `\s` in a `str`
      pattern) and ECMAScript's WhiteSpace + LineTerminator (used by
      `String.prototype.trim`). */
  predicate IsSpace(c: char, rt: Runtime) {
    match rt
    case Python =>
      c == ' ' || ('\t' <= c <= '\r') || ('\U{1c}' <= c <= '\U{1f}') ||
      c == '\U{85}' || c == '\U{a0}' || c == '\U{1680}' ||
      ('\U{2000}' <= c <= '\U{200a}') || c == '\U{2028}' || c == '\U{2029}' ||
      c == '\U{202f}' || c == '\U{205f}' || c == '\U{3000}'
    case JavaScript =>
      c == ' ' || ('\t' <= c <= '\r') || c == '\U{a0}' || c == '\U{1680}' ||
      ('\U{2000}' <= c <= '\U{200a}') || c == '\U{2028}' || c == '\U{2029}' ||
      c == '\U{202f}' || c == '\U{205f}' || c == '\U{3000}' || c == '\U{feff}'
  }

  /** Number of leading whitespace characters. */
  function LeadingSpace(s: string, rt: Runtime): (i: nat)
    ensures i <= |s|
    ensures forall k :: 0 <= k < i ==> IsSpace(s[k], rt)
    ensures i < |s| ==> !IsSpace(s[i], rt)
  {
    if |s| == 0 || !IsSpace(s[0], rt) then 0 else 1 + LeadingSpace(s[1..], rt)
  }

  /** Index where the trailing run of whitespace begins. */
  function TrailingSpace(s: string, rt: Runtime): (j: nat)
    ensures j <= |s|
    ensures forall k :: j <= k < |s| ==> IsSpace(s[k], rt)
    ensures 0 < j ==> !IsSpace(s[j - 1], rt)
  {
    if |s| == 0 || !IsSpace(s[|s| - 1], rt) then |s| else TrailingSpace(s[..|s| - 1], rt)
  }

  /** `s.strip()` in Python, `s.trim()` in JavaScript. */
  function Strip(s: string, rt: Runtime): (r: string)
    ensures LeadingSpace(s, rt) + |r| <= |s|
    ensures r == s[LeadingSpace(s, rt)..LeadingSpace(s, rt) + |r|]
    ensures forall k :: 0 <= k < LeadingSpace(s, rt) ==> IsSpace(s[k], rt)
    ensures forall k :: LeadingSpace(s, rt) + |r| <= k < |s| ==> IsSpace(s[k], rt)
    ensures r != [] ==> !IsSpace(r[0], rt) && !IsSpace(r[|r| - 1], rt)
  {
    var i, j := LeadingSpace(s, rt), TrailingSpace(s, rt);
    if i == |s| then [] else s[i..j]
  }

  /** Stripping twice changes nothing after the first time. */
  lemma StripIdempotent(s: string, rt: Runtime)
    ensures Strip(Strip(s, rt), rt) == Strip(s, rt)
  {
    var r := Strip(s, rt);
    if r != [] {
      assert LeadingSpace(r, rt) == 0;
      assert TrailingSpace(r, rt) == |r| by {
        assert !IsSpace(r[|r| - 1], rt);
      }
    }
  }

  /** `t` occurs in `s` starting at index `i`. */
  predicate OccursAt(s: string, t: string, i: nat) {
    i + |t| <= |s| && s[i..i + |t|] == t
  }

  /** First index at or after `from` where `t` occurs (Python `find`,
      JavaScript `indexOf`); `None` stands for their -1. */
  function IndexOf(s: string, t: string, from: nat): (r: Option<nat>)
    decreases |s| - from
    ensures r.Some? ==> from <= r.value && OccursAt(s, t, r.value)
    ensures r.Some? ==> forall k :: from <= k < r.value ==> !OccursAt(s, t, k)
    ensures r.None? ==> forall k :: from <= k ==> !OccursAt(s, t, k)
  {
    if from + |t| > |s| then None
    else if s[from..from + |t|] == t then Some(from)
    else IndexOf(s, t, from + 1)
  }

  /** The first occurrence at or after `from` is what `IndexOf` finds. */
  lemma {:induction false} IndexOfIs(s: string, t: string, from: nat, i: nat)
    requires from <= i && OccursAt(s, t, i)
    requires forall k :: from <= k < i ==> !OccursAt(s, t, k)
    decreases i - from
    ensures IndexOf(s, t, from) == Some(i)
  {
    if from < i {
      assert !OccursAt(s, t, from);
      IndexOfIs(s, t, from + 1, i);
    }
  }

  /** Substring test (`in` in Python, `includes` in JavaScript). */
  predicate Contains(s: string, t: string) {
    IndexOf(s, t, 0).Some?
  }

  lemma ContainsAt(s: string, t: string, i: nat)
    requires OccursAt(s, t, i)
    ensures Contains(s, t)
  {
  }

  /** Last index of the character `c` (Python `rfind` on one character). */
  function LastIndexOf(s: string, c: char): (r: Option<nat>)
    ensures r.Some? ==> r.value < |s| && s[r.value] == c
    ensures r.Some? ==> forall k :: r.value < k < |s| ==> s[k] != c
    ensures r.None? ==> forall k :: 0 <= k < |s| ==> s[k] != c
  {
    if |s| == 0 then None
    else if s[|s| - 1] == c then Some(|s| - 1)
    else LastIndexOf(s[..|s| - 1], c)
  }

  predicate StartsWith(s: string, p: string) {
    |p| <= |s| && s[..|p|] == p
  }

  predicate EndsWith(s: string, p: string) {
    |p| <= |s| && s[|s| - |p|..] == p
  }

  function LowerChar(c: char): char {
    if 'A' <= c <= 'Z' then (c as int + 32) as char else c
  }

  function UpperChar(c: char): char {
    if 'a' <= c <= 'z' then (c as int - 32) as char else c
  }

  /** `toLowerCase()` / `lower()` restricted to ASCII letters. */
  function Lower(s: string): (r: string)
    ensures |r| == |s|
    ensures forall k :: 0 <= k < |s| ==> r[k] == LowerChar(s[k])
  {
    if |s| == 0 then [] else [LowerChar(s[0])] + Lower(s[1..])
  }

  /** `capitalize()`: first character upper case, all others lower case
      (ASCII letters only). */
  function Capitalize(s: string): (r: string)
    ensures |r| == |s|
    ensures |s| > 0 ==> r[0] == UpperChar(s[0])
    ensures forall k :: 0 < k < |s| ==> r[k] == LowerChar(s[k])
  {
    if |s| == 0 then [] else [UpperChar(s[0])] + Lower(s[1..])
  }

  /** Capitalising a capitalised string gives it back. */
  lemma CapitalizeIdempotent(s: string)
    ensures Capitalize(Capitalize(s)) == Capitalize(s)
  {
    var r := Capitalize(s);
    var rr := Capitalize(r);
    if |s| > 0 {
      assert rr[0] == r[0];
      forall k | 0 < k < |s| ensures rr[k] == r[k] {
        assert r[k] == LowerChar(s[k]);
      }
    }
  }

  function DigitChar(d: nat): char
    requires d < 10
  {
    "0123456789"[d]
  }

  predicate IsDigit(c: char) {
    '0' <= c <= '9'
  }

  function DigitValue(c: char): nat
    requires IsDigit(c)
  {
    c as int - '0' as int
  }

  /** Decimal rendering of a natural number, as `str(n)` / `String(n)`. */
  function NatToString(n: nat): (r: string)
    decreases n
    ensures |r| >= 1
    ensures forall k :: 0 <= k < |r| ==> IsDigit(r[k])
    ensures n < 10 <==> |r| == 1
  {
    if n < 10 then [DigitChar(n)] else NatToString(n / 10) + [DigitChar(n % 10)]
  }

  /** Value of a non-empty string of decimal digits. */
  function DecimalValue(s: string): nat
    requires forall k :: 0 <= k < |s| ==> IsDigit(s[k])
  {
    if |s| == 0 then 0 else 10 * DecimalValue(s[..|s| - 1]) + DigitValue(s[|s| - 1])
  }

  /** Rendering a number in decimal and reading it back gives the number. */
  lemma {:induction false} DecimalRoundTrip(n: nat)
    ensures DecimalValue(NatToString(n)) == n
  {
    var r := NatToString(n);
    if n >= 10 {
      DecimalRoundTrip(n / 10);
      assert r[..|r| - 1] == NatToString(n / 10);
    }
  }

  /** Decimal rendering of an integer, with a leading `-` when negative. */
  function IntToString(i: int): (r: string)
    ensures |r| >= 1
    ensures i >= 0 ==> r == NatToString(i)
    ensures i < 0 ==> r[0] == '-' && r[1..] == NatToString(-i)
  {
    if i >= 0 then NatToString(i) else "-" + NatToString(-i)
  }

  /** Python's `sep.join(parts)`: the parts in order, `sep` between
      neighbours, so the first part is a prefix and the last a suffix. */
  function Join(parts: seq<string>, sep: string): (r: string)
    ensures |parts| == 0 ==> r == ""
    ensures |parts| > 0 ==> |parts[0]| <= |r| && r[..|parts[0]|] == parts[0]
    ensures |parts| > 0 ==> |parts[|parts| - 1]| <= |r| && r[|r| - |parts[|parts| - 1]|..] == parts[|parts| - 1]
  {
    if |parts| == 0 then ""
    else if |parts| == 1 then parts[0]
    else parts[0] + sep + Join(parts[1..], sep)
  }

  /** Joining two non-empty lists puts one separator between them, so
      every pair of neighbours is separated by `sep`. */
  lemma {:induction false} JoinAppend(a: seq<string>, b: seq<string>, sep: string)
    requires |a| > 0 && |b| > 0
    ensures Join(a + b, sep) == Join(a, sep) + sep + Join(b, sep)
  {
    if |a| == 1 {
      assert a + b == [a[0]] + b;
      JoinCons(a[0], b, sep);
    } else {
      assert a + b == [a[0]] + (a[1..] + b);
      JoinCons(a[0], a[1..] + b, sep);
      assert a == [a[0]] + a[1..];
      JoinCons(a[0], a[1..], sep);
      JoinAppend(a[1..], b, sep);
      Regroup(a[0] + sep, Join(a[1..], sep), sep, Join(b, sep));
    }
  }

  /** Joining a part in front of a non-empty rest. */
  lemma JoinCons(p: string, rest: seq<string>, sep: string)
    requires |rest| > 0
    ensures Join([p] + rest, sep) == p + sep + Join(rest, sep)
  {
    assert ([p] + rest)[1..] == rest;
  }

  lemma Regroup(z: string, x: string, sep: string, y: string)
    ensures z + (x + sep + y) == (z + x) + sep + y
  {
  }

  /** A rendering starts with "-" exactly for a negative number. */
  lemma RenderingSign(i: int)
    ensures IntToString(i)[0] == '-' <==> i < 0
  {
    if i >= 0 {
      assert IsDigit(IntToString(i)[0]);
    }
  }

  /** Different integers have different renderings. */
  lemma IntToStringInjective(a: int, b: int)
    requires IntToString(a) == IntToString(b)
    ensures a == b
  {
    RenderingSign(a);
    RenderingSign(b);
    if a >= 0 {
      var m, n: nat := a, b;
      assert NatToString(m) == NatToString(n);
      DecimalRoundTrip(m);
      DecimalRoundTrip(n);
    } else {
      var m, n: nat := -a, -b;
      assert NatToString(m) == IntToString(a)[1..] == IntToString(b)[1..] == NatToString(n);
      DecimalRoundTrip(m);
      DecimalRoundTrip(n);
    }
  }

  /** JavaScript's `String.prototype.replace(pat, rep)` with a string
      pattern: only the first occurrence is replaced. */
  function ReplaceFirst(s: string, pat: string, rep: string): (r: string)
    ensures IndexOf(s, pat, 0).None? ==> r == s
    ensures IndexOf(s, pat, 0).Some? ==>
      var i := IndexOf(s, pat, 0).value;
      r == s[..i] + rep + s[i + |pat|..]
  {
    match IndexOf(s, pat, 0)
    case None => s
    case Some(i) => s[..i] + rep + s[i + |pat|..]
  }

  /** JavaScript `%`: the remainder takes the sign of the dividend. */
  function JsRem(a: int, b: int): (r: int)
    requires b > 0
    ensures a >= 0 ==> 0 <= r < b
    ensures a < 0 ==> -b < r <= 0
    ensures a >= 0 ==> r == a % b
    ensures (a - r) % b == 0
  {
    if a >= 0 then
      assert a - a % b == b * (a / b);
      MultipleRem(b, a / b);
      a % b
    else
      NegatedRem(a, b);
      -((-a) % b)
  }

  /** Adding back the remainder of `-a` lands on a multiple of `b`. */
  lemma NegatedRem(a: int, b: int)
    requires b > 0
    ensures (a + (-a) % b) % b == 0
  {
    var n := -a;
    var q := n / b;
    assert n == b * q + n % b;
    assert a + n % b == -(b * q);
    assert -(b * q) == b * -q;
    MultipleRem(b, -q);
  }

  /** A multiple of `b` leaves no remainder. */
  lemma MultipleRem(b: int, q: int)
    requires b > 0
    ensures (b * q) % b == 0
  {
    var x := b * q;
    var d := q - x / b;
    assert b * d == x % b;
    assert d == 0;
  }

  /** `String(n).padStart(width, "0")`. */
  function PadStart(s: string, width: nat, fill: char): (r: string)
    decreases width - |s|
    ensures |r| == if |s| >= width then |s| else width
    ensures r[|r| - |s|..] == s
    ensures forall k :: 0 <= k < |r| - |s| ==> r[k] == fill
  {
    if |s| >= width then s else PadStart([fill] + s, width, fill)
  }
}
