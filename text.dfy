/**
 * The C string primitives the configuration loader is built on: `isspace` in the
 * "C" locale, whitespace trimming, `strchr`, splitting a buffer at a delimiter,
 * and decimal digit strings.
 */
module Text {

  import opened Wrappers

  /** `isspace` in the "C" locale: space, \t, \n, \v, \f and \r. */
  predicate IsSpace(c: char) {
    c == ' ' || c == '\t' || c == '\n' || c == '\U{000B}' || c == '\U{000C}' || c == '\r'
  }

  predicate AllSpace(s: string) {
    forall i :: 0 <= i < |s| ==> IsSpace(s[i])
  }

  predicate IsDigit(c: char) {
    '0' <= c <= '9'
  }

  predicate AllDigits(s: string) {
    forall i :: 0 <= i < |s| ==> IsDigit(s[i])
  }

  /** The length of the run of whitespace that `s` starts with. */
  function LeadingSpaces(s: string): (n: nat)
    ensures n <= |s|
    ensures forall i :: 0 <= i < n ==> IsSpace(s[i])
    ensures n < |s| ==> !IsSpace(s[n])
  {
    if s != [] && IsSpace(s[0]) then 1 + LeadingSpaces(s[1..]) else 0
  }

  /** The index at which the run of whitespace that `s` ends with begins. */
  function TrailingStart(s: string): (n: nat)
    ensures n <= |s|
    ensures forall i :: n <= i < |s| ==> IsSpace(s[i])
    ensures n > 0 ==> !IsSpace(s[n - 1])
  {
    if s != [] && IsSpace(s[|s| - 1]) then TrailingStart(s[..|s| - 1]) else |s|
  }

  /** `rsStringTrimStart`: drops the leading whitespace. */
  function TrimStart(s: string): (r: string)
    ensures r == [] || !IsSpace(r[0])
    ensures |r| <= |s| && r == s[|s| - |r|..]
    ensures AllSpace(s[..|s| - |r|])
  {
    s[LeadingSpaces(s)..]
  }

  /** `rsStringTrimEnd`: drops the trailing whitespace. */
  function TrimEnd(s: string): (r: string)
    ensures r == [] || !IsSpace(r[|r| - 1])
    ensures |r| <= |s| && r == s[..|r|]
    ensures AllSpace(s[|r|..])
  {
    s[..TrailingStart(s)]
  }

  /** Any whitespace prefix followed by a non-space or the end is the leading run. */
  lemma {:induction false} LeadingSpacesUnique(s: string, n: nat)
    requires n <= |s|
    requires forall i :: 0 <= i < n ==> IsSpace(s[i])
    requires n == |s| || !IsSpace(s[n])
    ensures LeadingSpaces(s) == n
  {
    if n > 0 {
      LeadingSpacesUnique(s[1..], n - 1);
    }
  }

  /** Any whitespace suffix preceded by a non-space or the start is the trailing run. */
  lemma {:induction false} TrailingStartUnique(s: string, n: nat)
    requires n <= |s|
    requires forall i :: n <= i < |s| ==> IsSpace(s[i])
    requires n == 0 || !IsSpace(s[n - 1])
    ensures TrailingStart(s) == n
    decreases |s|
  {
    if n < |s| {
      TrailingStartUnique(s[..|s| - 1], n);
    }
  }

  /** Whitespace followed by a non-space (or nothing) is the whole leading run. */
  lemma LeadingSpacesOf(ws: string, t: string)
    requires AllSpace(ws)
    requires t == [] || !IsSpace(t[0])
    ensures LeadingSpaces(ws + t) == |ws|
  {
    var s := ws + t;
    forall k | 0 <= k < |ws| ensures IsSpace(s[k]) {
      assert s[k] == ws[k];
    }
    assert |ws| < |s| ==> s[|ws|] == t[0];
    LeadingSpacesUnique(s, |ws|);
  }

  /** The leading whitespace of `a + b` is that of `a`, and then that of `b` if all of `a` is. */
  lemma LeadingSpacesAppend(a: string, b: string)
    ensures LeadingSpaces(a + b)
      == if LeadingSpaces(a) < |a| then LeadingSpaces(a) else |a| + LeadingSpaces(b)
  {
    var s := a + b;
    if LeadingSpaces(a) < |a| {
      LeadingSpacesUnique(s, LeadingSpaces(a));
    } else {
      var n := |a| + LeadingSpaces(b);
      forall i | 0 <= i < n ensures IsSpace(s[i]) {
        if i >= |a| { assert s[i] == b[i - |a|]; }
      }
      assert n < |s| ==> s[n] == b[LeadingSpaces(b)];
      LeadingSpacesUnique(s, n);
    }
  }

  /** The trailing whitespace of `a + b` is that of `b`, and then that of `a` if all of `b` is. */
  lemma TrailingStartAppend(a: string, b: string)
    ensures TrailingStart(a + b)
      == if TrailingStart(b) > 0 then |a| + TrailingStart(b) else TrailingStart(a)
  {
    var s := a + b;
    if TrailingStart(b) > 0 {
      var n := |a| + TrailingStart(b);
      forall i | n <= i < |s| ensures IsSpace(s[i]) {
        assert s[i] == b[i - |a|];
      }
      assert s[n - 1] == b[TrailingStart(b) - 1];
      TrailingStartUnique(s, n);
    } else {
      var n := TrailingStart(a);
      forall i | n <= i < |s| ensures IsSpace(s[i]) {
        if i >= |a| { assert s[i] == b[i - |a|]; }
      }
      TrailingStartUnique(s, n);
    }
  }

  /** Trimming the start of `a + b` keeps `b` whole unless `a` is all whitespace. */
  lemma TrimStartAppend(a: string, b: string)
    ensures TrimStart(a) != [] ==> TrimStart(a + b) == TrimStart(a) + b
    ensures TrimStart(a) == [] ==> TrimStart(a + b) == TrimStart(b)
  {
    LeadingSpacesAppend(a, b);
    var k := LeadingSpaces(a);
    if k < |a| {
      assert (a + b)[k..] == a[k..] + b;
    } else {
      assert (a + b)[|a| + LeadingSpaces(b)..] == b[LeadingSpaces(b)..];
    }
  }

  /** Trimming the end of `a + b` keeps `a` whole unless `b` is all whitespace. */
  lemma TrimEndAppend(a: string, b: string)
    ensures TrimEnd(b) != [] ==> TrimEnd(a + b) == a + TrimEnd(b)
    ensures TrimEnd(b) == [] ==> TrimEnd(a + b) == TrimEnd(a)
  {
    TrailingStartAppend(a, b);
    var k := TrailingStart(b);
    if k > 0 {
      assert (a + b)[..|a| + k] == a + b[..k];
    } else {
      assert (a + b)[..TrailingStart(a)] == a[..TrailingStart(a)];
    }
  }

  /** Trimming both ends gives the same text in either order. */
  lemma TrimCommutes(s: string)
    ensures TrimStart(TrimEnd(s)) == TrimEnd(TrimStart(s))
  {
    var i := LeadingSpaces(s);
    var j := TrailingStart(s);
    if i == |s| {
      TrailingStartUnique(s, 0);
      LeadingSpacesUnique(s[..0], 0);
    } else {
      assert i < j;
      var t := s[i..];
      TrailingStartUnique(t, j - i);
      var u := s[..j];
      LeadingSpacesUnique(u, i);
      assert t[..j - i] == u[i..];
    }
  }

  /** `strchr`: the index of the first `c` in `s`, or `|s|` when there is none. */
  function Find(s: string, c: char): (k: nat)
    ensures k <= |s|
    ensures c !in s[..k]
    ensures k < |s| ==> s[k] == c
  {
    if s == [] then 0
    else if s[0] == c then 0
    else 1 + Find(s[1..], c)
  }

  /**
   * One step of splitting a buffer at delimiter `d`: the token before the first
   * `d`, and the rest after it; when `s` holds no `d`, the whole of `s` is the last
   * token and nothing remains.
   */
  function SplitNext(s: string, d: char): (r: (string, Option<string>))
    ensures d !in r.0
    ensures r.1.None? ==> r.0 == s
    ensures r.1.Some? ==> s == r.0 + [d] + r.1.value
  {
    var k := Find(s, d);
    if k == |s| then (s, None) else (s[..k], Some(s[k + 1..]))
  }

  /** All the tokens `SplitNext` yields from `s`, in order. */
  function Split(s: string, d: char): (parts: seq<string>)
    ensures |parts| >= 1
    ensures forall i :: 0 <= i < |parts| ==> d !in parts[i]
    decreases |s|
  {
    var (token, rest) := SplitNext(s, d);
    match rest
    case None => [token]
    case Some(t) => [token] + Split(t, d)
  }

  /** Glues the parts together with `d` between neighbours. */
  function Join(parts: seq<string>, d: char): string
    requires |parts| >= 1
  {
    if |parts| == 1 then parts[0] else parts[0] + [d] + Join(parts[1..], d)
  }

  /** Splitting loses nothing: the tokens and the delimiters give back the buffer. */
  lemma {:induction false} JoinSplit(s: string, d: char)
    ensures Join(Split(s, d), d) == s
    decreases |s|
  {
    var (token, rest) := SplitNext(s, d);
    if rest.Some? {
      JoinSplit(rest.value, d);
    }
  }

  /** Splitting a join of delimiter-free parts gives back exactly those parts. */
  lemma {:induction false} SplitJoin(parts: seq<string>, d: char)
    requires |parts| >= 1
    requires forall i :: 0 <= i < |parts| ==> d !in parts[i]
    ensures Split(Join(parts, d), d) == parts
  {
    if |parts| > 1 {
      var s := Join(parts, d);
      var t := Join(parts[1..], d);
      var k := |parts[0]|;
      assert s == parts[0] + ([d] + t);
      FindPast(parts[0], [d] + t, d);
      assert Find([d] + t, d) == 0;
      assert Find(s, d) == k;
      assert s[..k] == parts[0] && s[k + 1..] == t;
      assert SplitNext(s, d) == (parts[0], Some(t));
      SplitJoin(parts[1..], d);
      assert Split(s, d) == [parts[0]] + Split(t, d);
    }
  }

  /** `strchr` stops at the first `c`, which lies in `b` when `a` has none. */
  lemma {:induction false} FindPast(a: string, b: string, c: char)
    requires c !in a
    ensures Find(a + b, c) == |a| + Find(b, c)
  {
    if a != [] {
      assert (a + b)[1..] == a[1..] + b;
      FindPast(a[1..], b, c);
    } else {
      assert a + b == b;
    }
  }

  /** The value of a decimal digit character (0 for any other character). */
  function DigitValue(c: char): (d: nat)
    ensures d <= 9
    ensures IsDigit(c) ==> d == c as int - '0' as int
  {
    if IsDigit(c) then c as int - '0' as int else 0
  }

  /** The number a string of decimal digits stands for. */
  function DigitsValue(s: string): (n: nat) {
    if s == [] then 0
    else 10 * DigitsValue(s[..|s| - 1]) + DigitValue(s[|s| - 1])
  }

  /** The number of decimal digits at the start of `s`. */
  function DigitRun(s: string): (n: nat)
    ensures n <= |s|
    ensures AllDigits(s[..n])
    ensures n < |s| ==> !IsDigit(s[n])
  {
    if s != [] && IsDigit(s[0]) then 1 + DigitRun(s[1..]) else 0
  }

  /** The shortest decimal spelling of `n`. */
  function NatToDigits(n: nat): (s: string)
    ensures |s| >= 1 && AllDigits(s)
  {
    var d := [(('0' as int) + n % 10) as char];
    if n < 10 then d else NatToDigits(n / 10) + d
  }

  /** Reading back the decimal spelling of a number gives the number. */
  lemma {:induction false} DigitsRoundTrip(n: nat)
    ensures DigitsValue(NatToDigits(n)) == n
  {
    var s := NatToDigits(n);
    if n >= 10 {
      DigitsRoundTrip(n / 10);
      assert s[..|s| - 1] == NatToDigits(n / 10);
    }
  }
}
