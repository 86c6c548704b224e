/** The few JavaScript string operations the sync code relies on, with their
    ECMAScript meaning: `||` on an optional string, `trim()`, `replace(/\s+/g, c)` and
    `join(sep)`. `Split` on one character is not used by the code; it is defined only as
    the inverse of `join`, so that a joined list can be shown to split back. */
module JsStrings {

  datatype Option<+T> = None | Some(value: T) {
    /** JavaScript's `x ?? d` when `x` is `undefined`. */
    function GetOr(default: T): T {
      match this
      case Some(v) => v
      case None => default
    }
  }

  /** `a || d` where `a` is an optional string: `undefined` and `""` are both falsy. */
  function OrElse(a: Option<string>, d: string): string {
    if a.Some? && a.value != "" then a.value else d
  }

  /** The characters ECMAScript calls WhiteSpace or LineTerminator: the set
      `String.prototype.trim` strips and the regular-expression class `\s` matches. */
  predicate IsWhitespace(c: char) {
    || c == '\t' || c == '\n' || c == '\U{000B}' || c == '\U{000C}' || c == '\r'
    || c == ' ' || c == '\U{00A0}' || c == '\U{1680}'
    || ('\U{2000}' <= c <= '\U{200A}')
    || c == '\U{2028}' || c == '\U{2029}' || c == '\U{202F}' || c == '\U{205F}'
    || c == '\U{3000}' || c == '\U{FEFF}'
  }

  predicate AllWhitespace(s: string) {
    forall i :: 0 <= i < |s| ==> IsWhitespace(s[i])
  }

  predicate NoWhitespace(s: string) {
    forall i :: 0 <= i < |s| ==> !IsWhitespace(s[i])
  }

  /** No whitespace at either end: what `trim()` leaves. */
  predicate IsTrimmed(s: string) {
    s == [] || (!IsWhitespace(s[0]) && !IsWhitespace(s[|s| - 1]))
  }

  /** Every character of `s` from index `lo` up to (not including) `hi` is whitespace. */
  predicate WhitespaceBetween(s: string, lo: nat, hi: nat)
    requires lo <= hi <= |s|
  {
    forall i :: lo <= i < hi ==> IsWhitespace(s[i])
  }

  /** `trimStart()`: drops the longest all-whitespace prefix. */
  function TrimStart(s: string): (r: string)
    ensures |r| <= |s| && r == s[|s| - |r|..]
    ensures WhitespaceBetween(s, 0, |s| - |r|)
    ensures r == [] || !IsWhitespace(r[0])
  {
    if s != [] && IsWhitespace(s[0]) then TrimStart(s[1..]) else s
  }

  /** `trimEnd()`: drops the longest all-whitespace suffix. */
  function TrimEnd(s: string): (r: string)
    ensures |r| <= |s| && r == s[..|r|]
    ensures WhitespaceBetween(s, |r|, |s|)
    ensures r == [] || !IsWhitespace(r[|r| - 1])
  {
    if s != [] && IsWhitespace(s[|s| - 1]) then TrimEnd(s[..|s| - 1]) else s
  }

  /** The number of characters `trim()` removes from the front. */
  function LeadingWhitespace(s: string): (n: nat)
    ensures n <= |s|
  {
    |s| - |TrimStart(s)|
  }

  /** `trim()`: `s` is some whitespace, then the result, then some whitespace, and the
      result starts and ends with a character that is not whitespace. */
  function Trim(s: string): (r: string)
    ensures IsTrimmed(r)
    ensures LeadingWhitespace(s) + |r| <= |s|
    ensures r == s[LeadingWhitespace(s)..LeadingWhitespace(s) + |r|]
    ensures WhitespaceBetween(s, 0, LeadingWhitespace(s))
    ensures WhitespaceBetween(s, LeadingWhitespace(s) + |r|, |s|)
  {
    TrimEnd(TrimStart(s))
  }

  /** A string with no whitespace at either end is left as it is by `trim()`. */
  lemma TrimOfTrimmed(s: string)
    requires IsTrimmed(s)
    ensures Trim(s) == s
  {
    assert TrimStart(s) == s;
    assert TrimEnd(s) == s;
  }

  /** `trim()` is idempotent. */
  lemma TrimIdempotent(s: string)
    ensures Trim(Trim(s)) == Trim(s)
  {
    TrimOfTrimmed(Trim(s));
  }

  /** A string made only of whitespace trims to the empty string. */
  lemma TrimOfAllWhitespace(s: string)
    requires AllWhitespace(s)
    ensures Trim(s) == ""
  {
  }

  /** `s.replace(/\s+/g, '_')`: every maximal run of whitespace becomes one `_`. */
  function CollapseWhitespace(s: string): (r: string)
    ensures |r| <= |s|
    ensures NoWhitespace(r)
    decreases |s|
  {
    if s == [] then
      ""
    else if IsWhitespace(s[0]) then
      "_" + CollapseWhitespace(TrimStart(s))
    else
      [s[0]] + CollapseWhitespace(s[1..])
  }

  /** A string without whitespace is not changed by the replacement. */
  lemma {:induction false} CollapseWithoutWhitespace(s: string)
    requires NoWhitespace(s)
    ensures CollapseWhitespace(s) == s
    decreases |s|
  {
    if s != [] {
      CollapseWithoutWhitespace(s[1..]);
    }
  }

  /** A word, then a run of whitespace, then the rest: the word is kept, the whole run
      becomes a single `_`, and the rest is handled the same way. */
  lemma {:induction false} CollapseRun(w: string, gap: string, t: string)
    requires NoWhitespace(w)
    requires gap != [] && AllWhitespace(gap)
    requires t == [] || !IsWhitespace(t[0])
    ensures CollapseWhitespace(w + gap + t) == w + "_" + CollapseWhitespace(t)
    decreases |w|
  {
    if w == [] {
      assert w + gap + t == gap + t;
      TrimStartAfterGap(gap, t);
    } else {
      assert (w + gap + t)[1..] == w[1..] + gap + t;
      CollapseRun(w[1..], gap, t);
    }
  }

  lemma {:induction false} TrimStartAfterGap(gap: string, t: string)
    requires AllWhitespace(gap)
    requires t == [] || !IsWhitespace(t[0])
    ensures TrimStart(gap + t) == t
    decreases |gap|
  {
    if gap != [] {
      assert (gap + t)[1..] == gap[1..] + t;
      TrimStartAfterGap(gap[1..], t);
    } else {
      assert gap + t == t;
    }
  }

  /** `xs.join(sep)`. */
  function Join(sep: string, xs: seq<string>): string
    decreases |xs|
  {
    if |xs| == 0 then ""
    else if |xs| == 1 then xs[0]
    else xs[0] + sep + Join(sep, xs[1..])
  }

  /** Appending one more element appends the separator and that element. */
  lemma {:induction false} JoinSnoc(sep: string, xs: seq<string>, x: string)
    requires |xs| >= 1
    ensures Join(sep, xs + [x]) == Join(sep, xs) + sep + x
    decreases |xs|
  {
    if |xs| > 1 {
      assert (xs + [x])[1..] == xs[1..] + [x];
      JoinSnoc(sep, xs[1..], x);
    } else {
      assert (xs + [x])[1..] == [x];
    }
  }

  /** `s.split(d)` for a single-character separator `d`: never empty; `"".split(d)`
      is `[""]`. */
  function Split(s: string, d: char): (parts: seq<string>)
    ensures |parts| >= 1
  {
    if s == [] then [""]
    else
      var rest := Split(s[1..], d);
      if s[0] == d then [""] + rest else [[s[0]] + rest[0]] + rest[1..]
  }

  lemma {:induction false} SplitWithoutSeparator(s: string, d: char)
    requires d !in s
    ensures Split(s, d) == [s]
    decreases |s|
  {
    if s != [] {
      assert s[0] != d && d !in s[1..];
      SplitWithoutSeparator(s[1..], d);
      assert [s[0]] + s[1..] == s;
    }
  }

  lemma {:induction false} SplitAtFirstSeparator(x: string, d: char, y: string)
    requires d !in x
    ensures Split(x + [d] + y, d) == [x] + Split(y, d)
    decreases |x|
  {
    if x == [] {
      assert (x + [d] + y)[1..] == y;
    } else {
      assert (x + [d] + y)[0] == x[0] != d;
      assert (x + [d] + y)[1..] == x[1..] + [d] + y;
      SplitAtFirstSeparator(x[1..], d, y);
      assert [x[0]] + x[1..] == x;
    }
  }

  /** Splitting on the separator undoes joining with it, as long as no element
      contains the separator and there is at least one element. */
  lemma {:induction false} SplitJoin(xs: seq<string>, d: char)
    requires |xs| >= 1
    requires forall i :: 0 <= i < |xs| ==> d !in xs[i]
    ensures Split(Join([d], xs), d) == xs
    decreases |xs|
  {
    if |xs| == 1 {
      SplitWithoutSeparator(xs[0], d);
    } else {
      SplitAtFirstSeparator(xs[0], d, Join([d], xs[1..]));
      SplitJoin(xs[1..], d);
    }
  }
}
