/**
 * The JavaScript string built-ins the bot relies on, as functions over `string`:
 * `trim`, `split` with a non-empty string separator, `replace` of the first
 * occurrence of a one-character pattern, and the global replacement of one
 * character by a string (`replace(/c/g, rep)`).
 */
module Text {

  // ---------------------------------------------------------------------------
  // Whitespace, as String.prototype.trim sees it
  // ---------------------------------------------------------------------------

  /** ECMAScript WhiteSpace and LineTerminator code points (the set `trim` strips). */
  predicate IsWhitespace(c: char) {
    || c == '\t' || c == '\n' || c == '\U{000B}' || c == '\U{000C}' || c == '\r'
    || c == ' ' || c == '\U{00A0}' || c == '\U{1680}'
    || ('\U{2000}' <= c <= '\U{200A}')
    || c == '\U{2028}' || c == '\U{2029}' || c == '\U{202F}' || c == '\U{205F}'
    || c == '\U{3000}' || c == '\U{FEFF}'
  }

  predicate AllWhitespace(s: string) {
    forall k :: 0 <= k < |s| ==> IsWhitespace(s[k])
  }

  /** Every character of `s` at a position in `[i, j)` is whitespace. */
  predicate WhitespaceBetween(s: string, i: nat, j: nat)
    requires j <= |s|
  {
    forall k :: i <= k < j ==> IsWhitespace(s[k])
  }

  /** Neither end of `s` is whitespace. */
  predicate Trimmed(s: string) {
    s == [] || (!IsWhitespace(s[0]) && !IsWhitespace(s[|s| - 1]))
  }

  /** The index of the first character at or after `k` that is not whitespace (or `|s|`). */
  function LeadingEnd(s: string, k: nat): (i: nat)
    requires k <= |s| && WhitespaceBetween(s, 0, k)
    ensures k <= i <= |s| && WhitespaceBetween(s, 0, i)
    ensures i < |s| ==> !IsWhitespace(s[i])
    decreases |s| - k
  {
    if k < |s| && IsWhitespace(s[k]) then LeadingEnd(s, k + 1) else k
  }

  /** The index just past the last character in `[i, k)` that is not whitespace (or `i`). */
  function TrailingStart(s: string, i: nat, k: nat): (j: nat)
    requires i <= k <= |s| && WhitespaceBetween(s, k, |s|)
    ensures i <= j <= k && WhitespaceBetween(s, j, |s|)
    ensures i < j ==> !IsWhitespace(s[j - 1])
    decreases k
  {
    if i < k && IsWhitespace(s[k - 1]) then TrailingStart(s, i, k - 1) else k
  }

  /** String.prototype.trim: the slice of `s` between its leading and its trailing whitespace. */
  function Trim(s: string): (r: string)
    ensures |r| <= |s|
    ensures Trimmed(r)
  {
    var i := LeadingEnd(s, 0);
    var j := TrailingStart(s, i, |s|);
    s[i..j]
  }

  /** Any slice with only whitespace around it and none at its ends is what `Trim` returns. */
  lemma TrimUnique(s: string, i: nat, j: nat)
    requires i <= j <= |s|
    requires WhitespaceBetween(s, 0, i) && WhitespaceBetween(s, j, |s|)
    requires i == j || (!IsWhitespace(s[i]) && !IsWhitespace(s[j - 1]))
    ensures Trim(s) == s[i..j]
  {
    var a := LeadingEnd(s, 0);
    var b := TrailingStart(s, a, |s|);
    if i == j {
      assert WhitespaceBetween(s, 0, |s|);
      assert a == |s|;
    } else {
      assert a == i;
      assert b == j;
    }
  }

  /** Whitespace added around a string does not change what `Trim` returns. */
  lemma TrimPadded(l: string, d: string, r: string)
    requires AllWhitespace(l) && AllWhitespace(r)
    ensures Trim(l + d + r) == Trim(d)
  {
    var s := l + d + r;
    var i := LeadingEnd(d, 0);
    var j := TrailingStart(d, i, |d|);
    assert Trim(d) == d[i..j];
    PaddedSlice(l, d, r, i, j);
    var i', j' := |l| + i, |l| + j;
    assert s[i'..j'] == d[i..j];
    if i < j {
      assert !IsWhitespace(d[i]) && !IsWhitespace(d[j - 1]);
      assert s[i'] == d[i] && s[j' - 1] == d[j - 1];
    }
    TrimUnique(s, i', j');
  }

  /** A slice of `d` with whitespace around it keeps that property once `d` is padded with whitespace. */
  lemma PaddedSlice(l: string, d: string, r: string, i: nat, j: nat)
    requires AllWhitespace(l) && AllWhitespace(r)
    requires i <= j <= |d| && WhitespaceBetween(d, 0, i) && WhitespaceBetween(d, j, |d|)
    ensures var s := l + d + r;
      && (l + d + r)[|l| + i..|l| + j] == d[i..j]
      && WhitespaceBetween(s, 0, |l| + i) && WhitespaceBetween(s, |l| + j, |s|)
  {
    var s := l + d + r;
    assert s[|l|..|l| + |d|] == d;
    assert s[|l| + i..|l| + j] == s[|l|..|l| + |d|][i..j];
    forall k | 0 <= k < |l| + i ensures IsWhitespace(s[k]) {
      if k < |l| { assert s[k] == l[k]; } else { assert s[k] == d[k - |l|]; }
    }
    forall k | |l| + j <= k < |s| ensures IsWhitespace(s[k]) {
      if k < |l| + |d| { assert s[k] == d[k - |l|]; } else { assert s[k] == r[k - |l| - |d|]; }
    }
  }

  // ---------------------------------------------------------------------------
  // String.prototype.split with a non-empty string separator
  // ---------------------------------------------------------------------------

  predicate StartsWith(s: string, p: string) {
    |p| <= |s| && s[..|p|] == p
  }

  /** `p` occurs somewhere in `s`. */
  predicate Occurs(s: string, p: string) {
    exists i :: 0 <= i < |s| && StartsWith(s[i..], p)
  }

  /** No occurrence of `sep` starts in the first `n` positions of `s`. */
  predicate NoMatchBefore(s: string, sep: string, n: nat)
    requires n <= |s|
  {
    forall i :: 0 <= i < n ==> !StartsWith(s[i..], sep)
  }

  /**
   * `s.split(sep)`: the pieces between the leftmost non-overlapping occurrences
   * of `sep`, scanning from the left; a string without `sep` is one piece.
   */
  function Split(s: string, sep: string): (r: seq<string>)
    requires |sep| > 0
    ensures |r| >= 1
    decreases |s|
  {
    if |s| < |sep| then [s]
    else if s[..|sep|] == sep then [[]] + Split(s[|sep|..], sep)
    else
      var rest := Split(s[1..], sep);
      [[s[0]] + rest[0]] + rest[1..]
  }

  /** `parts.join(sep)`. */
  function Join(parts: seq<string>, sep: string): string
    requires |parts| >= 1
    decreases |parts|
  {
    if |parts| == 1 then parts[0] else parts[0] + sep + Join(parts[1..], sep)
  }

  /** Joining the pieces with the separator gives back the string that was split. */
  lemma {:induction false} JoinSplit(s: string, sep: string)
    requires |sep| > 0
    ensures Join(Split(s, sep), sep) == s
    decreases |s|
  {
    if |s| < |sep| {
    } else if s[..|sep|] == sep {
      var rest := Split(s[|sep|..], sep);
      JoinSplit(s[|sep|..], sep);
      calc {
        Join(Split(s, sep), sep);
        Join([[]] + rest, sep);
        { assert ([[]] + rest)[1..] == rest; }
        [] + sep + Join(rest, sep);
        s[..|sep|] + s[|sep|..];
        { assert s == s[..|sep|] + s[|sep|..]; }
        s;
      }
    } else {
      var rest := Split(s[1..], sep);
      JoinSplit(s[1..], sep);
      var r := [[s[0]] + rest[0]] + rest[1..];
      assert Split(s, sep) == r;
      JoinCons(s[0], rest, sep);
      assert s == [s[0]] + s[1..];
    }
  }

  /** Prepending a character to the first piece prepends it to the joined string. */
  lemma JoinCons(c: char, parts: seq<string>, sep: string)
    requires |parts| >= 1
    ensures Join([[c] + parts[0]] + parts[1..], sep) == [c] + Join(parts, sep)
  {
    var r := [[c] + parts[0]] + parts[1..];
    assert r[1..] == parts[1..];
  }

  /** While no separator starts inside `a`, `a` is glued onto the first piece of `b`. */
  lemma {:induction false} SplitSkip(a: string, b: string, sep: string)
    requires |sep| > 0
    requires NoMatchBefore(a + b, sep, |a|)
    ensures Split(a + b, sep)[0] == a + Split(b, sep)[0]
    ensures Split(a + b, sep)[1..] == Split(b, sep)[1..]
    decreases |a|
  {
    var s := a + b;
    if a == [] {
      assert s == b;
    } else {
      assert !StartsWith(s[0..], sep);
      assert s[0..] == s;
      if |s| < |sep| {
        assert Split(b, sep) == [b];
      } else {
        var a', s' := a[1..], s[1..];
        assert s' == a' + b;
        forall i | 0 <= i < |a'| ensures !StartsWith(s'[i..], sep) {
          assert s'[i..] == s[i + 1..];
        }
        SplitSkip(a', b, sep);
        assert a == [a[0]] + a';
      }
    }
  }

  /** A separator at the very start yields an empty first piece. */
  lemma SplitAtSeparator(sep: string, b: string)
    requires |sep| > 0
    ensures Split(sep + b, sep) == [[]] + Split(b, sep)
  {
    var s := sep + b;
    assert s[..|sep|] == sep;
    assert s[|sep|..] == b;
  }

  /** A piece free of the separator's first character, then the separator: the piece comes off first. */
  lemma SplitLeadPiece(p: string, sep: string, x: string)
    requires |sep| > 0 && sep[0] !in p
    ensures Split(p + sep + x, sep) == [p] + Split(x, sep)
  {
    var s := p + (sep + x);
    assert p + sep + x == s;
    assert forall i :: 0 <= i < |p| ==> s[i] == p[i];
    NoMatchByFirstChar(s, sep, |p|);
    SplitSkip(p, sep + x, sep);
    SplitAtSeparator(sep, x);
    var r := Split(s, sep);
    assert r[0] == p + [] == p;
    assert r == [r[0]] + r[1..];
  }

  /** Joins the last piece of `xs` to the first piece of `ys`. */
  function Glue(xs: seq<string>, ys: seq<string>): (r: seq<string>)
    requires |xs| >= 1 && |ys| >= 1
    ensures |r| == |xs| + |ys| - 1
    ensures forall k :: 0 <= k < |xs| - 1 ==> r[k] == xs[k]
    ensures r[|xs| - 1] == xs[|xs| - 1] + ys[0]
    ensures forall k :: |xs| <= k < |r| ==> r[k] == ys[k - |xs| + 1]
  {
    xs[..|xs| - 1] + [xs[|xs| - 1] + ys[0]] + ys[1..]
  }

  /**
   * For a one-character separator, splitting a concatenation splits each part
   * and joins the piece where they meet.
   */
  lemma {:induction false} SplitConcat(x: string, y: string, sep: string)
    requires |sep| == 1
    ensures Split(x + y, sep) == Glue(Split(x, sep), Split(y, sep))
    decreases |x|
  {
    var b := Split(y, sep);
    if x == [] {
      assert x + y == y;
      assert [] + b[0] == b[0];
      assert b == [b[0]] + b[1..];
    } else {
      var x' := x[1..];
      assert (x + y)[0] == x[0] && (x + y)[1..] == x' + y;
      SplitConcat(x', y, sep);
      var a := Split(x', sep);
      SplitFirstChar(x, sep);
      SplitFirstChar(x + y, sep);
      if x[0] == sep[0] {
        GlueAfterEmpty(a, b);
      } else {
        GlueAfterChar(x[0], a, b);
      }
    }
  }

  /** Splitting on a one-character separator, one character at a time. */
  lemma SplitFirstChar(s: string, sep: string)
    requires |sep| == 1 && s != []
    ensures var rest := Split(s[1..], sep);
      Split(s, sep) == if s[0] == sep[0] then [[]] + rest else [[s[0]] + rest[0]] + rest[1..]
  {
    assert s[..1] == [s[0]] && sep == [sep[0]];
    assert s[..1] == sep <==> s[0] == sep[0];
  }

  lemma GlueAfterEmpty(a: seq<string>, b: seq<string>)
    requires |a| >= 1 && |b| >= 1
    ensures Glue([[]] + a, b) == [[]] + Glue(a, b)
  {
    assert ([[]] + a)[..|a|] == [[]] + a[..|a| - 1];
  }

  lemma GlueAfterChar(x0: char, a: seq<string>, b: seq<string>)
    requires |a| >= 1 && |b| >= 1
    ensures var g := Glue(a, b);
      Glue([[x0] + a[0]] + a[1..], b) == [[x0] + g[0]] + g[1..]
  {
    var g := Glue(a, b);
    var xs := [[x0] + a[0]] + a[1..];
    if |a| == 1 {
      assert xs == [[x0] + a[0]];
      assert g == [a[0] + b[0]] + b[1..];
      assert [x0] + a[0] + b[0] == [x0] + (a[0] + b[0]);
    } else {
      assert g[0] == a[0];
      assert g[1..] == a[1..|a| - 1] + [a[|a| - 1] + b[0]] + b[1..];
      assert xs[..|xs| - 1] == [[x0] + a[0]] + a[1..|a| - 1];
      assert xs[|xs| - 1] == a[|a| - 1];
    }
  }

  /** A separator cannot start where its first character is absent. */
  lemma NoMatchByFirstChar(s: string, sep: string, n: nat)
    requires |sep| > 0 && n <= |s|
    requires forall i :: 0 <= i < n ==> s[i] != sep[0]
    ensures NoMatchBefore(s, sep, n)
  {
    forall i | 0 <= i < n ensures !StartsWith(s[i..], sep) {
      assert s[i..][0] == s[i];
    }
  }

  /** A string without the (one-character) separator is the single piece of its own split. */
  lemma SplitNoChar(s: string, sep: string)
    requires |sep| == 1 && sep[0] !in s
    ensures Split(s, sep) == [s]
  {
    NoMatchByFirstChar(s, sep, |s|);
    SplitWithout(s, sep);
  }

  /** A string in which the separator does not occur is the single piece of its own split. */
  lemma SplitWithout(s: string, sep: string)
    requires |sep| > 0 && !Occurs(s, sep)
    ensures Split(s, sep) == [s]
  {
    assert s + [] == s;
    SplitSkip(s, [], sep);
  }

  // ---------------------------------------------------------------------------
  // String.prototype.replace
  // ---------------------------------------------------------------------------

  /** `s.replace(/c/g, rep)`: every `c` replaced by `rep`. */
  function ReplaceAll(s: string, c: char, rep: string): string {
    if s == [] then []
    else (if s[0] == c then rep else [s[0]]) + ReplaceAll(s[1..], c, rep)
  }

  /**
   * A replacement that does not contain `c` leaves none behind; a string without
   * `c` is unchanged; with a non-empty replacement the first and last characters
   * are the ones the ends of `s` become.
   */
  lemma {:induction false} ReplaceAllProps(s: string, c: char, rep: string)
    ensures var r := ReplaceAll(s, c, rep);
      && (c !in rep ==> c !in r)
      && (c !in s ==> r == s)
      && (|rep| > 0 && s != [] ==>
            && r != []
            && r[0] == (if s[0] == c then rep[0] else s[0])
            && r[|r| - 1] == (if s[|s| - 1] == c then rep[|rep| - 1] else s[|s| - 1]))
    decreases |s|
  {
    if s != [] {
      var head := if s[0] == c then rep else [s[0]];
      var tail := ReplaceAll(s[1..], c, rep);
      ReplaceAllProps(s[1..], c, rep);
      assert ReplaceAll(s, c, rep) == head + tail;
      if c !in s {
        assert c !in s[1..];
        assert head == [s[0]];
      }
      if |s| > 1 {
        assert s[1..][|s[1..]| - 1] == s[|s| - 1];
      }
    }
  }

  /** Global replacement acts on each part of a concatenation separately. */
  lemma {:induction false} ReplaceAllAppend(a: string, b: string, c: char, rep: string)
    ensures ReplaceAll(a + b, c, rep) == ReplaceAll(a, c, rep) + ReplaceAll(b, c, rep)
    decreases |a|
  {
    if a != [] {
      var head := if a[0] == c then rep else [a[0]];
      assert (a + b)[0] == a[0];
      assert (a + b)[1..] == a[1..] + b;
      assert ReplaceAll(a + b, c, rep) == head + ReplaceAll(a[1..] + b, c, rep);
      ReplaceAllAppend(a[1..], b, c, rep);
      assert ReplaceAll(a, c, rep) == head + ReplaceAll(a[1..], c, rep);
    } else {
      assert a + b == b;
    }
  }

  /** `s.replace(c, "")` with a one-character string pattern: only the first `c` is removed. */
  function RemoveFirst(s: string, c: char): string {
    if s == [] then []
    else if s[0] == c then s[1..]
    else [s[0]] + RemoveFirst(s[1..], c)
  }

  /** A string without `c` is unchanged; otherwise exactly one character goes. */
  lemma {:induction false} RemoveFirstLength(s: string, c: char)
    ensures var r := RemoveFirst(s, c);
      && (c !in s ==> r == s)
      && |r| == if c in s then |s| - 1 else |s|
    decreases |s|
  {
    if s != [] && s[0] != c {
      RemoveFirstLength(s[1..], c);
      assert c in s <==> c in s[1..];
      assert s == [s[0]] + s[1..];
    }
  }

  /** What `RemoveFirst` deletes is the first occurrence, and nothing after it. */
  lemma {:induction false} RemoveFirstAt(o: string, c: char, t: string)
    requires c !in o
    ensures RemoveFirst(o + [c] + t, c) == o + t
    decreases |o|
  {
    if o == [] {
      assert o + [c] + t == [c] + t;
      RemoveFirstCons(c, t, c);
    } else {
      var o', rest := o[1..], o[1..] + [c] + t;
      assert o + [c] + t == [o[0]] + rest;
      RemoveFirstCons(o[0], rest, c);
      RemoveFirstAt(o', c, t);
      var r := RemoveFirst(rest, c);
      assert r == o' + t;
      assert o + t == [o[0]] + (o' + t);
    }
  }

  /** One step of `RemoveFirst`. */
  lemma RemoveFirstCons(x: char, s: string, c: char)
    ensures RemoveFirst([x] + s, c) == if x == c then s else [x] + RemoveFirst(s, c)
  {
    assert ([x] + s)[0] == x && ([x] + s)[1..] == s;
  }
}
