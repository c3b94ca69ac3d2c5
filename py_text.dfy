/**
 * The few Python `str` operations the prompt adapters and the classifier
 * trainer rely on: substring search (`in`, `index`), deleting every
 * occurrence of a marker (`replace(marker, "")`) and `strip()`.
 */
module PyText {
  import opened Outcomes

  /** Python's `str.isspace` for a single character. */
  predicate IsSpace(c: char) {
    || c == ' '
    || ('\t' <= c <= '\r')
    || ('\U{1C}' <= c <= '\U{1F}')
    || c == '\U{85}' || c == '\U{A0}' || c == '\U{1680}'
    || ('\U{2000}' <= c <= '\U{200A}')
    || c == '\U{2028}' || c == '\U{2029}' || c == '\U{202F}'
    || c == '\U{205F}' || c == '\U{3000}'
  }

  predicate AllSpace(s: string) {
    forall i :: 0 <= i < |s| ==> IsSpace(s[i])
  }

  /** No whitespace at either end: what `strip()` leaves. */
  predicate Trimmed(s: string) {
    s == [] || (!IsSpace(s[0]) && !IsSpace(s[|s| - 1]))
  }

  /** `m` occurs in `s` starting at position `i`. */
  predicate IsAt(s: string, m: string, i: nat) {
    i + |m| <= |s| && s[i..i + |m|] == m
  }

  /** Python's `m in s`. */
  predicate Contains(s: string, m: string) {
    exists i: nat :: i <= |s| && IsAt(s, m, i)
  }

  /** The first occurrence of `m` in `s` at or after `from`. */
  function FindFrom(s: string, m: string, from: nat): (r: Option<nat>)
    requires from <= |s|
    ensures r.Some? ==> from <= r.value && IsAt(s, m, r.value)
    ensures r.Some? ==> forall k: nat :: from <= k < r.value ==> !IsAt(s, m, k)
    ensures r.None? ==> forall k: nat :: from <= k ==> !IsAt(s, m, k)
    decreases |s| - from
  {
    if IsAt(s, m, from) then Some(from)
    else if from == |s| then None
    else FindFrom(s, m, from + 1)
  }

  /** Python's `s.index(m)`: the first position of `m`, or None where `index` raises. */
  function Find(s: string, m: string): (r: Option<nat>)
    ensures r.Some? <==> Contains(s, m)
    ensures r.Some? ==> IsAt(s, m, r.value) && forall k: nat :: k < r.value ==> !IsAt(s, m, k)
  {
    FindFrom(s, m, 0)
  }

  /**
   * Python's `s.replace(m, "")`: scanning left to right, every occurrence of
   * `m` that does not overlap an earlier deleted one is deleted.
   */
  function RemoveAll(s: string, m: string): (r: string)
    requires |m| > 0
    ensures |r| <= |s|
    decreases |s|
  {
    if |s| < |m| then s
    else if s[..|m|] == m then RemoveAll(s[|m|..], m)
    else [s[0]] + RemoveAll(s[1..], m)
  }

  /** Drops the leading whitespace. */
  function LStrip(s: string): (r: string)
    ensures |r| <= |s| && r == s[|s| - |r|..]
    ensures AllSpace(s[..|s| - |r|])
    ensures r == [] || !IsSpace(r[0])
  {
    if |s| > 0 && IsSpace(s[0]) then
      var r := LStrip(s[1..]);
      var n := |s| - |r|;
      assert s[1..][n - 1..] == s[n..];
      assert forall i :: 0 < i < n ==> s[i] == s[1..][..n - 1][i - 1];
      r
    else s
  }

  /** Drops the trailing whitespace. */
  function RStrip(s: string): (r: string)
    ensures |r| <= |s| && r == s[..|r|]
    ensures AllSpace(s[|r|..])
    ensures r == [] || !IsSpace(r[|r| - 1])
  {
    if |s| > 0 && IsSpace(s[|s| - 1]) then
      var r := RStrip(s[..|s| - 1]);
      assert s[..|s| - 1][..|r|] == s[..|r|];
      assert forall i :: |r| <= i < |s| - 1 ==> s[i] == s[..|s| - 1][|r|..][i - |r|];
      r
    else s
  }

  /** `r` sits at `i` in `s` with only whitespace before and after it. */
  predicate Window(s: string, r: string, i: nat) {
    IsAt(s, r, i) && AllSpace(s[..i]) && AllSpace(s[i + |r|..])
  }

  /**
   * Python's `s.strip()`: the window of `s` left once the whitespace on both
   * sides is removed.
   */
  function Strip(s: string): (r: string)
    ensures Trimmed(r)
    ensures exists i: nat :: Window(s, r, i)
  {
    StripWindow(s, LStrip(s));
    StripEnds(LStrip(s));
    RStrip(LStrip(s))
  }

  /** The right-stripped remainder of `l`, a suffix of `s`, is a window of `s`. */
  lemma StripWindow(s: string, l: string)
    requires |l| <= |s| && l == s[|s| - |l|..] && AllSpace(s[..|s| - |l|])
    ensures Window(s, RStrip(l), |s| - |l|)
  {
    var r, i := RStrip(l), |s| - |l|;
    SuffixSlice(s, l, i, 0, |r|);
    TailSpace(s, l, i, |r|);
  }

  /** Whitespace closing the suffix `l == s[d..]` closes `s` too. */
  lemma TailSpace(s: string, l: string, d: nat, n: nat)
    requires d + |l| == |s| && l == s[d..] && n <= |l| && AllSpace(l[n..])
    ensures AllSpace(s[d + n..])
  {
    SuffixSlice(s, l, d, n, |l|);
    assert s[d + n..] == s[d + n..d + |l|];
  }

  /** A slice of the suffix `l == s[d..]` is the same slice of `s`, shifted by `d`. */
  lemma SuffixSlice(s: string, l: string, d: nat, a: nat, b: nat)
    requires d + |l| == |s| && l == s[d..] && a <= b <= |l|
    ensures s[d + a..d + b] == l[a..b]
  {
    forall k | 0 <= k < b - a ensures s[d + a..d + b][k] == l[a..b][k] {
      assert l[a + k] == s[d + a + k];
    }
  }

  /** Right-stripping a string with no leading whitespace leaves it trimmed. */
  lemma StripEnds(l: string)
    requires l == [] || !IsSpace(l[0])
    ensures Trimmed(RStrip(l))
  {
    var r := RStrip(l);
    assert r != [] ==> r[0] == l[0];
  }

  /** A string already without outer whitespace is left alone by `strip()`. */
  lemma {:induction false} StripTrimmed(s: string)
    requires Trimmed(s)
    ensures Strip(s) == s
  {
    assert LStrip(s) == s;
    assert RStrip(s) == s;
  }

  /** `strip()` is idempotent. */
  lemma StripIdempotent(s: string)
    ensures Strip(Strip(s)) == Strip(s)
  {
    StripTrimmed(Strip(s));
  }

  /** An occurrence in a suffix of `s` is an occurrence in `s`, shifted. */
  lemma IsAtShift(s: string, m: string, d: nat, i: nat)
    requires d <= |s|
    ensures IsAt(s[d..], m, i) ==> IsAt(s, m, d + i)
  {
    if IsAt(s[d..], m, i) {
      assert s[d..][i..i + |m|] == s[d + i..d + i + |m|];
    }
  }

  /** A suffix of a string without `m` has no `m` either. */
  lemma AbsentFromSuffix(s: string, m: string, d: nat)
    requires d <= |s| && !Contains(s, m)
    ensures !Contains(s[d..], m)
  {
    forall i: nat ensures IsAt(s[d..], m, i) ==> IsAt(s, m, d + i) {
      IsAtShift(s, m, d, i);
    }
  }

  /** Deleting a marker that does not occur changes nothing. */
  lemma {:induction false} RemoveAllAbsent(s: string, m: string)
    requires |m| > 0 && !Contains(s, m)
    ensures RemoveAll(s, m) == s
    decreases |s|
  {
    if |s| >= |m| {
      assert s[0..0 + |m|] == s[..|m|];
      assert !IsAt(s, m, 0);
      AbsentFromSuffix(s, m, 1);
      RemoveAllAbsent(s[1..], m);
      assert s == [s[0]] + s[1..];
    }
  }

  /** A leading occurrence is deleted and the scan resumes right after it. */
  lemma RemoveAllLeading(m: string, t: string)
    requires |m| > 0
    ensures RemoveAll(m + t, m) == RemoveAll(t, m)
  {
    assert (m + t)[..|m|] == m;
    assert (m + t)[|m|..] == t;
  }

  /** An occurrence of `m` at `k` puts `m[t]` at `k + t`. */
  lemma IsAtChar(s: string, m: string, k: nat, t: nat)
    ensures IsAt(s, m, k) && t < |m| ==> s[k + t] == m[t]
  {
    if IsAt(s, m, k) && t < |m| {
      assert s[k..k + |m|][t] == s[k + t];
    }
  }

  /** The last character of `m` occurs nowhere else in `m`. */
  predicate LastCharUnique(m: string) {
    |m| > 0 && forall i :: 0 <= i < |m| - 1 ==> m[i] != m[|m| - 1]
  }

  /**
   * When `a` holds no `m` and `m`'s last character is unique in it, the first
   * `m` of `a + m + b` is the one right after `a`.
   */
  lemma FindAfter(a: string, m: string, b: string)
    requires LastCharUnique(m) && !Contains(a, m)
    ensures Find(a + m + b, m) == Some(|a|)
  {
    var s := a + m + b;
    assert s[|a|..|a| + |m|] == m;
    assert IsAt(s, m, |a|);
    forall k: nat | k < |a| ensures !IsAt(s, m, k) {
      NoEarlyOccurrence(a, m, b, k);
    }
  }

  /**
   * When `a` holds no `m` and `m`'s last character is unique in it, no `m`
   * of `a + m + b` starts inside `a`: it would end inside the `m` after `a`.
   */
  lemma NoEarlyOccurrence(a: string, m: string, b: string, k: nat)
    requires LastCharUnique(m) && !Contains(a, m) && k < |a|
    ensures !IsAt(a + m + b, m, k)
  {
    var s := a + m + b;
    if k + |m| <= |a| {
      assert s[k..k + |m|] == a[k..k + |m|];
      assert !IsAt(a, m, k);
    } else {
      var p := k + |m| - 1;
      assert |a| <= p < |a| + |m| - 1;
      assert s[p] == m[p - |a|];
      IsAtChar(s, m, k, |m| - 1);
    }
  }

  /**
   * `replace(m, "")` over a join: text before the first `m` is kept, that `m`
   * is deleted and the scan goes on after it.
   */
  lemma {:induction false} RemoveAllJoin(a: string, m: string, b: string)
    requires LastCharUnique(m) && !Contains(a, m)
    ensures RemoveAll(a + m + b, m) == a + RemoveAll(b, m)
    decreases |a|
  {
    if a == [] {
      assert a + m + b == m + b;
      RemoveAllLeading(m, b);
    } else {
      var s := a + m + b;
      NoEarlyOccurrence(a, m, b, 0);
      RemoveAllKeep(s, m);
      DropFirst(a, m + b);
      assert s[1..] == a[1..] + m + b;
      AbsentFromSuffix(a, m, 1);
      RemoveAllJoin(a[1..], m, b);
      DropFirst(a, RemoveAll(b, m));
    }
  }

  /** Without an `m` at the front, `replace` keeps the first character. */
  lemma RemoveAllKeep(s: string, m: string)
    requires |m| > 0 && |s| >= |m| && !IsAt(s, m, 0)
    ensures RemoveAll(s, m) == [s[0]] + RemoveAll(s[1..], m)
  {
    assert s[0..0 + |m|] == s[..|m|];
  }

  lemma DropFirst(a: string, t: string)
    requires a != []
    ensures (a + t)[0] == a[0] && (a + t)[1..] == a[1..] + t && [a[0]] + (a[1..] + t) == a + t
  {
  }

  /** Python's `m.join(pieces)`. */
  function Joined(pieces: seq<string>, m: string): string {
    if |pieces| == 0 then []
    else if |pieces| == 1 then pieces[0]
    else pieces[0] + m + Joined(pieces[1..], m)
  }

  /** Python's `"".join(pieces)`. */
  function Concatenated(pieces: seq<string>): string {
    if pieces == [] then [] else pieces[0] + Concatenated(pieces[1..])
  }

  /**
   * `m.join(pieces).replace(m, "") == "".join(pieces)` when no piece holds
   * `m` and `m`'s last character is unique in it: every joining `m` is
   * deleted and nothing else.
   */
  lemma {:induction false} RemoveAllJoined(pieces: seq<string>, m: string)
    requires LastCharUnique(m)
    requires forall i :: 0 <= i < |pieces| ==> !Contains(pieces[i], m)
    ensures RemoveAll(Joined(pieces, m), m) == Concatenated(pieces)
    decreases |pieces|
  {
    if |pieces| == 1 {
      RemoveAllAbsent(pieces[0], m);
      assert Concatenated(pieces) == pieces[0] + Concatenated([]);
    } else if |pieces| > 1 {
      var rest := pieces[1..];
      assert forall i :: 0 <= i < |rest| ==> rest[i] == pieces[i + 1];
      RemoveAllJoin(pieces[0], m, Joined(rest, m));
      RemoveAllJoined(rest, m);
    }
  }
}
