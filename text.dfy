/**
 * Strings as the JavaScript code uses them: `String.prototype.replace` with a
 * string pattern (first occurrence only), `replace` with a global regular
 * expression of fixed text (every non-overlapping occurrence, left to right),
 * `includes`, and the "ends with" test that an `/…$/` regular expression of
 * fixed text performs.
 */
module Text {
  import opened Wrappers

  /** `p` occurs in `s` starting at index `i`. */
  predicate OccursAt(s: string, p: string, i: nat) {
    i + |p| <= |s| && s[i..i + |p|] == p
  }

  /** `s.includes(p)`. */
  predicate Contains(s: string, p: string) {
    exists i: nat | i <= |s| :: OccursAt(s, p, i)
  }

  /** `i` is the leftmost occurrence of `p` in `s`. */
  predicate FirstAt(s: string, p: string, i: nat) {
    OccursAt(s, p, i) && forall j: nat :: j < i ==> !OccursAt(s, p, j)
  }

  predicate EndsWith(s: string, suffix: string) {
    |suffix| <= |s| && s[|s| - |suffix|..] == suffix
  }

  /** Removes a suffix the string is known to end with. */
  function DropSuffix(s: string, suffix: string): (r: string)
    requires EndsWith(s, suffix)
    ensures r + suffix == s
  {
    s[..|s| - |suffix|]
  }

  /** Leftmost occurrence of `p` at or after `k`. */
  function IndexFrom(s: string, p: string, k: nat): (r: Option<nat>)
    decreases |s| - k
    ensures r.Some? ==> k <= r.value && OccursAt(s, p, r.value)
    ensures r.Some? ==> forall j: nat :: k <= j < r.value ==> !OccursAt(s, p, j)
    ensures r.None? ==> forall j: nat :: k <= j ==> !OccursAt(s, p, j)
  {
    if k + |p| > |s| then None
    else if s[k..k + |p|] == p then Some(k)
    else IndexFrom(s, p, k + 1)
  }

  /** `s.indexOf(p)`, with `None` for -1. */
  function IndexOf(s: string, p: string): (r: Option<nat>)
    ensures r.Some? <==> Contains(s, p)
    ensures r.Some? ==> FirstAt(s, p, r.value)
  {
    IndexFrom(s, p, 0)
  }

  lemma FirstAtUnique(s: string, p: string, i: nat, j: nat)
    requires FirstAt(s, p, i) && FirstAt(s, p, j)
    ensures i == j
  {
  }

  /** `s.replace(p, r)` with a string pattern, taking `r` literally. */
  function ReplaceFirst(s: string, p: string, r: string): (t: string)
    ensures !Contains(s, p) ==> t == s
    ensures forall i: nat :: FirstAt(s, p, i) ==> t == s[..i] + r + s[i + |p|..]
  {
    match IndexOf(s, p)
    case None => s
    case Some(i) =>
      assert forall j: nat :: FirstAt(s, p, j) ==> j == i by {
        forall j: nat | FirstAt(s, p, j) ensures j == i { FirstAtUnique(s, p, i, j); }
      }
      s[..i] + r + s[i + |p|..]
  }

  /** Replacing the leftmost occurrence in `s == a + p + b` gives `a + r + b`. */
  lemma ReplaceFirstAt(s: string, a: string, p: string, b: string, r: string)
    requires s == a + p + b && FirstAt(s, p, |a|)
    ensures ReplaceFirst(s, p, r) == a + r + b
  {
    assert s[..|a|] == a;
    assert s[|a| + |p|..] == b;
  }

  /** The text before the leftmost occurrence holds no occurrence. */
  lemma PrefixBeforeFirst(s: string, p: string, i: nat)
    requires |p| > 0 && FirstAt(s, p, i)
    ensures !Contains(s[..i], p)
  {
    forall j: nat | OccursAt(s[..i], p, j) ensures false {
      assert s[..i][j..j + |p|] == s[j..j + |p|];
      assert OccursAt(s, p, j);
    }
  }

  /** `parts` glued together with `sep` between neighbours. */
  function Join(parts: seq<string>, sep: string): string
  {
    if |parts| == 0 then ""
    else if |parts| == 1 then parts[0]
    else parts[0] + sep + Join(parts[1..], sep)
  }

  /**
   * The pieces of `s` between the non-overlapping occurrences of `p` found by
   * a left-to-right scan; `s` is exactly those pieces joined with `p`.
   */
  function Split(s: string, p: string): (parts: seq<string>)
    requires |p| > 0
    decreases |s|
    ensures |parts| >= 1
    ensures Join(parts, p) == s
    ensures forall k :: 0 <= k < |parts| ==> !Contains(parts[k], p)
  {
    match IndexOf(s, p)
    case None => [s]
    case Some(i) =>
      var rest := Split(s[i + |p|..], p);
      PrefixBeforeFirst(s, p, i);
      assert ([s[..i]] + rest)[1..] == rest;
      assert s == s[..i] + p + s[i + |p|..];
      [s[..i]] + rest
  }

  /**
   * `s.replace(/p/g, r)` for a pattern of fixed, non-empty text: every
   * occurrence found by the left-to-right scan is replaced.
   */
  function ReplaceAll(s: string, p: string, r: string): (t: string)
    requires |p| > 0
    decreases |s|
    ensures t == Join(Split(s, p), r)
  {
    match IndexOf(s, p)
    case None => s
    case Some(i) =>
      var rest := Split(s[i + |p|..], p);
      assert Split(s, p) == [s[..i]] + rest;
      assert ([s[..i]] + rest)[1..] == rest;
      s[..i] + r + ReplaceAll(s[i + |p|..], p, r)
  }

  /** With no occurrence after the first one, the global and the first-only replacement agree. */
  lemma {:induction false} ReplaceAllSingle(s: string, p: string, r: string, i: nat)
    requires |p| > 0
    requires FirstAt(s, p, i)
    requires !Contains(s[i + |p|..], p)
    ensures ReplaceAll(s, p, r) == ReplaceFirst(s, p, r)
  {
    var rest := s[i + |p|..];
    assert IndexOf(s, p) == Some(i) by { FirstAtUnique(s, p, IndexOf(s, p).value, i); }
    assert IndexOf(rest, p).None?;
    assert ReplaceAll(rest, p, r) == rest;
  }

  /** A pattern that does not occur makes both replacements no-ops. */
  lemma ReplaceAbsent(s: string, p: string, r: string)
    requires |p| > 0 && !Contains(s, p)
    ensures ReplaceAll(s, p, r) == s && ReplaceFirst(s, p, r) == s
  {
  }
  /** `names[k]` is not repeated later in `names`. */
  predicate LastOccurrence<T(==)>(names: seq<T>, k: nat)
    requires k < |names|
  {
    forall j :: k < j < |names| ==> names[j] != names[k]
  }

  /** All pieces glued together, in order. */
  function Concat(parts: seq<string>): string
  {
    if |parts| == 0 then "" else parts[0] + Concat(parts[1..])
  }

  lemma {:induction false} ConcatAppend(parts: seq<string>, x: string)
    ensures Concat(parts + [x]) == Concat(parts) + x
  {
    if |parts| > 0 {
      assert (parts + [x])[1..] == parts[1..] + [x];
      ConcatAppend(parts[1..], x);
    }
  }

  lemma {:induction false} ConcatSplit(parts: seq<string>, k: nat)
    requires k <= |parts|
    ensures Concat(parts) == Concat(parts[..k]) + Concat(parts[k..])
  {
    if k > 0 {
      ConcatSplit(parts[1..], k - 1);
      assert parts[1..][..k - 1] == parts[..k][1..];
      assert parts[1..][k - 1..] == parts[k..];
    }
  }

  /** Every piece occurs in the concatenation, right after the pieces before it. */
  lemma ContainsPiece(parts: seq<string>, k: nat)
    requires k < |parts|
    ensures OccursAt(Concat(parts), parts[k], |Concat(parts[..k])|)
    ensures Contains(Concat(parts), parts[k])
  {
    ConcatSplit(parts, k);
    assert Concat(parts[k..]) == parts[k] + Concat(parts[k + 1..]);
    var a, s := Concat(parts[..k]), Concat(parts);
    assert s[|a|..|a| + |parts[k]|] == parts[k];
    assert |a| <= |s| && OccursAt(s, parts[k], |a|);
  }
}
