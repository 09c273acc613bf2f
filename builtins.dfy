/** The few JavaScript built-ins the dashboard's logic leans on: optional
    values, settled promises, ASCII case mapping, `String.prototype.includes`,
    `Array.prototype.slice` with negative indices, and `Array.prototype.reverse`. */
module Builtins {

  /** A value that may be `null`/`undefined`. */
  datatype Option<+T> = None | Some(value: T)

  /** A settled promise: the value an `await` yields, or the rejection a `catch` receives. */
  datatype Result<+T> = Ok(value: T) | Err(reason: string)

  // ---------------------------------------------------------------------------
  // Case mapping (ASCII letters only)
  // ---------------------------------------------------------------------------

  predicate IsLowerAscii(c: char) { 'a' <= c <= 'z' }

  predicate IsUpperAscii(c: char) { 'A' <= c <= 'Z' }

  function UpperChar(c: char): (u: char)
    ensures !IsLowerAscii(u)
    ensures IsLowerAscii(c) ==> IsUpperAscii(u) && u as int == c as int - 32
    ensures !IsLowerAscii(c) ==> u == c
  {
    if IsLowerAscii(c) then (c as int - 32) as char else c
  }

  function LowerChar(c: char): (l: char)
    ensures !IsUpperAscii(l)
    ensures IsUpperAscii(c) ==> IsLowerAscii(l) && l as int == c as int + 32
    ensures !IsUpperAscii(c) ==> l == c
  {
    if IsUpperAscii(c) then (c as int + 32) as char else c
  }

  /** `toUpperCase`: no lower-case letter survives, and the string still reads
      the same when case is ignored. These two facts determine the result. */
  function ToUpper(s: string): (r: string)
    ensures |r| == |s|
    ensures forall i :: 0 <= i < |r| ==> !IsLowerAscii(r[i])
    ensures forall i :: 0 <= i < |r| ==> LowerChar(r[i]) == LowerChar(s[i])
  {
    seq(|s|, i requires 0 <= i < |s| => UpperChar(s[i]))
  }

  /** `toLowerCase`, the mirror image of `ToUpper`. */
  function ToLower(s: string): (r: string)
    ensures |r| == |s|
    ensures forall i :: 0 <= i < |r| ==> !IsUpperAscii(r[i])
    ensures forall i :: 0 <= i < |r| ==> UpperChar(r[i]) == UpperChar(s[i])
  {
    seq(|s|, i requires 0 <= i < |s| => LowerChar(s[i]))
  }

  /** Lower-casing forgets an earlier upper-casing. */
  lemma LowerOfUpper(s: string)
    ensures ToLower(ToUpper(s)) == ToLower(s)
  {
    var a, b := ToLower(ToUpper(s)), ToLower(s);
    assert |a| == |b|;
    forall i | 0 <= i < |a| ensures a[i] == b[i] {
      assert a[i] == LowerChar(ToUpper(s)[i]);
    }
  }

  // ---------------------------------------------------------------------------
  // Substring search
  // ---------------------------------------------------------------------------

  /** `needle` occurs in `hay` starting at index `i`. */
  predicate OccursAt(hay: string, needle: string, i: int)
  {
    0 <= i && i + |needle| <= |hay| && hay[i..i + |needle|] == needle
  }

  /** `hay.includes(needle)`: a left-to-right scan for an occurrence. The empty
      needle occurs everywhere. */
  function Includes(hay: string, needle: string): (found: bool)
    ensures found <==> exists i :: OccursAt(hay, needle, i)
    decreases |hay|
  {
    if |needle| > |hay| then false
    else if hay[..|needle|] == needle then (assert OccursAt(hay, needle, 0); true)
    else
      var rest := Includes(hay[1..], needle);
      ShiftOccurrence(hay, needle);
      rest
  }

  /** Occurrences in `hay[1..]` are the occurrences in `hay` past index 0. */
  lemma ShiftOccurrence(hay: string, needle: string)
    requires |hay| > 0
    requires !OccursAt(hay, needle, 0)
    ensures (exists i :: OccursAt(hay, needle, i)) <==> (exists j :: OccursAt(hay[1..], needle, j))
  {
    forall i | OccursAt(hay, needle, i) ensures OccursAt(hay[1..], needle, i - 1) {
      assert hay[1..][i - 1..i - 1 + |needle|] == hay[i..i + |needle|];
    }
    forall j | OccursAt(hay[1..], needle, j) ensures OccursAt(hay, needle, j + 1) {
      assert hay[1..][j..j + |needle|] == hay[j + 1..j + 1 + |needle|];
    }
  }

  // ---------------------------------------------------------------------------
  // Array.prototype.filter
  // ---------------------------------------------------------------------------

  /** `sub` is `s` with some elements dropped and the rest in their order. */
  ghost predicate IsSubsequence<T>(sub: seq<T>, s: seq<T>)
    decreases |s|
  {
    if sub == [] then true
    else if s == [] then false
    else if sub[0] == s[0] then IsSubsequence(sub[1..], s[1..])
    else IsSubsequence(sub, s[1..])
  }

  /** `s.filter(keep)`: the elements `keep` accepts, in order, each as often as
      it occurs in `s`. The three facts together determine the result. */
  function Filter<T(!new)>(s: seq<T>, keep: T -> bool): (kept: seq<T>)
    ensures IsSubsequence(kept, s)
    ensures |kept| <= |s|
    ensures forall x :: x in kept ==> keep(x)
    ensures forall x :: keep(x) ==> multiset(kept)[x] == multiset(s)[x]
  {
    if s == [] then []
    else
      var rest := Filter(s[1..], keep);
      assert s == [s[0]] + s[1..];
      if keep(s[0]) then [s[0]] + rest
      else
        assert rest == [] || rest[0] != s[0];
        rest
  }

  // ---------------------------------------------------------------------------
  // Array.prototype.slice and Array.prototype.reverse
  // ---------------------------------------------------------------------------

  /** How `slice` turns an argument into an index of an array of length `n`:
      a non-negative argument is capped at `n`, and a negative one counts back
      from the end, stopping at 0. */
  function RelativeIndex(n: nat, x: int): (k: nat)
    ensures k <= n
    ensures x >= 0 ==> k == Min(x, n)
    ensures x < 0 ==> k == n - Min(-x, n)
  {
    if x < 0 then (if n + x < 0 then 0 else n + x)
    else if x < n then x else n
  }

  /** `s.slice(start, end)`: as many elements as the normalised end lies past
      the normalised start, and they are the run that sits between what comes
      before the start and what comes from the end on. */
  function Slice<T>(s: seq<T>, start: int, end: int): (r: seq<T>)
    ensures var from, to := RelativeIndex(|s|, start), RelativeIndex(|s|, end);
      |r| == if from < to then to - from else 0
    ensures var from, to := RelativeIndex(|s|, start), RelativeIndex(|s|, end);
      from < to ==> s == s[..from] + r + s[to..]
  {
    var from, to := RelativeIndex(|s|, start), RelativeIndex(|s|, end);
    if from < to then
      assert s == s[..from] + s[from..to] + s[to..];
      s[from..to]
    else []
  }

  /** `s.slice(start)`: the end defaults to the length, so the result is the
      suffix from the normalised start. */
  function SliceFrom<T>(s: seq<T>, start: int): (r: seq<T>)
    ensures r == s[RelativeIndex(|s|, start)..]
  {
    var from := RelativeIndex(|s|, start);
    var r := Slice(s, start, |s|);
    if from < |s| then
      assert s[..from] + r == s[..from] + r + s[|s|..];
      assert r == (s[..from] + r)[from..];
      r
    else r
  }

  function Min(a: int, b: int): int { if a < b then a else b }

  /** `s.slice(-k)` is the last min(k, |s|) elements of `s`. */
  lemma SliceLast<T>(s: seq<T>, k: nat)
    requires k > 0
    ensures |SliceFrom(s, -(k as int))| == Min(k, |s|)
    ensures s == s[..|s| - Min(k, |s|)] + SliceFrom(s, -(k as int))
  {
    assert s == s[..|s| - Min(k, |s|)] + s[|s| - Min(k, |s|)..];
  }

  /** `s.slice(0, k)` is the first min(k, |s|) elements of `s`. */
  lemma SliceFirst<T>(s: seq<T>, k: nat)
    ensures |Slice(s, 0, k)| == Min(k, |s|)
    ensures s == Slice(s, 0, k) + s[Min(k, |s|)..]
  {
    if 0 < Min(k, |s|) {
      assert s[..0] + Slice(s, 0, k) == Slice(s, 0, k);
    }
  }

  /** `[...s].reverse()`: element `i` of the result is element `|s| - 1 - i` of `s`. */
  function Reverse<T>(s: seq<T>): (r: seq<T>)
    ensures |r| == |s|
    ensures forall i :: 0 <= i < |s| ==> r[i] == s[|s| - 1 - i]
  {
    if s == [] then [] else Reverse(s[1..]) + [s[0]]
  }
}
