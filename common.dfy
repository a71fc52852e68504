/**
 * Definitions shared by the single-select and the multi-select chip controls
 * and by the infinite-scroll directive: an optional value (JavaScript's
 * `undefined` versus a value), `Array.prototype.filter` over a sequence with
 * the facts about it the controls rely on, the visibility glyphs and the
 * debounce threshold rule.
 */
module Common {

  /** A value that may be absent; `None` stands for JavaScript's `undefined`. */
  datatype Option<+T> = None | Some(value: T)

  /** Glyph shown by the options toggle while the suggestion panel is open. */
  const OPEN_GLYPH: string := "&#8911;"
  /** Glyph shown by the options toggle while the suggestion panel is closed. */
  const CLOSED_GLYPH: string := "&#8910;"

  /** The glyph `toggleOptions` stores for a given visibility flag. */
  function Glyph(open: bool): (g: string)
    ensures g == OPEN_GLYPH <==> open
    ensures g == CLOSED_GLYPH <==> !open
  {
    if open then OPEN_GLYPH else CLOSED_GLYPH
  }

  /**
   * JavaScript's `length` of a string: the number of UTF-16 code units, one
   * for a character of the Basic Multilingual Plane and two (a surrogate
   * pair) for a character above it.
   */
  function Utf16Length(s: string): (n: nat)
    ensures |s| <= n <= 2 * |s|
  {
    if s == [] then 0
    else Utf16Length(s[..|s| - 1]) + (if s[|s| - 1] as int >= 0x1_0000 then 2 else 1)
  }

  /** A string of Basic Multilingual Plane characters has one code unit per character. */
  lemma {:induction false} Utf16LengthOfBmp(s: string)
    requires forall i :: 0 <= i < |s| ==> s[i] as int < 0x1_0000
    ensures Utf16Length(s) == |s|
  {
    if s != [] {
      Utf16LengthOfBmp(s[..|s| - 1]);
    }
  }

  /** Two emoji count as four code units, so they are longer than the default threshold of 2. */
  lemma EmojiPairLength()
    ensures Utf16Length("\U{1F600}\U{1F600}") == 4
    ensures QueryEmits("\U{1F600}\U{1F600}", 2)
  {
    assert "\U{1F600}\U{1F600}"[..1] == "\U{1F600}";
  }

  /** The debounced query is emitted only when its `length` is strictly greater than the threshold. */
  predicate QueryEmits(query: string, threshold: int)
  {
    Utf16Length(query) > threshold
  }

  /** Identity serialisation of string items, used by the scenarios of both controls. */
  function StringKey(s: string): string { s }

  /**
   * `Array.prototype.filter`: the elements of `s` that satisfy `p`, in order.
   * Written from the back so that a left-to-right loop extends it by one step.
   */
  function Filter<T>(p: T -> bool, s: seq<T>): (r: seq<T>)
    ensures |r| <= |s|
    ensures forall i :: 0 <= i < |r| ==> p(r[i])
  {
    if s == [] then []
    else
      var r := Filter(p, s[..|s| - 1]);
      if p(s[|s| - 1]) then r + [s[|s| - 1]] else r
  }

  /** `r` is obtained from `s` by deleting elements, keeping the order of the rest. */
  predicate IsSubsequence<T(==)>(r: seq<T>, s: seq<T>)
    decreases |s|
  {
    r == [] ||
    (s != [] &&
     ((r[|r| - 1] == s[|s| - 1] && IsSubsequence(r[..|r| - 1], s[..|s| - 1])) ||
      IsSubsequence(r, s[..|s| - 1])))
  }

  lemma {:induction false} FilterIsSubsequence<T>(p: T -> bool, s: seq<T>)
    ensures IsSubsequence(Filter(p, s), s)
  {
    if s != [] {
      var s' := s[..|s| - 1];
      var r' := Filter(p, s');
      FilterIsSubsequence(p, s');
      if p(s[|s| - 1]) {
        assert (r' + [s[|s| - 1]])[..|r'|] == r';
      }
    }
  }

  /** Each value occurs in the result exactly as often as in `s` if it passes `p`, and not at all otherwise. */
  lemma {:induction false} FilterCounts<T>(p: T -> bool, s: seq<T>)
    ensures forall x :: multiset(Filter(p, s))[x] == if p(x) then multiset(s)[x] else 0
  {
    if s != [] {
      var s' := s[..|s| - 1];
      FilterCounts(p, s');
      assert s == s' + [s[|s| - 1]];
      assert multiset(s) == multiset(s') + multiset{s[|s| - 1]};
    }
  }

  lemma {:induction false} FilterMembership<T>(p: T -> bool, s: seq<T>, x: T)
    ensures x in Filter(p, s) <==> x in s && p(x)
  {
    FilterCounts(p, s);
    assert x in Filter(p, s) <==> multiset(Filter(p, s))[x] > 0;
    assert x in s <==> multiset(s)[x] > 0;
  }

  /** Filtering a sequence none of whose elements fails `p` leaves it unchanged. */
  lemma {:induction false} FilterKeepsAll<T>(p: T -> bool, s: seq<T>)
    requires forall i :: 0 <= i < |s| ==> p(s[i])
    ensures Filter(p, s) == s
  {
    if s != [] {
      FilterKeepsAll(p, s[..|s| - 1]);
      assert s == s[..|s| - 1] + [s[|s| - 1]];
    }
  }

  /** Filtering twice with the same predicate is filtering once. */
  lemma {:induction false} FilterIdempotent<T>(p: T -> bool, s: seq<T>)
    ensures Filter(p, Filter(p, s)) == Filter(p, s)
  {
    FilterKeepsAll(p, Filter(p, s));
  }
}
