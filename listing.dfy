/**
 * The client-side list pipeline shared by the four table views: keep the
 * records a predicate accepts (Array.prototype.filter), match every search
 * term against a record's searchable text, and cut the fixed-size page out
 * of the result (Array.prototype.slice).
 */
module Listing {
  import opened Text

  // ---------------------------------------------------------------- filter

  /** `s.filter(keep)` */
  function Filter<T>(s: seq<T>, keep: T -> bool): (r: seq<T>)
    ensures |r| <= |s|
  {
    if s == [] then [] else (if keep(s[0]) then [s[0]] else []) + Filter(s[1..], keep)
  }

  /** `a` is `b` with some elements left out, in the same order. */
  predicate IsSubsequence<T(==)>(a: seq<T>, b: seq<T>) {
    a == [] || (b != [] && ((a[0] == b[0] && IsSubsequence(a[1..], b[1..])) || IsSubsequence(a, b[1..])))
  }

  /** The filtered list is an order-preserving subsequence of the input. */
  lemma {:induction false} FilterIsSubsequence<T>(s: seq<T>, keep: T -> bool)
    ensures IsSubsequence(Filter(s, keep), s)
  {
    if s != [] {
      FilterIsSubsequence(s[1..], keep);
      if keep(s[0]) {
        var r := Filter(s, keep);
        assert r == [s[0]] + Filter(s[1..], keep);
        assert r[0] == s[0] && r[1..] == Filter(s[1..], keep);
        assert IsSubsequence(r[1..], s[1..]);
      } else {
        assert Filter(s, keep) == Filter(s[1..], keep);
      }
    }
  }

  /** An element survives exactly when it was in the input and is accepted, and it survives as often as it occurred. */
  lemma {:induction false} FilterCounts<T>(s: seq<T>, keep: T -> bool, x: T)
    ensures multiset(Filter(s, keep))[x] == if keep(x) then multiset(s)[x] else 0
    ensures x in Filter(s, keep) <==> x in s && keep(x)
  {
    if s != [] {
      FilterCounts(s[1..], keep, x);
      assert s == [s[0]] + s[1..];
      assert multiset(s)[x] == multiset([s[0]])[x] + multiset(s[1..])[x];
    }
  }

  /** A filter that accepts every element returns the list unchanged. */
  lemma {:induction false} FilterKeepsAll<T>(s: seq<T>, keep: T -> bool)
    requires forall k :: 0 <= k < |s| ==> keep(s[k])
    ensures Filter(s, keep) == s
  {
    if s != [] {
      FilterKeepsAll(s[1..], keep);
    }
  }

  /** Two filters in a row are one filter by the conjunction: the earlier filter only narrows what the later one sees. */
  lemma {:induction false} FilterFuse<T>(s: seq<T>, p: T -> bool, q: T -> bool, pq: T -> bool)
    requires forall x :: pq(x) == (p(x) && q(x))
    ensures Filter(Filter(s, p), q) == Filter(s, pq)
  {
    if s != [] {
      FilterFuse(s[1..], p, q, pq);
      if p(s[0]) {
        var f := [s[0]] + Filter(s[1..], p);
        assert Filter(s, p) == f;
        assert f[0] == s[0] && f[1..] == Filter(s[1..], p);
        assert Filter(f, q) == (if q(s[0]) then [s[0]] else []) + Filter(Filter(s[1..], p), q);
      } else {
        assert Filter(s, p) == Filter(s[1..], p);
      }
      assert Filter(s, pq) == (if pq(s[0]) then [s[0]] else []) + Filter(s[1..], pq);
    }
  }

  /** Filters whose predicates agree on the list's elements give the same result. */
  lemma {:induction false} FilterCongruent<T>(s: seq<T>, f: T -> bool, g: T -> bool)
    requires forall k :: 0 <= k < |s| ==> f(s[k]) == g(s[k])
    ensures Filter(s, f) == Filter(s, g)
  {
    if s != [] {
      FilterCongruent(s[1..], f, g);
    }
  }

  lemma {:induction false} FilterAppend<T>(a: seq<T>, b: seq<T>, keep: T -> bool)
    ensures Filter(a + b, keep) == Filter(a, keep) + Filter(b, keep)
  {
    if a != [] {
      assert (a + b)[1..] == a[1..] + b;
      FilterAppend(a[1..], b, keep);
    } else {
      assert a + b == b;
    }
  }

  // ---------------------------------------------------------------- paging

  /** How `slice` resolves an index: a negative one counts from the end, and both are clamped to the length. */
  function ClampIndex(i: int, len: nat): (r: nat)
    ensures r <= len
    ensures 0 <= i <= len ==> r == i
  {
    if i < 0 then (if len + i < 0 then 0 else len + i) else if i > len then len else i
  }

  /** `s.slice(start, end)` */
  function Slice<T>(s: seq<T>, start: int, end: int): seq<T> {
    var a, b := ClampIndex(start, |s|), ClampIndex(end, |s|);
    if a < b then s[a..b] else []
  }

  /** The first index of page `current` (1-based) when pages hold `pageSize` rows. */
  function PageStart(current: int, pageSize: int): int {
    (current - 1) * pageSize
  }

  /** `filtered.slice((current - 1) * pageSize, (current - 1) * pageSize + pageSize)` */
  function Page<T>(s: seq<T>, current: int, pageSize: int): seq<T> {
    var start := PageStart(current, pageSize);
    Slice(s, start, start + pageSize)
  }

  lemma PageStartNonNegative(current: int, pageSize: int)
    requires current >= 1 && pageSize >= 0
    ensures PageStart(current, pageSize) >= 0
  {
    assert (current - 1) * pageSize >= 0;
  }

  /**
   * The page is the window [start, start + pageSize) of the list, cut short at
   * its end: never more than `pageSize` rows, and empty once the start is at
   * or past the end.
   */
  lemma PageWindow<T>(s: seq<T>, current: int, pageSize: int)
    requires current >= 1 && pageSize >= 0
    ensures var start := PageStart(current, pageSize);
      && |Page(s, current, pageSize)| <= pageSize
      && (start >= |s| ==> Page(s, current, pageSize) == [])
      && (start < |s| ==> Page(s, current, pageSize) == s[start..if start + pageSize < |s| then start + pageSize else |s|])
  {
    PageStartNonNegative(current, pageSize);
    SliceWindow(s, PageStart(current, pageSize), pageSize);
  }

  /** `slice(start, start + n)` for a non-negative start: at most n rows, the window cut at the end. */
  lemma SliceWindow<T>(s: seq<T>, start: int, n: int)
    requires start >= 0 && n >= 0
    ensures |Slice(s, start, start + n)| <= n
    ensures start >= |s| ==> Slice(s, start, start + n) == []
    ensures start < |s| ==> Slice(s, start, start + n) == s[start..if start + n < |s| then start + n else |s|]
  {
  }

  /** Every row of a page is a row of the list. */
  lemma PageWithin<T>(s: seq<T>, current: int, pageSize: int)
    requires current >= 1 && pageSize >= 0
    ensures forall x :: x in Page(s, current, pageSize) ==> x in s
  {
    PageWindow(s, current, pageSize);
    var start := PageStart(current, pageSize);
    if start < |s| {
      var end := if start + pageSize < |s| then start + pageSize else |s|;
      forall x | x in s[start..end]
        ensures x in s
      {
        var k :| 0 <= k < end - start && s[start..end][k] == x;
        assert s[start + k] == x;
      }
    }
  }

  /** Pages of a positive size split the list: row i is row i % pageSize of page i / pageSize + 1. */
  lemma PagesCoverList<T>(s: seq<T>, pageSize: int, i: int)
    requires pageSize >= 1 && 0 <= i < |s|
    ensures var p := Page(s, i / pageSize + 1, pageSize);
      i % pageSize < |p| && p[i % pageSize] == s[i]
  {
    PageOfIndex(i, pageSize);
    PageIndex(s, i / pageSize + 1, pageSize, i % pageSize);
  }

  /** Row `i` falls on page `i / pageSize + 1`, at offset `i % pageSize`. */
  lemma PageOfIndex(i: int, pageSize: int)
    requires pageSize >= 1 && 0 <= i
    ensures 0 <= i % pageSize < pageSize
    ensures PageStart(i / pageSize + 1, pageSize) + i % pageSize == i
  {
    var q := i / pageSize;
    assert q * pageSize + i % pageSize == i;
    assert PageStart(q + 1, pageSize) == q * pageSize;
  }

  /** Offset `r` of a page reaching past row `start + r` is that row. */
  lemma PageIndex<T>(s: seq<T>, current: int, pageSize: int, r: int)
    requires current >= 1 && 0 <= r < pageSize
    requires PageStart(current, pageSize) + r < |s|
    ensures r < |Page(s, current, pageSize)|
    ensures Page(s, current, pageSize)[r] == s[PageStart(current, pageSize) + r]
  {
    PageStartNonNegative(current, pageSize);
    SliceIndex(s, PageStart(current, pageSize), pageSize, r);
  }

  lemma SliceIndex<T>(s: seq<T>, start: int, n: int, r: int)
    requires start >= 0 && 0 <= r < n && start + r < |s|
    ensures r < |Slice(s, start, start + n)|
    ensures Slice(s, start, start + n)[r] == s[start + r]
  {
    SliceWindow(s, start, n);
  }

  /** A page change writes `current` and `pageSize`, falling back to a view-specific size when none is given (`pageSize || fallback`). */
  function PageSizeOr(pageSize: int, fallback: int): int {
    if pageSize == 0 then fallback else pageSize
  }

  // ---------------------------------------------------------------- search

  /** `searchText.toLowerCase().trim().split(/\s+/)` */
  function Terms(search: string): seq<string> {
    SplitSpaces(Trim(Lower(search)))
  }

  /** `terms.every((term) => text.includes(term))` */
  predicate MatchesAll(terms: seq<string>, text: string) {
    forall k :: 0 <= k < |terms| ==> Contains(text, terms[k])
  }

  /** Whether a record with this searchable text survives the search box (blank search keeps everything). */
  predicate SearchKeeps(search: string, text: string) {
    Trim(search) == "" || MatchesAll(Terms(search), text)
  }

  /**
   * The search stage: a blank or white-space-only search returns the list
   * itself; otherwise the records whose searchable text contains every term.
   */
  function Search<T>(records: seq<T>, search: string, text: T -> string): seq<T> {
    if Trim(search) == "" then records
    else Filter(records, Matcher(search, text))
  }

  /** The per-record test of a non-blank search. */
  function Matcher<T>(search: string, text: T -> string): T -> bool {
    (x: T) => MatchesAll(Terms(search), text(x))
  }

  /** The search stage is the filter by `SearchKeeps`, written with any predicate that agrees with it. */
  lemma SearchAsFilter<T>(records: seq<T>, search: string, text: T -> string, keep: T -> bool)
    requires forall k :: 0 <= k < |records| ==> keep(records[k]) == SearchKeeps(search, text(records[k]))
    ensures Search(records, search, text) == Filter(records, keep)
  {
    if Trim(search) == "" {
      FilterKeepsAll(records, keep);
    } else {
      FilterCongruent(records, Matcher(search, text), keep);
    }
  }

  /** The search stage keeps, in order, exactly the records whose text matches every term; a blank search returns the list. */
  lemma SearchSpec<T>(records: seq<T>, search: string, text: T -> string)
    ensures Trim(search) == "" ==> Search(records, search, text) == records
    ensures IsSubsequence(Search(records, search, text), records)
    ensures forall x :: x in Search(records, search, text) <==> x in records && SearchKeeps(search, text(x))
  {
    var keep := Matcher(search, text);
    if Trim(search) == "" {
      IsSubsequenceRefl(records);
    } else {
      FilterIsSubsequence(records, keep);
      forall x
        ensures x in Search(records, search, text) <==> x in records && SearchKeeps(search, text(x))
      {
        FilterCounts(records, keep, x);
      }
    }
  }

  lemma {:induction false} IsSubsequenceRefl<T>(s: seq<T>)
    ensures IsSubsequence(s, s)
  {
    if s != [] {
      IsSubsequenceRefl(s[1..]);
    }
  }

  /** Every term is white-space free and occurs in the lowered, trimmed query. */
  lemma TermsOfQuery(search: string)
    ensures forall k :: 0 <= k < |Terms(search)| ==>
      NoSpace(Terms(search)[k]) && Contains(Trim(Lower(search)), Terms(search)[k])
  {
    SplitSpacesNoSpace(Trim(Lower(search)));
    SplitSpacesContained(Trim(Lower(search)));
  }

  /** A record whose searchable text contains the whole lowered, trimmed query matches every term of it. */
  lemma WholeQueryMatches(search: string, text: string)
    requires Contains(text, Trim(Lower(search)))
    ensures SearchKeeps(search, text)
  {
    TermsOfQuery(search);
    forall k | 0 <= k < |Terms(search)|
      ensures Contains(text, Terms(search)[k])
    {
      ContainsTransitive(text, Trim(Lower(search)), Terms(search)[k]);
    }
  }
}
