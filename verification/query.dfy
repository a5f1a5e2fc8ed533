/** The shape of every store query in the chat and user modules: filter,
    ORDER BY ... DESC, OFFSET, LIMIT, and `.first()` for a lookup. */
module Query {

  /** `s` is ordered by `key`, largest first. */
  ghost predicate NonIncreasing<T>(s: seq<T>, key: T -> int) {
    forall i, j :: 0 <= i < j < |s| ==> key(s[i]) >= key(s[j])
  }

  /** The index of the first element satisfying `p`, or -1: the row
      `.first()` returns when no ORDER BY is given (insertion order). */
  function FirstIndex<T>(s: seq<T>, p: T -> bool): (i: int)
    ensures -1 <= i < |s|
    ensures 0 <= i ==> p(s[i]) && forall j :: 0 <= j < i ==> !p(s[j])
    ensures i == -1 <==> forall j :: 0 <= j < |s| ==> !p(s[j])
    decreases |s|
  {
    if s == [] then -1
    else if p(s[0]) then 0
    else
      var k := FirstIndex(s[1..], p);
      if k == -1 then -1 else k + 1
  }

  /** The elements of `s` satisfying `p`, in their stored order. */
  function Filter<T(!new)>(s: seq<T>, p: T -> bool): (r: seq<T>)
    ensures forall i :: 0 <= i < |r| ==> p(r[i])
    ensures forall x :: x in r <==> x in s && p(x)
    ensures forall x :: multiset(r)[x] == if p(x) then multiset(s)[x] else 0
    ensures |r| <= |s|
    decreases |s|
  {
    if s == [] then []
    else
      assert s == [s[0]] + s[1..];
      if p(s[0]) then [s[0]] + Filter(s[1..], p)
      else Filter(s[1..], p)
  }

  /** Inserts `x` into a sequence ordered largest-first, ahead of every
      element whose key is not larger. */
  function Insert<T>(x: T, s: seq<T>, key: T -> int): (r: seq<T>)
    requires NonIncreasing(s, key)
    ensures NonIncreasing(r, key)
    ensures multiset(r) == multiset(s) + multiset{x}
    ensures |r| == |s| + 1
    ensures r[0] == x || (s != [] && r[0] == s[0])
    decreases |s|
  {
    if s == [] || key(x) >= key(s[0]) then [x] + s
    else
      assert s == [s[0]] + s[1..];
      [s[0]] + Insert(x, s[1..], key)
  }

  /** ORDER BY key DESC. SQL leaves the order of equal keys open; this
      model keeps them in stored order. */
  function SortDesc<T>(s: seq<T>, key: T -> int): (r: seq<T>)
    ensures NonIncreasing(r, key)
    ensures multiset(r) == multiset(s)
    ensures |r| == |s|
    decreases |s|
  {
    if s == [] then []
    else
      assert s == [s[0]] + s[1..];
      Insert(s[0], SortDesc(s[1..], key), key)
  }

  /** The first row OFFSET skips: a negative offset counts as zero. */
  function Start(n: nat, skip: int): (k: nat)
    ensures k <= n
    ensures 0 <= skip <= n ==> k == skip
  {
    if skip <= 0 then 0 else if skip >= n then n else skip
  }

  /** The number of rows OFFSET `skip` LIMIT `limit` keeps out of `n`:
      min(limit, max(0, n - skip)), and a negative LIMIT means no limit. */
  function PageLength(n: nat, skip: int, limit: int): (k: nat)
    ensures Start(n, skip) + k <= n
    ensures skip <= 0 && (limit < 0 || limit >= n) ==> k == n
  {
    var rest := n - Start(n, skip);
    if limit < 0 || limit >= rest then rest else limit
  }

  /** OFFSET `skip` LIMIT `limit` with SQLite's meaning of negative values. */
  function Page<T>(s: seq<T>, skip: int, limit: int): (r: seq<T>)
    ensures |r| == PageLength(|s|, skip, limit)
    ensures forall k :: 0 <= k < |r| ==> r[k] == s[Start(|s|, skip) + k]
    ensures multiset(r) <= multiset(s)
  {
    var from := Start(|s|, skip);
    var rest := s[from..];
    assert s == s[..from] + rest;
    var r := if limit < 0 || limit >= |rest| then rest else rest[..limit];
    assert rest == r + rest[|r|..];
    r
  }

  /** A page keeps the order of what it is cut from. */
  lemma PageKeepsOrder<T>(s: seq<T>, skip: int, limit: int, key: T -> int)
    requires NonIncreasing(s, key)
    ensures NonIncreasing(Page(s, skip, limit), key)
  {
    var r := Page(s, skip, limit);
    var from := Start(|s|, skip);
    forall i, j | 0 <= i < j < |r|
      ensures key(r[i]) >= key(r[j])
    {
      assert r[i] == s[from + i] && r[j] == s[from + j];
    }
  }

  /** A page holds only rows of what it is cut from. */
  lemma PageMembers<T>(s: seq<T>, skip: int, limit: int, x: T)
    requires x in Page(s, skip, limit)
    ensures x in s
  {
    assert x in multiset(Page(s, skip, limit));
  }

  /** With no offset and room for every row, the page is everything. */
  lemma FullPage<T>(s: seq<T>, skip: int, limit: int)
    requires skip <= 0 && (limit < 0 || limit >= |s|)
    ensures Page(s, skip, limit) == s
  {
  }

  /** Every row of a listing is a stored row that matches. */
  lemma ListingSound<T(!new)>(s: seq<T>, p: T -> bool, key: T -> int, skip: int, limit: int, x: T)
    requires x in Page(SortDesc(Filter(s, p), key), skip, limit)
    ensures x in s && p(x)
  {
    var ordered := SortDesc(Filter(s, p), key);
    PageMembers(ordered, skip, limit, x);
    assert x in multiset(ordered);
    assert x in multiset(Filter(s, p));
  }

  /** With no offset and room for every match, a listing misses none. */
  lemma ListingComplete<T(!new)>(s: seq<T>, p: T -> bool, key: T -> int, skip: int, limit: int, x: T)
    requires skip <= 0 && (limit < 0 || limit >= |Filter(s, p)|)
    requires x in s && p(x)
    ensures x in Page(SortDesc(Filter(s, p), key), skip, limit)
  {
    var matching := Filter(s, p);
    var ordered := SortDesc(matching, key);
    FullPage(ordered, skip, limit);
    assert x in matching;
    assert x in multiset(ordered);
  }

  /** A list query: the rows matching `p`, largest `key` first, one page. */
  function Listing<T(!new)>(s: seq<T>, p: T -> bool, key: T -> int, skip: int, limit: int): (r: seq<T>)
    ensures forall x :: x in r ==> x in s && p(x)
    ensures NonIncreasing(r, key)
    ensures |r| == PageLength(|Filter(s, p)|, skip, limit)
    ensures forall k :: 0 <= k < |r| ==>
              r[k] == SortDesc(Filter(s, p), key)[Start(|Filter(s, p)|, skip) + k]
    ensures skip <= 0 && (limit < 0 || limit >= |Filter(s, p)|) ==>
              forall x :: x in s && p(x) ==> x in r
  {
    var ordered := SortDesc(Filter(s, p), key);
    assert |ordered| == |Filter(s, p)|;
    var r := Page(ordered, skip, limit);
    assert forall k :: 0 <= k < |r| ==> r[k] == ordered[Start(|Filter(s, p)|, skip) + k];
    PageKeepsOrder(ordered, skip, limit, key);
    forall x | x in r
      ensures x in s && p(x)
    {
      ListingSound(s, p, key, skip, limit, x);
    }
    forall x | skip <= 0 && (limit < 0 || limit >= |Filter(s, p)|) && x in s && p(x)
      ensures x in r
    {
      ListingComplete(s, p, key, skip, limit, x);
    }
    r
  }
}
