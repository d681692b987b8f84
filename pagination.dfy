/** The paginated fetcher shared by the org, team and group listings: request a page of
    at most 100 items, append it, and ask for the page the server names next, until the
    server names none (page 0) or a request fails. */
module Pagination {
  import opened Wrappers

  /** Page size every listing asks for (`PerPage: 100`). */
  const PerPage := 100

  /** The server's answer to one page request. */
  datatype Response<T> = Page(items: seq<T>, nextPage: int) | Failed(cause: string)

  /** An answer after which the loop stops: an error, or a page with no next page. */
  predicate Final<T>(r: Response<T>)
  {
    r.Failed? || r.nextPage == 0
  }

  /** The server's answers to successive requests eventually stop the loop. */
  predicate Ends<T>(rs: seq<Response<T>>)
  {
    exists i :: 0 <= i < |rs| && Final(rs[i])
  }

  /** Index of the answer that stops the loop. */
  function StopAt<T>(rs: seq<Response<T>>): (k: nat)
    requires Ends(rs)
    ensures k < |rs| && Final(rs[k])
    ensures forall j :: 0 <= j < k ==> !Final(rs[j])
  {
    if Final(rs[0]) then 0
    else
      assert Ends(rs[1..]) by {
        var i :| 0 <= i < |rs| && Final(rs[i]);
        assert i > 0 && Final(rs[1..][i - 1]);
      }
      1 + StopAt(rs[1..])
  }

  function Items<T>(r: Response<T>): seq<T>
  {
    if r.Page? then r.items else []
  }

  /** All items of a run of answers, page after page. */
  function Flatten<T>(rs: seq<Response<T>>): seq<T>
  {
    if rs == [] then [] else Flatten(rs[..|rs| - 1]) + Items(rs[|rs| - 1])
  }

  /** What the loop accumulates: the pages received up to the one that stops it. */
  function Collected<T>(rs: seq<Response<T>>): seq<T>
    requires Ends(rs)
  {
    Flatten(rs[..StopAt(rs) + 1])
  }

  /** The page asked for by the k-th request: first the default page 0, then the next
      page named by the previous answer. */
  function Cursor<T>(rs: seq<Response<T>>, k: nat): int
    requires Ends(rs) && k <= StopAt(rs)
  {
    if k == 0 then 0 else rs[k - 1].nextPage
  }

  /** The pages requested, one per answer up to the one that stops the loop. */
  function Cursors<T>(rs: seq<Response<T>>): seq<int>
    requires Ends(rs)
  {
    seq(StopAt(rs) + 1, k requires 0 <= k <= StopAt(rs) => Cursor(rs, k))
  }

  /** The error that stopped the loop, if it was an error. */
  function Failure<T>(rs: seq<Response<T>>): Option<string>
    requires Ends(rs)
  {
    var last := rs[StopAt(rs)];
    if last.Failed? then Some(last.cause) else None
  }

  /** The page loop of getGithubOrgMembers, getGithubTeamMembers and
      getGitlabGroupMembers. `rs` holds the server's answers in request order. */
  method FetchAll<T(==)>(rs: seq<Response<T>>) returns (items: seq<T>, cursors: seq<int>, failure: Option<string>)
    requires Ends(rs)
    ensures items == Collected(rs)
    ensures cursors == Cursors(rs)
    ensures failure == Failure(rs)
  {
    items, cursors := [], [];
    var page := 0;
    var i := 0;
    while true
      invariant 0 <= i <= StopAt(rs)
      invariant items == Flatten(rs[..i])
      invariant page == Cursor(rs, i)
      invariant |cursors| == i
      invariant forall k :: 0 <= k < i ==> cursors[k] == Cursor(rs, k)
      decreases StopAt(rs) - i
    {
      cursors := cursors + [page];
      var r := rs[i];
      assert rs[..i + 1][..i] == rs[..i];
      if r.Failed? {
        failure := Some(r.cause);
        break;
      }
      items := items + r.items;
      if r.nextPage == 0 {
        failure := None;
        break;
      }
      page := r.nextPage;
      i := i + 1;
    }
  }

  lemma {:induction false} FlattenPrefix<T>(rs: seq<Response<T>>, m: nat, n: nat)
    requires m <= n <= |rs|
    ensures Flatten(rs[..m]) <= Flatten(rs[..n])
  {
    if m < n {
      FlattenPrefix(rs, m, n - 1);
      assert rs[..n][..n - 1] == rs[..n - 1];
    }
  }

  /** Pages received before the loop stopped are all kept, in order, even when the loop
      stopped on an error; the answer that stopped it adds only its own items. */
  lemma CollectedKeepsEarlierPages<T>(rs: seq<Response<T>>, j: nat)
    requires Ends(rs) && j <= StopAt(rs)
    ensures Flatten(rs[..j]) <= Collected(rs)
    ensures Collected(rs) == Flatten(rs[..StopAt(rs)]) + Items(rs[StopAt(rs)])
    ensures Failure(rs).Some? ==> Collected(rs) == Flatten(rs[..StopAt(rs)])
  {
    FlattenPrefix(rs, j, StopAt(rs) + 1);
    assert rs[..StopAt(rs) + 1][..StopAt(rs)] == rs[..StopAt(rs)];
  }

  /** A server that fills every page up to the last one, which is non-empty: the loop
      asks for exactly ceil(total / PerPage) pages. */
  ghost predicate FullPages<T>(rs: seq<Response<T>>)
  {
    && Ends(rs)
    && rs[StopAt(rs)].Page?
    && 0 < |rs[StopAt(rs)].items| <= PerPage
    && forall j :: 0 <= j < StopAt(rs) ==> |Items(rs[j])| == PerPage
  }

  lemma {:induction false} FlattenLength<T>(rs: seq<Response<T>>, n: nat)
    requires n <= |rs|
    requires forall j :: 0 <= j < n ==> |Items(rs[j])| == PerPage
    ensures |Flatten(rs[..n])| == n * PerPage
  {
    if n > 0 {
      FlattenLength(rs, n - 1);
      assert rs[..n][..n - 1] == rs[..n - 1];
    }
  }

  lemma RequestCount<T>(rs: seq<Response<T>>)
    requires FullPages(rs)
    ensures |Cursors(rs)| == (|Collected(rs)| + PerPage - 1) / PerPage
  {
    var k := StopAt(rs);
    FlattenLength(rs, k);
    CollectedKeepsEarlierPages(rs, k);
    assert |Collected(rs)| == k * PerPage + |rs[k].items|;
  }
}
