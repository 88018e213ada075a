/**
 * The offset pager over the appraisal history: `refresh` reloads the first
 * page, `loadMore` appends the next one, and `hasMore` records whether the
 * last page was full.
 */
module HistoryPager {
  import opened Wrappers
  import opened Browser
  import opened AppraisalTypes
  import ApiClient

  const PageSize: nat := 10
  const HistoryFallback := "履歴の取得に失敗しました"

  /** The text stored in `error` for a caught value. */
  function ErrorText(t: Thrown): (m: string)
    ensures t.ErrorObject? ==> m == t.message
    ensures t.NonError? ==> m == HistoryFallback
  {
    match t
    case ErrorObject(message) => message
    case NonError => HistoryFallback
  }

  class HistoryController {
    var items: seq<AppraisalHistoryItem>
    var loading: bool
    var error: Option<string>
    var hasMore: bool

    constructor()
      ensures items == [] && !loading && error == None && hasMore
    {
      items := [];
      loading := false;
      error := None;
      hasMore := true;
    }

    /** The synchronous start of `fetch(reset)`: mark loading, clear the error, choose the offset. */
    method StartFetch(reset: bool) returns (offset: nat)
      modifies this
      ensures loading && error == None
      ensures items == old(items) && hasMore == old(hasMore)
      ensures offset == if reset then 0 else |old(items)|
    {
      loading := true;
      error := None;
      offset := if reset then 0 else |items|;
    }

    /** The end of `fetch(reset)` once the page request settled with `reply`. */
    method FinishFetch(reset: bool, reply: Result<seq<AppraisalHistoryItem>, Thrown>)
      modifies this
      ensures !loading
      ensures reply.Ok? ==>
        && items == (if reset then reply.value else old(items) + reply.value)
        && hasMore == (|reply.value| == PageSize)
        && error == old(error)
      ensures reply.Err? ==>
        items == old(items) && hasMore == old(hasMore) && error == Some(ErrorText(reply.error))
    {
      match reply {
        case Ok(page) =>
          if reset {
            items := page;
          } else {
            items := items + page;
          }
          hasMore := |page| == PageSize;
        case Err(thrown) =>
          error := Some(ErrorText(thrown));
      }
      loading := false;
    }

    /**
     * `fetch(reset)`: request one page of `PageSize` items at offset 0 (reset)
     * or at the current length, then replace or extend the items.
     */
    method Fetch(reset: bool, user: Option<Identity>, transport: seq<Exchange<seq<AppraisalHistoryItem>>>)
      returns (sent: seq<Request>)
      requires |transport| >= 2
      modifies this
      ensures var a := ApiClient.GetAppraisalHistory(PageSize, if reset then 0 else |old(items)|, user, transport);
        && sent == a.sent
        && !loading
        && (a.result.Ok? ==>
              && items == (if reset then a.result.value else old(items) + a.result.value)
              && hasMore == (|a.result.value| == PageSize)
              && error == None)
        && (a.result.Err? ==>
              items == old(items) && hasMore == old(hasMore) && error == Some(a.result.error.message))
    {
      var offset := StartFetch(reset);
      var a := ApiClient.GetAppraisalHistory(PageSize, offset, user, transport);
      sent := a.sent;
      var reply: Result<seq<AppraisalHistoryItem>, Thrown> :=
        match a.result
        case Ok(page) => Ok(page)
        case Err(e) => Err(ErrorObject(e.message));
      FinishFetch(reset, reply);
    }

    /** `refresh()`: fetch the first page and replace the items with it. */
    method Refresh(user: Option<Identity>, transport: seq<Exchange<seq<AppraisalHistoryItem>>>)
      returns (sent: seq<Request>)
      requires |transport| >= 2
      modifies this
      ensures var a := ApiClient.GetAppraisalHistory(PageSize, 0, user, transport);
        && sent == a.sent && !loading
        && (a.result.Ok? ==> items == a.result.value && hasMore == (|a.result.value| == PageSize) && error == None)
        && (a.result.Err? ==> items == old(items) && hasMore == old(hasMore) && error == Some(a.result.error.message))
    {
      sent := Fetch(true, user, transport);
    }

    /** `loadMore()`: nothing while loading or when the last page was short; otherwise fetch the next page. */
    method LoadMore(user: Option<Identity>, transport: seq<Exchange<seq<AppraisalHistoryItem>>>)
      returns (sent: seq<Request>)
      requires |transport| >= 2
      modifies this
      ensures old(loading) || !old(hasMore) ==>
        sent == [] && items == old(items) && loading == old(loading) && error == old(error) && hasMore == old(hasMore)
      ensures !old(loading) && old(hasMore) ==>
        var a := ApiClient.GetAppraisalHistory(PageSize, |old(items)|, user, transport);
        && sent == a.sent && !loading
        && (a.result.Ok? ==> items == old(items) + a.result.value && hasMore == (|a.result.value| == PageSize) && error == None)
        && (a.result.Err? ==> items == old(items) && hasMore == old(hasMore) && error == Some(a.result.error.message))
    {
      if !loading && hasMore {
        sent := Fetch(false, user, transport);
      } else {
        sent := [];
      }
    }
  }

  // ---------------------------------------------------------------------------
  // paging over a stable collection

  function Min(a: int, b: int): (m: int) { if a <= b then a else b }

  /** The page a server with a stably ordered `collection` answers to `limit` and `offset`. */
  function Page(collection: seq<AppraisalHistoryItem>, limit: nat, offset: nat): (p: seq<AppraisalHistoryItem>)
    ensures |p| <= limit
    ensures offset <= |collection| ==> p == collection[offset..Min(offset + limit, |collection|)]
    ensures offset > |collection| ==> p == []
  {
    if offset > |collection| then [] else collection[offset..Min(offset + limit, |collection|)]
  }

  /** Loading the next page onto a prefix of the collection yields a longer prefix. */
  lemma {:induction false} NextPageExtendsPrefix(collection: seq<AppraisalHistoryItem>, items: seq<AppraisalHistoryItem>)
    requires |items| <= |collection| && items == collection[..|items|]
    ensures items + Page(collection, PageSize, |items|) == collection[..Min(|items| + PageSize, |collection|)]
  {
    var end := Min(|items| + PageSize, |collection|);
    assert collection[..end] == collection[..|items|] + collection[|items|..end];
  }

  /** A short page means the whole collection has been loaded. */
  lemma {:induction false} ShortPageMeansExhausted(collection: seq<AppraisalHistoryItem>, items: seq<AppraisalHistoryItem>)
    requires |items| <= |collection| && items == collection[..|items|]
    requires |Page(collection, PageSize, |items|)| < PageSize
    ensures items + Page(collection, PageSize, |items|) == collection
  {
    NextPageExtendsPrefix(collection, items);
    assert collection[..|collection|] == collection;
  }

  /** All ids in a sequence of items are distinct. */
  predicate DistinctIds(s: seq<AppraisalHistoryItem>) {
    forall i, j :: 0 <= i < j < |s| ==> s[i].id != s[j].id
  }

  /** With distinct ids, the pages at offsets 0 and `PageSize` share no item. */
  lemma {:induction false} ConsecutivePagesDisjoint(collection: seq<AppraisalHistoryItem>)
    requires DistinctIds(collection)
    ensures forall x, y :: x in Page(collection, PageSize, 0) && y in Page(collection, PageSize, PageSize) ==> x.id != y.id
  {
    var first := Page(collection, PageSize, 0);
    var second := Page(collection, PageSize, PageSize);
    forall x, y | x in first && y in second
      ensures x.id != y.id
    {
      var i :| 0 <= i < |first| && first[i] == x;
      var j :| 0 <= j < |second| && second[j] == y;
      assert first[i] == collection[i];
      assert second[j] == collection[PageSize + j];
    }
  }

  /** Starting from a refresh and loading more pages keeps the items a prefix of the collection. */
  lemma {:induction false} PagingMirrorsCollection(collection: seq<AppraisalHistoryItem>, pages: nat)
    ensures var items := Loaded(collection, pages);
      |items| <= |collection| && items == collection[..|items|]
  {
    if pages > 0 {
      PagingMirrorsCollection(collection, pages - 1);
      NextPageExtendsPrefix(collection, Loaded(collection, pages - 1));
    }
  }

  /**
   * The items after a refresh and `pages - 1` successful `loadMore` calls
   * against a stable server: as many pages of ten as asked for, or the whole
   * collection once it runs out.
   */
  function Loaded(collection: seq<AppraisalHistoryItem>, pages: nat): (items: seq<AppraisalHistoryItem>)
    ensures |items| == Min(pages * PageSize, |collection|)
  {
    if pages == 0 then []
    else
      var items := Loaded(collection, pages - 1);
      items + Page(collection, PageSize, |items|)
  }

  /** After a short page the whole collection is loaded and the next page is empty, so loading more changes nothing. */
  lemma {:induction false} ExhaustedStaysPut(collection: seq<AppraisalHistoryItem>, pages: nat)
    requires |Page(collection, PageSize, |Loaded(collection, pages)|)| < PageSize
    ensures Loaded(collection, pages + 1) == collection
    ensures Page(collection, PageSize, |Loaded(collection, pages + 1)|) == []
    ensures Loaded(collection, pages + 2) == Loaded(collection, pages + 1)
  {
    PagingMirrorsCollection(collection, pages);
    ShortPageMeansExhausted(collection, Loaded(collection, pages));
    assert Page(collection, PageSize, |collection|) == [];
  }

  /** A server that answers with a page settles the history call to that page. */
  lemma ServedPage(page: seq<AppraisalHistoryItem>, offset: nat, user: Option<Identity>)
    ensures ApiClient.GetAppraisalHistory(PageSize, offset, user, [Reply(200, Json(page, None)), Unreachable("")]).result == Ok(page)
  {
  }

  /** One more page on top of `Loaded(collection, pages)`; a short page, or an exhausted collection, leaves the whole of it. */
  lemma {:induction false} NextPageOfLoaded(collection: seq<AppraisalHistoryItem>, pages: nat)
    ensures var items := Loaded(collection, pages);
      var page := Page(collection, PageSize, |items|);
      Loaded(collection, pages + 1) == items + page &&
      (|page| < PageSize ==> items + page == collection) &&
      (items == collection ==> page == [])
  {
    var items := Loaded(collection, pages);
    PagingMirrorsCollection(collection, pages);
    if |Page(collection, PageSize, |items|)| < PageSize {
      ShortPageMeansExhausted(collection, items);
    }
  }

  /** `refresh()` against a server that answers with `page`. */
  method RefreshServed(c: HistoryController, page: seq<AppraisalHistoryItem>, user: Option<Identity>)
    modifies c
    ensures c.items == page && c.hasMore == (|page| == PageSize) && !c.loading
  {
    ServedPage(page, 0, user);
    var sent := c.Refresh(user, [Reply(200, Json(page, None)), Unreachable("")]);
  }

  /** `loadMore()` against a server that answers with `page`. */
  method LoadMoreServed(c: HistoryController, page: seq<AppraisalHistoryItem>, user: Option<Identity>)
    requires !c.loading
    modifies c
    ensures !c.loading
    ensures old(c.hasMore) ==> c.items == old(c.items) + page && c.hasMore == (|page| == PageSize)
    ensures !old(c.hasMore) ==> c.items == old(c.items) && !c.hasMore
  {
    ServedPage(page, |c.items|, user);
    var sent := c.LoadMore(user, [Reply(200, Json(page, None)), Unreachable("")]);
  }

  /**
   * A refresh followed by `n` calls of `loadMore` on a controller, against a
   * server that answers every page request from the stably ordered
   * `collection`, leaves exactly `Loaded(collection, n + 1)`: a prefix of the
   * collection, and all of it once a page came back short.
   */
  method PageThrough(c: HistoryController, collection: seq<AppraisalHistoryItem>, user: Option<Identity>, n: nat)
    modifies c
    ensures c.items == Loaded(collection, n + 1) && !c.loading
    ensures |c.items| <= |collection| && c.items == collection[..|c.items|]
    ensures !c.hasMore ==> c.items == collection
  {
    RefreshServed(c, Page(collection, PageSize, 0), user);
    NextPageOfLoaded(collection, 0);
    var k := 0;
    while k < n
      invariant 0 <= k <= n
      invariant c.items == Loaded(collection, k + 1) && !c.loading
      invariant !c.hasMore ==> c.items == collection
    {
      NextPageOfLoaded(collection, k + 1);
      LoadMoreServed(c, Page(collection, PageSize, |c.items|), user);
      k := k + 1;
    }
    PagingMirrorsCollection(collection, n + 1);
  }
}
