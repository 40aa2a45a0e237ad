/** The paginated list loader: one page of items at a time, one extra item
    fetched to learn whether a next page exists, and responses of superseded
    requests ignored. An asynchronous call is split into the moment it starts
    (`Load`, which returns the request's number and parameters) and the
    moment it settles (`Resolve` or `Reject` with that number). */
module UsePagination {
  import opened Wrappers
  import opened Domain
  import opened Errors
  import opened ErrorMessages

  /** The parameters a request for page `page` carries: one item more than a
      page, starting where the earlier pages end, with the sort options that
      are set. */
  function RequestParams(pageSize: nat, page: int, sortBy: Option<string>, order: Option<Order>): PaginationParams {
    PaginationParams(Some(pageSize + 1), Some((page - 1) * pageSize),
                     if Truthy(sortBy) then sortBy else None, order)
  }

  /** The first page starts at the beginning, each next page where the one
      before ends, and every request asks for one item beyond its page. */
  lemma PagesTile(pageSize: nat, page: int, sortBy: Option<string>, order: Option<Order>)
    ensures RequestParams(pageSize, 1, sortBy, order).offset == Some(0)
    ensures RequestParams(pageSize, page + 1, sortBy, order).offset.value
            == RequestParams(pageSize, page, sortBy, order).offset.value + pageSize
    ensures RequestParams(pageSize, page, sortBy, order).limit == Some(pageSize + 1)
    ensures RequestParams(pageSize, page, sortBy, order).sortBy.Some?
            <==> sortBy.Some? && sortBy.value != ""
  {
  }

  /** A server holding `all` answers a request with at most `limit` items from `offset` on. */
  function ServerPage<T>(all: seq<T>, offset: nat, limit: nat): (r: seq<T>)
    ensures |r| <= limit
  {
    if offset >= |all| then [] else all[offset..if offset + limit <= |all| then offset + limit else |all|]
  }

  /** The first `n` items of `data` (`slice(0, n)`). */
  function Take<T>(data: seq<T>, n: nat): (r: seq<T>)
    ensures |r| == if |data| <= n then |data| else n
    ensures r == data[..|r|]
  {
    data[..if |data| <= n then |data| else n]
  }

  /** Fetching one extra item tells exactly whether items lie beyond the
      page, and keeping a page's worth of the answer gives the page. */
  lemma ExtraItemDetectsNextPage<T>(all: seq<T>, offset: nat, pageSize: nat)
    ensures var data := ServerPage(all, offset, pageSize + 1);
      (|data| > pageSize <==> |all| > offset + pageSize)
      && Take(data, pageSize) == ServerPage(all, offset, pageSize)
  {
  }

  class Pagination<T> {
    const pageSize: nat
    const sortBy: Option<string>
    const order: Option<Order>
    const errorMessage: string

    var items: seq<T>
    var currentPage: int
    var hasMore: bool
    var isLoading: bool
    var error: Option<string>
    var currentRequestId: nat
    var isUnmounted: bool
    /** Requests started and not yet settled. */
    ghost var inFlight: set<nat>

    /** A page never shows more than a page's worth of items; requests are
        numbered from one; while mounted, the list is loading exactly when no
        request has started yet or the newest one is still out, and then it
        shows no error. */
    ghost predicate Valid()
      reads this
    {
      currentPage >= 1
      && |items| <= pageSize
      && (forall id :: id in inFlight ==> 1 <= id <= currentRequestId)
      && (!isUnmounted ==> (isLoading <==> currentRequestId == 0 || currentRequestId in inFlight))
      && (!isUnmounted && currentRequestId in inFlight ==> error.None?)
    }

    constructor (pageSize: nat := DefaultPageSize, sortBy: Option<string> := None,
                 order: Option<Order> := None, errorMessage: string := LoadItems)
      ensures Valid()
      ensures this.pageSize == pageSize && this.sortBy == sortBy && this.order == order
      ensures this.errorMessage == errorMessage
      ensures items == [] && currentPage == 1 && hasMore && isLoading && error.None?
      ensures currentRequestId == 0 && !isUnmounted && inFlight == {}
    {
      this.pageSize := pageSize;
      this.sortBy := sortBy;
      this.order := order;
      this.errorMessage := errorMessage;
      items := [];
      currentPage := 1;
      hasMore := true;
      isLoading := true;
      error := None;
      currentRequestId := 0;
      isUnmounted := false;
      inFlight := {};
    }

    /** The offset of the current page. */
    function Offset(): int
      reads this
    {
      (currentPage - 1) * pageSize
    }

    /** `load`, up to the call of the fetch function: a new request number,
        the loading flag set, the error cleared. */
    method Load() returns (id: nat, params: PaginationParams)
      requires Valid()
      modifies this
      ensures Valid()
      ensures id == currentRequestId == old(currentRequestId) + 1
      ensures params == RequestParams(pageSize, currentPage, sortBy, order)
      ensures params.offset == Some(Offset())
      ensures isLoading && error.None? && inFlight == old(inFlight) + {id}
      ensures items == old(items) && currentPage == old(currentPage) && hasMore == old(hasMore)
      ensures isUnmounted == old(isUnmounted)
    {
      currentRequestId := currentRequestId + 1;
      id := currentRequestId;
      isLoading := true;
      error := None;
      params := PaginationParams(Some(pageSize + 1), Some(Offset()), None, None);
      if Truthy(sortBy) {
        params := params.(sortBy := sortBy);
      }
      if order.Some? {
        params := params.(order := order);
      }
      inFlight := inFlight + {id};
    }

    /** Whether a settled request still counts. */
    predicate IsCurrent(id: nat)
      reads this
    {
      !isUnmounted && id == currentRequestId
    }

    /** The fetch of request `id` resolved with `data`: for the current
        request, the page is the first `pageSize` items and a next page
        exists when more came back; a superseded request changes nothing. */
    method Resolve(id: nat, data: seq<T>)
      requires Valid() && id in inFlight
      modifies this
      ensures Valid()
      ensures inFlight == old(inFlight) - {id}
      ensures old(IsCurrent(id)) ==>
        items == Take(data, pageSize) && hasMore == (|data| > pageSize) && !isLoading && error == old(error)
      ensures !old(IsCurrent(id)) ==>
        items == old(items) && hasMore == old(hasMore) && isLoading == old(isLoading) && error == old(error)
      ensures currentPage == old(currentPage) && currentRequestId == old(currentRequestId)
      ensures isUnmounted == old(isUnmounted)
    {
      inFlight := inFlight - {id};
      if isUnmounted || id != currentRequestId {
        return;
      }
      hasMore := |data| > pageSize;
      items := Take(data, pageSize);
      isLoading := false;
    }

    /** The fetch of request `id` rejected with `e`: for the current request
        the error shows the thrown message or the fallback. */
    method Reject(id: nat, e: Thrown)
      requires Valid() && id in inFlight
      modifies this
      ensures Valid()
      ensures inFlight == old(inFlight) - {id}
      ensures old(IsCurrent(id)) ==> error == Some(GetErrorMessage(e, errorMessage)) && !isLoading
      ensures !old(IsCurrent(id)) ==> error == old(error) && isLoading == old(isLoading)
      ensures items == old(items) && hasMore == old(hasMore)
      ensures currentPage == old(currentPage) && currentRequestId == old(currentRequestId)
      ensures isUnmounted == old(isUnmounted)
    {
      inFlight := inFlight - {id};
      if isUnmounted || id != currentRequestId {
        return;
      }
      error := Some(GetErrorMessage(e, errorMessage));
      isLoading := false;
    }

    /** Whether `goToPage(page)` moves: not while loading, not below page
        one, and not forward past the last page. */
    predicate MayGoTo(page: int)
      reads this
    {
      !isLoading && page >= 1 && !(page > currentPage && !hasMore)
    }

    /** `goToPage`: moves and starts a load, or does nothing. */
    method GoToPage(page: int) returns (started: Option<(nat, PaginationParams)>)
      requires Valid()
      modifies this
      ensures Valid()
      ensures started.Some? <==> old(MayGoTo(page))
      ensures started.Some? ==>
        currentPage == page && started.value.0 == currentRequestId == old(currentRequestId) + 1
        && started.value.1 == RequestParams(pageSize, page, sortBy, order)
        && isLoading && error.None? && inFlight == old(inFlight) + {started.value.0}
        && items == old(items) && hasMore == old(hasMore)
      ensures started.None? ==>
        currentPage == old(currentPage) && currentRequestId == old(currentRequestId)
        && isLoading == old(isLoading) && error == old(error) && inFlight == old(inFlight)
        && items == old(items) && hasMore == old(hasMore)
      ensures isUnmounted == old(isUnmounted)
    {
      if isLoading {
        return None;
      }
      if page < 1 {
        return None;
      }
      if page > currentPage && !hasMore {
        return None;
      }
      currentPage := page;
      var id, params := Load();
      started := Some((id, params));
    }

    /** `nextPage`: one page forward when a next page exists. */
    method NextPage() returns (started: Option<(nat, PaginationParams)>)
      requires Valid()
      modifies this
      ensures Valid()
      ensures started.Some? <==> old(hasMore && !isLoading)
      ensures started.Some? ==>
        currentPage == old(currentPage) + 1 && started.value.0 == currentRequestId == old(currentRequestId) + 1
        && started.value.1 == RequestParams(pageSize, old(currentPage) + 1, sortBy, order)
        && isLoading && error.None? && inFlight == old(inFlight) + {started.value.0}
      ensures started.None? ==>
        currentPage == old(currentPage) && currentRequestId == old(currentRequestId)
        && isLoading == old(isLoading) && error == old(error) && inFlight == old(inFlight)
      ensures items == old(items) && hasMore == old(hasMore) && isUnmounted == old(isUnmounted)
    {
      started := None;
      if hasMore {
        started := GoToPage(currentPage + 1);
      }
    }

    /** `previousPage`: one page back when not on the first. */
    method PreviousPage() returns (started: Option<(nat, PaginationParams)>)
      requires Valid()
      modifies this
      ensures Valid()
      ensures started.Some? <==> old(currentPage > 1 && !isLoading)
      ensures started.Some? ==>
        currentPage == old(currentPage) - 1 && started.value.0 == currentRequestId == old(currentRequestId) + 1
        && started.value.1 == RequestParams(pageSize, old(currentPage) - 1, sortBy, order)
        && isLoading && error.None? && inFlight == old(inFlight) + {started.value.0}
      ensures started.None? ==>
        currentPage == old(currentPage) && currentRequestId == old(currentRequestId)
        && isLoading == old(isLoading) && error == old(error) && inFlight == old(inFlight)
      ensures items == old(items) && hasMore == old(hasMore) && isUnmounted == old(isUnmounted)
    {
      started := None;
      if currentPage > 1 {
        started := GoToPage(currentPage - 1);
      }
    }

    /** `refresh`: reloads the current page, even while loading. */
    method Refresh() returns (id: nat, params: PaginationParams)
      requires Valid()
      modifies this
      ensures Valid()
      ensures id == currentRequestId == old(currentRequestId) + 1
      ensures params == RequestParams(pageSize, currentPage, sortBy, order)
      ensures isLoading && error.None? && inFlight == old(inFlight) + {id}
      ensures items == old(items) && currentPage == old(currentPage) && hasMore == old(hasMore)
      ensures isUnmounted == old(isUnmounted)
    {
      id, params := Load();
    }

    /** The unmount hook: every later settlement is ignored. */
    method Unmount()
      requires Valid()
      modifies this
      ensures Valid()
      ensures isUnmounted
      ensures items == old(items) && currentPage == old(currentPage) && hasMore == old(hasMore)
      ensures isLoading == old(isLoading) && error == old(error)
      ensures currentRequestId == old(currentRequestId) && inFlight == old(inFlight)
    {
      isUnmounted := true;
    }
  }

  /** Two loads overlap and the older answer arrives last: the list shows the
      newer answer and is no longer loading. */
  method OutOfOrderAnswers<T>(older: seq<T>, newer: seq<T>) returns (shown: seq<T>, loading: bool)
    ensures shown == Take(newer, DefaultPageSize) && !loading
  {
    var list := new Pagination<T>();
    var first, _ := list.Load();
    var second, _ := list.Refresh();
    list.Resolve(second, newer);
    list.Resolve(first, older);
    shown, loading := list.items, list.isLoading;
  }

  /** A request that fails after the list was unmounted leaves it as it was. */
  method AnswerAfterUnmount<T>(e: Thrown) returns (shown: seq<T>, error: Option<string>)
    ensures shown == [] && error.None?
  {
    var list := new Pagination<T>();
    var id, _ := list.Load();
    list.Unmount();
    list.Reject(id, e);
    shown, error := list.items, list.error;
  }
}
