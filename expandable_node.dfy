/** A tree node that loads its children lazily when first expanded and, with
    caching on, never again. As for the paginated list, a load is split into
    its start and its settlement, which carry the request's number. */
module UseExpandableNode {
  import opened Wrappers
  import opened Errors
  import opened ErrorMessages

  class ExpandableNode<T> {
    const errorMessage: string
    const cache: bool

    var isExpanded: bool
    var isLoading: bool
    var items: seq<T>
    var error: Option<string>
    var hasLoaded: bool
    var isUnmounted: bool
    var currentRequestId: nat
    /** Requests started and not yet settled. */
    ghost var inFlight: set<nat>
    /** Requests a `toggleExpand` is waiting on; the expansion flips once they settle. */
    var awaitingToggle: set<nat>

    /** Requests are numbered from one; while mounted, the node is loading
        exactly while its newest request is out, and shows no error then. */
    ghost predicate Valid()
      reads this
    {
      (forall id :: id in inFlight ==> 1 <= id <= currentRequestId)
      && awaitingToggle <= inFlight
      && (!isUnmounted ==> (isLoading <==> currentRequestId in inFlight))
      && (!isUnmounted && currentRequestId in inFlight ==> error.None?)
    }

    constructor (errorMessage: string := LoadItems, cache: bool := true)
      ensures Valid()
      ensures this.errorMessage == errorMessage && this.cache == cache
      ensures !isExpanded && !isLoading && items == [] && error.None? && !hasLoaded
      ensures !isUnmounted && currentRequestId == 0 && inFlight == {} && awaitingToggle == {}
    {
      this.errorMessage := errorMessage;
      this.cache := cache;
      isExpanded := false;
      isLoading := false;
      items := [];
      error := None;
      hasLoaded := false;
      isUnmounted := false;
      currentRequestId := 0;
      inFlight := {};
      awaitingToggle := {};
    }

    /** Whether expanding or collapsing fetches: nothing loaded yet or no
        caching, and no load running. */
    predicate ToggleLoads()
      reads this
    {
      (!hasLoaded || !cache) && !isLoading
    }

    /** `load`, up to the call of the load function. */
    method Load() returns (id: nat)
      requires Valid()
      modifies this
      ensures Valid()
      ensures id == currentRequestId == old(currentRequestId) + 1
      ensures inFlight == old(inFlight) + {id} && awaitingToggle == old(awaitingToggle)
      ensures isLoading && error.None?
      ensures items == old(items) && hasLoaded == old(hasLoaded) && isExpanded == old(isExpanded)
      ensures isUnmounted == old(isUnmounted)
    {
      currentRequestId := currentRequestId + 1;
      id := currentRequestId;
      isLoading := true;
      error := None;
      inFlight := inFlight + {id};
    }

    /** `toggleExpand`: either starts a load and flips the expansion once it
        settles, or flips it now (when still mounted). */
    method ToggleExpand() returns (started: Option<nat>)
      requires Valid()
      modifies this
      ensures Valid()
      ensures started.Some? <==> old(ToggleLoads())
      ensures started.Some? ==>
        started.value == currentRequestId == old(currentRequestId) + 1
        && inFlight == old(inFlight) + {started.value}
        && awaitingToggle == old(awaitingToggle) + {started.value}
        && isLoading && error.None? && isExpanded == old(isExpanded)
      ensures started.None? ==>
        isExpanded == (if isUnmounted then old(isExpanded) else !old(isExpanded))
        && currentRequestId == old(currentRequestId) && inFlight == old(inFlight)
        && awaitingToggle == old(awaitingToggle)
        && isLoading == old(isLoading) && error == old(error)
      ensures items == old(items) && hasLoaded == old(hasLoaded) && isUnmounted == old(isUnmounted)
    {
      if (!hasLoaded || !cache) && !isLoading {
        var id := Load();
        awaitingToggle := awaitingToggle + {id};
        return Some(id);
      }
      if !isUnmounted {
        isExpanded := !isExpanded;
      }
      return None;
    }

    /** Whether a settled request still counts. */
    predicate IsCurrent(id: nat)
      reads this
    {
      !isUnmounted && id == currentRequestId
    }

    /** The expansion after request `id` settles: flipped when a toggle waits
        on it and the node is mounted. */
    function ExpandedAfter(id: nat): bool
      reads this
    {
      if id in awaitingToggle && !isUnmounted then !isExpanded else isExpanded
    }

    /** The load of request `id` resolved with `data`: the current request
        stores the items and marks the node loaded. */
    method Resolve(id: nat, data: seq<T>)
      requires Valid() && id in inFlight
      modifies this
      ensures Valid()
      ensures inFlight == old(inFlight) - {id} && awaitingToggle == old(awaitingToggle) - {id}
      ensures old(IsCurrent(id)) ==> items == data && hasLoaded && !isLoading && error == old(error)
      ensures !old(IsCurrent(id)) ==>
        items == old(items) && hasLoaded == old(hasLoaded) && isLoading == old(isLoading) && error == old(error)
      ensures isExpanded == old(ExpandedAfter(id))
      ensures currentRequestId == old(currentRequestId) && isUnmounted == old(isUnmounted)
    {
      inFlight := inFlight - {id};
      if !isUnmounted && id == currentRequestId {
        items := data;
        hasLoaded := true;
        isLoading := false;
      }
      FinishToggle(id);
    }

    /** The load of request `id` rejected with `e`: the current request shows
        the thrown message or the fallback. */
    method Reject(id: nat, e: Thrown)
      requires Valid() && id in inFlight
      modifies this
      ensures Valid()
      ensures inFlight == old(inFlight) - {id} && awaitingToggle == old(awaitingToggle) - {id}
      ensures old(IsCurrent(id)) ==> error == Some(GetErrorMessage(e, errorMessage)) && !isLoading
      ensures !old(IsCurrent(id)) ==> error == old(error) && isLoading == old(isLoading)
      ensures items == old(items) && hasLoaded == old(hasLoaded)
      ensures isExpanded == old(ExpandedAfter(id))
      ensures currentRequestId == old(currentRequestId) && isUnmounted == old(isUnmounted)
    {
      inFlight := inFlight - {id};
      if !isUnmounted && id == currentRequestId {
        error := Some(GetErrorMessage(e, errorMessage));
        isLoading := false;
      }
      FinishToggle(id);
    }

    /** The rest of a `toggleExpand` that waited on request `id`. */
    method FinishToggle(id: nat)
      modifies this
      ensures awaitingToggle == old(awaitingToggle) - {id}
      ensures isExpanded == old(ExpandedAfter(id))
      ensures isLoading == old(isLoading) && items == old(items) && error == old(error)
      ensures hasLoaded == old(hasLoaded) && isUnmounted == old(isUnmounted)
      ensures currentRequestId == old(currentRequestId) && inFlight == old(inFlight)
    {
      if id in awaitingToggle {
        awaitingToggle := awaitingToggle - {id};
        if !isUnmounted {
          isExpanded := !isExpanded;
        }
      }
    }

    /** The unmount hook. */
    method Unmount()
      requires Valid()
      modifies this
      ensures Valid()
      ensures isUnmounted
      ensures isExpanded == old(isExpanded) && isLoading == old(isLoading) && items == old(items)
      ensures error == old(error) && hasLoaded == old(hasLoaded)
      ensures currentRequestId == old(currentRequestId) && inFlight == old(inFlight)
      ensures awaitingToggle == old(awaitingToggle)
    {
      isUnmounted := true;
    }
  }

  /** With caching on, expanding, collapsing and expanding again loads once:
      only the first toggle starts a request, and the node ends expanded with
      the first answer. */
  method CachedReexpand<T>(data: seq<T>) returns (first: Option<nat>, second: Option<nat>, third: Option<nat>,
                                                  expanded: bool, shown: seq<T>)
    ensures first.Some? && second.None? && third.None?
    ensures expanded && shown == data
  {
    var node := new ExpandableNode<T>();
    first := node.ToggleExpand();
    node.Resolve(first.value, data);
    second := node.ToggleExpand();
    third := node.ToggleExpand();
    expanded, shown := node.isExpanded, node.items;
  }

  /** Without caching every expansion and collapse starts its own request,
      and the node shows the newest answer. */
  method UncachedReload<T>(firstItems: seq<T>, secondItems: seq<T>) returns (first: Option<nat>, second: Option<nat>,
                                                                            expanded: bool, shown: seq<T>)
    ensures first.Some? && second.Some? && first.value != second.value
    ensures !expanded && shown == secondItems
  {
    var node := new ExpandableNode<T>(cache := false);
    first := node.ToggleExpand();
    node.Resolve(first.value, firstItems);
    second := node.ToggleExpand();
    node.Resolve(second.value, secondItems);
    expanded, shown := node.isExpanded, node.items;
  }

  /** A failed first load still expands the node, shows the error and leaves
      it unloaded, so the next expansion retries. */
  method FailedLoadRetries<T>(e: Thrown) returns (expanded: bool, error: Option<string>, retries: bool)
    ensures expanded && error == Some(GetErrorMessage(e, LoadItems)) && retries
  {
    var node := new ExpandableNode<T>();
    var started := node.ToggleExpand();
    node.Reject(started.value, e);
    expanded, error := node.isExpanded, node.error;
    retries := node.ToggleLoads();
  }
}
