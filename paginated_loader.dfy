/** The generic "load the next page, append, track exhaustion" cursor of
    src/hooks/common/usePaginatedLoader.ts. The pure functions below give the
    cursor's behaviour step by step; class Loader holds the five state cells and
    is proved to follow them. */
module PaginatedLoader {
  import opened Base

  const DefaultPageSize := 20

  /** The options the caller may pass; `None` is an option left undefined. */
  datatype Options = Options(pageSize: Option<int>, autoLoad: Option<bool>, autoLoadOnQueryChange: Option<bool>, enabled: Option<bool>)

  /** The destructuring defaults: page size 20, and every flag on. */
  function PageSizeOf(o: Options): (r: int)
    ensures o.pageSize.Some? ==> r == o.pageSize.value
    ensures o.pageSize.None? ==> r == DefaultPageSize
  {
    if o.pageSize.Some? then o.pageSize.value else DefaultPageSize
  }

  function FlagOr(flag: Option<bool>): (r: bool)
    ensures r <==> flag != Some(false)
  {
    if flag.Some? then flag.value else true
  }

  /** A page size of -1 asks the backend for everything in one page. */
  const Unlimited := -1

  /** The five state cells of the hook. */
  datatype Cursor<T> = Cursor(data: seq<T>, page: int, hasMore: bool, loading: bool, initialized: bool)

  function Initial<T>(): Cursor<T>
  {
    Cursor([], 1, true, false, false)
  }

  /** The guard of loadMore: enabled, not already loading, not exhausted. */
  predicate CanLoad<T>(c: Cursor<T>, enabled: bool)
  {
    enabled && !c.loading && c.hasMore
  }

  /** Whether more pages remain after one that returned `fetched` items. */
  function MoreAfter(pageSize: int, fetched: nat): (r: bool)
    ensures pageSize == Unlimited ==> !r
    ensures pageSize != Unlimited ==> (r <==> fetched >= pageSize)
  {
    if pageSize == Unlimited then false else fetched >= pageSize
  }

  /** loadMore up to its `await`: the fetch is in flight. */
  function Begin<T>(c: Cursor<T>): (r: Cursor<T>)
  {
    c.(loading := true)
  }

  /** The fetched list arrived: append it, advance the page, recompute hasMore. */
  function Complete<T>(c: Cursor<T>, list: seq<T>, pageSize: int): (r: Cursor<T>)
  {
    Cursor(c.data + list, c.page + 1, MoreAfter(pageSize, |list|), false, true)
  }

  /** The fetch threw: only the `finally` runs. */
  function Fail<T>(c: Cursor<T>): (r: Cursor<T>)
  {
    c.(loading := false)
  }

  /** One whole loadMore call whose fetch yields `outcome` (None: it threw). */
  function AfterLoadMore<T>(c: Cursor<T>, enabled: bool, pageSize: int, outcome: Option<seq<T>>): (r: Cursor<T>)
    ensures !CanLoad(c, enabled) ==> r == c
    ensures CanLoad(c, enabled) && outcome.Some? ==>
      && r.data == c.data + outcome.value
      && r.page == c.page + 1
      && r.initialized
      && r.hasMore == (pageSize != Unlimited && |outcome.value| >= pageSize)
    ensures CanLoad(c, enabled) && outcome.None? ==> r == c
    ensures !c.loading ==> !r.loading
  {
    if !CanLoad(c, enabled) then c
    else match outcome
      case Some(list) => Complete(Begin(c), list, pageSize)
      case None => Fail(Begin(c))
  }

  /** reset: back to the initial cursor when enabled; `loading` is not touched. */
  function AfterReset<T>(c: Cursor<T>, enabled: bool): (r: Cursor<T>)
    ensures enabled ==> r == Initial<T>().(loading := c.loading)
    ensures !enabled ==> r == c
  {
    if !enabled then c
    else c.(data := [], page := 1, hasMore := true, initialized := false)
  }

  /** reload = reset followed by loadMore. */
  function AfterReload<T>(c: Cursor<T>, enabled: bool, pageSize: int, outcome: Option<seq<T>>): (r: Cursor<T>)
  {
    AfterLoadMore(AfterReset(c, enabled), enabled, pageSize, outcome)
  }

  /** reload as the hook's closures run it: reset's setters are only queued, so the
      loadMore it calls still reads the rendered `loading`, `hasMore` and `page`.
      The guard uses those, the rendered page is requested, and loadMore's updater
      setters apply after reset's, so the fetched list lands in the emptied data. */
  function AfterReloadAsWritten<T>(c: Cursor<T>, enabled: bool, pageSize: int, outcome: Option<seq<T>>): (r: Cursor<T>)
    ensures !enabled ==> r == c
    ensures enabled && !CanLoad(c, true) ==> r == AfterReset(c, true)
    ensures enabled && CanLoad(c, true) && outcome.Some? ==> r.data == outcome.value && r.page == 2
  {
    if !enabled then c
    else if !CanLoad(c, true) then AfterReset(c, true)
    else match outcome
      case Some(list) => Complete(AfterReset(c, true), list, pageSize)
      case None => AfterReset(c, true)
  }

  /** The page that reload requests as written: the rendered one, when the stale guard passes. */
  function ReloadRequestAsWritten<T>(c: Cursor<T>, enabled: bool): (r: Option<int>)
    ensures r.Some? <==> CanLoad(c, enabled)
    ensures r.Some? ==> r.value == c.page
  {
    if CanLoad(c, enabled) then Some(c.page) else None
  }

  /** The input that shows it: after an exhausted first page, the reload as written
      empties the list and fetches nothing, while reset followed by a load of page 1
      shows that page again. */
  lemma ReloadAsWrittenEmptiesExhaustedList(c: Cursor<int>)
    requires c == Cursor([7], 2, false, false, true)
    ensures ReloadRequestAsWritten(c, true).None?
    ensures AfterReloadAsWritten(c, true, DefaultPageSize, Some([7])).data == []
    ensures AfterReload(c, true, DefaultPageSize, Some([7])).data == [7]
  {
    assert AfterReset(c, true) == Cursor([], 1, true, false, false);
  }

  /** As written, a reload after two loaded pages requests page 3, not page 1. */
  lemma ReloadAsWrittenRequestsRenderedPage<T>(c: Cursor<T>)
    requires CanLoad(c, true) && c.page > 1
    ensures ReloadRequestAsWritten(c, true) == Some(c.page) && c.page != 1
  {
  }

  /** Whatever was accumulated, a reload while idle behaves as a first load on a
      cursor that never had data. */
  lemma ReloadIsFreshStart<T>(c: Cursor<T>, pageSize: int, outcome: Option<seq<T>>)
    requires !c.loading
    ensures AfterReload(c, true, pageSize, outcome) == AfterLoadMore(Initial(), true, pageSize, outcome)
  {
  }

  /** A reload during an in-flight fetch only clears the data: `loading` is still
      set, so its loadMore is suppressed. */
  lemma ReloadWhileLoadingOnlyClears<T>(c: Cursor<T>, pageSize: int, outcome: Option<seq<T>>)
    requires c.loading
    ensures AfterReload(c, true, pageSize, outcome) == Initial<T>().(loading := true)
  {
  }

  /** A sequence of loadMore calls, each resolving with the next outcome. */
  function AfterLoads<T>(c: Cursor<T>, enabled: bool, pageSize: int, outcomes: seq<Option<seq<T>>>): Cursor<T>
    decreases |outcomes|
  {
    if outcomes == [] then c
    else AfterLoads(AfterLoadMore(c, enabled, pageSize, outcomes[0]), enabled, pageSize, outcomes[1..])
  }

  /** The concatenation of the lists of a sequence of outcomes. */
  function Fetched<T>(outcomes: seq<Option<seq<T>>>): seq<T>
  {
    if outcomes == [] then []
    else (if outcomes[0].Some? then outcomes[0].value else []) + Fetched(outcomes[1..])
  }

  /** Once hasMore is false, no number of loadMore calls changes anything. */
  lemma {:induction false} ExhaustedIsFinal<T>(c: Cursor<T>, enabled: bool, pageSize: int, outcomes: seq<Option<seq<T>>>)
    requires !c.hasMore
    ensures AfterLoads(c, enabled, pageSize, outcomes) == c
    decreases |outcomes|
  {
    if outcomes != [] {
      ExhaustedIsFinal(c, enabled, pageSize, outcomes[1..]);
    }
  }

  /** While every page comes back full, hasMore stays true, the page counter
      advances once per call and the data is the pages in arrival order. */
  lemma {:induction false} FullPagesKeepLoading<T>(c: Cursor<T>, pageSize: int, outcomes: seq<Option<seq<T>>>)
    requires CanLoad(c, true) && pageSize != Unlimited
    requires forall i :: 0 <= i < |outcomes| ==> outcomes[i].Some? && |outcomes[i].value| >= pageSize
    ensures var r := AfterLoads(c, true, pageSize, outcomes);
      && CanLoad(r, true)
      && r.page == c.page + |outcomes|
      && r.data == c.data + Fetched(outcomes)
      && r.initialized == (c.initialized || |outcomes| > 0)
    decreases |outcomes|
  {
    if outcomes != [] {
      var c' := AfterLoadMore(c, true, pageSize, outcomes[0]);
      assert forall i :: 0 <= i < |outcomes[1..]| ==> outcomes[1..][i] == outcomes[i + 1];
      FullPagesKeepLoading(c', pageSize, outcomes[1..]);
      assert c.data + Fetched(outcomes) == c'.data + Fetched(outcomes[1..]);
    }
  }

  /** A short page (or any page when the size is unlimited) exhausts the cursor,
      and every later loadMore is a no-op. */
  lemma ShortPageThenNoOps<T>(c: Cursor<T>, pageSize: int, list: seq<T>, later: seq<Option<seq<T>>>)
    requires CanLoad(c, true)
    requires pageSize == Unlimited || |list| < pageSize
    ensures var r := AfterLoadMore(c, true, pageSize, Some(list));
      && !r.hasMore
      && r.data == c.data + list
      && AfterLoads(c, true, pageSize, [Some(list)] + later) == r
  {
    var r := AfterLoadMore(c, true, pageSize, Some(list));
    assert ([Some(list)] + later)[1..] == later;
    ExhaustedIsFinal(r, true, pageSize, later);
  }

  /** Failed fetches are invisible: a failure in between changes nothing. */
  lemma FailureIsRetryable<T>(c: Cursor<T>, enabled: bool, pageSize: int, outcome: Option<seq<T>>)
    ensures AfterLoads(c, enabled, pageSize, [None, outcome]) == AfterLoadMore(c, enabled, pageSize, outcome)
  {
    var c' := AfterLoadMore(c, enabled, pageSize, None);
    assert c' == c;
    assert [None, outcome][1..] == [outcome];
    assert [outcome][1..] == [];
    assert AfterLoads(c, enabled, pageSize, [None, outcome]) == AfterLoads(c', enabled, pageSize, [outcome]);
    var r := AfterLoadMore(c, enabled, pageSize, outcome);
    assert AfterLoads(c, enabled, pageSize, [outcome]) == AfterLoads(r, enabled, pageSize, []);
  }

  /** The hook's state cells and configuration. */
  class Loader<T> {
    var data: seq<T>
    var page: int
    var hasMore: bool
    var loading: bool
    var initialized: bool
    var enabled: bool
    const pageSize: int
    const autoLoad: bool
    const autoLoadOnQueryChange: bool

    function State(): Cursor<T>
      reads this
    {
      Cursor(data, page, hasMore, loading, initialized)
    }

    constructor (options: Options)
      ensures State() == Initial()
      ensures pageSize == PageSizeOf(options) && autoLoad == FlagOr(options.autoLoad)
      ensures autoLoadOnQueryChange == FlagOr(options.autoLoadOnQueryChange) && enabled == FlagOr(options.enabled)
    {
      data, page, hasMore, loading, initialized := [], 1, true, false, false;
      pageSize := PageSizeOf(options);
      autoLoad := FlagOr(options.autoLoad);
      autoLoadOnQueryChange := FlagOr(options.autoLoadOnQueryChange);
      enabled := FlagOr(options.enabled);
    }

    /** loadMore up to its `await`. Returns the page requested from the backend,
        or None when the guard returns without a fetch. */
    method BeginLoad() returns (request: Option<int>)
      modifies this
      ensures request == if CanLoad(old(State()), enabled) then Some(old(page)) else None
      ensures State() == if request.Some? then Begin(old(State())) else old(State())
      ensures enabled == old(enabled)
    {
      if !enabled || loading || !hasMore {
        return None;
      }
      request := Some(page);
      loading := true;
    }

    /** The fetch of an earlier BeginLoad resolved with `list`. */
    method CompleteLoad(list: seq<T>)
      requires loading
      modifies this
      ensures State() == Complete(old(State()), list, pageSize)
      ensures enabled == old(enabled)
    {
      data := data + list;
      hasMore := if pageSize == Unlimited then false else |list| >= pageSize;
      page := page + 1;
      initialized := true;
      loading := false;
    }

    /** The fetch of an earlier BeginLoad threw. */
    method FailLoad()
      requires loading
      modifies this
      ensures State() == Fail(old(State()))
      ensures enabled == old(enabled)
    {
      loading := false;
    }

    /** A whole loadMore call whose fetch yields `outcome` (None: it threw). */
    method LoadMore(outcome: Option<seq<T>>) returns (request: Option<int>)
      modifies this
      ensures request == if CanLoad(old(State()), enabled) then Some(old(page)) else None
      ensures State() == AfterLoadMore(old(State()), enabled, pageSize, outcome)
      ensures enabled == old(enabled)
    {
      request := BeginLoad();
      if request.Some? {
        match outcome
        case Some(list) => CompleteLoad(list);
        case None => FailLoad();
      }
    }

    method Reset()
      modifies this
      ensures State() == AfterReset(old(State()), enabled)
      ensures enabled == old(enabled)
    {
      if !enabled {
        return;
      }
      data := [];
      page := 1;
      hasMore := true;
      initialized := false;
    }

    method Reload(outcome: Option<seq<T>>) returns (request: Option<int>)
      modifies this
      ensures State() == AfterReload(old(State()), enabled, pageSize, outcome)
      ensures request == if enabled && !old(loading) then Some(1) else None
      ensures enabled == old(enabled)
    {
      Reset();
      request := LoadMore(outcome);
    }

    /** The effect that runs when the query changes: reset, then load when so configured. */
    method OnQueryChange(outcome: Option<seq<T>>) returns (request: Option<int>)
      modifies this
      ensures State() == if !enabled then old(State())
                         else if autoLoadOnQueryChange then AfterReload(old(State()), true, pageSize, outcome)
                         else AfterReset(old(State()), true)
      ensures enabled == old(enabled)
    {
      request := None;
      if !enabled {
        return;
      }
      Reset();
      if autoLoadOnQueryChange {
        request := LoadMore(outcome);
      }
    }

    /** The `enabled` option changes (for the closed-conversation list: the tab
        switches to or away from "2"); the mount effect loads when it becomes true. */
    method SetEnabled(e: bool, outcome: Option<seq<T>>) returns (request: Option<int>)
      modifies this
      ensures enabled == e
      ensures State() == if e && e != old(enabled) && autoLoad
                         then AfterLoadMore(old(State()), true, pageSize, outcome)
                         else old(State())
    {
      var changed := e != enabled;
      enabled := e;
      request := None;
      if changed && e && autoLoad {
        request := LoadMore(outcome);
      }
    }
  }
}
