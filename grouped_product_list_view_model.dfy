/**
 * The view-model of the grouped-product screen: the published product list,
 * the view state (two optional flags updated by `copy`), the one-shot events
 * it triggers and the calls it makes into the product repository.
 *
 * The repository and the network status are not part of this model: what they
 * answer is passed in (`cached`, `connected`, `fetched`), and each call the
 * view-model makes is recorded in `repositoryCalls`. The coroutine that runs
 * the fetch is taken as a plain sequential call.
 */
module GroupedProductViewModel {
  import opened Options
  import opened Products

  /** `GroupedProductListViewState`; null means "not set". */
  datatype ViewState = ViewState(isSkeletonShown: Option<bool>, isLoadingMore: Option<bool>)

  /** The string resources the view-model shows. */
  datatype Message = OfflineError

  /** The events it triggers. */
  datatype Event = ShowSnackbar(message: Message)

  /** The calls it makes into `GroupedProductListRepository`. */
  datatype RepositoryCall =
    | GetGroupedProductList(ids: seq<int>)
    | FetchGroupedProductList(ids: seq<int>, loadMore: bool)
    | OnCleanup

  /** Everything the view-model holds that can change. */
  datatype VmState = VmState(
    productList: Option<seq<Product>>,
    viewState: ViewState,
    events: seq<Event>,
    calls: seq<RepositoryCall>
  )

  /**
   * The first half of `loadGroupedProducts`: read the cache; publish a
   * non-empty cached list and hide the skeleton, or else show the skeleton.
   * `copy` touches the skeleton flag only.
   */
  function ReadCache(s: VmState, ids: seq<int>, cached: seq<Product>): (r: VmState)
    ensures r.calls == s.calls + [GetGroupedProductList(ids)]
    ensures r.events == s.events
    ensures |cached| > 0 ==> r.productList == Some(cached) && r.viewState.isSkeletonShown == Some(false)
    ensures |cached| == 0 ==> r.productList == s.productList && r.viewState.isSkeletonShown == Some(true)
    ensures r.viewState.isLoadingMore == s.viewState.isLoadingMore
  {
    var asked := s.(calls := s.calls + [GetGroupedProductList(ids)]);
    if |cached| > 0 then
      asked.(productList := Some(cached), viewState := asked.viewState.(isSkeletonShown := Some(false)))
    else
      asked.(viewState := asked.viewState.(isSkeletonShown := Some(true)))
  }

  /**
   * `fetchProductReviews`: when connected, the list becomes the fetched one;
   * when offline, the list stays and one offline snackbar is triggered; either
   * way both flags end up false.
   */
  function Fetch(s: VmState, ids: seq<int>, loadMore: bool, connected: bool, fetched: seq<Product>): (r: VmState)
    ensures r.viewState == ViewState(Some(false), Some(false))
    ensures connected ==> r.productList == Some(fetched)
    ensures connected ==> r.events == s.events
    ensures connected ==> r.calls == s.calls + [FetchGroupedProductList(ids, loadMore)]
    ensures !connected ==> r.productList == s.productList
    ensures !connected ==> r.events == s.events + [ShowSnackbar(OfflineError)]
    ensures !connected ==> r.calls == s.calls
  {
    var fetchedOrNotified :=
      if connected then
        s.(productList := Some(fetched), calls := s.calls + [FetchGroupedProductList(ids, loadMore)])
      else
        s.(events := s.events + [ShowSnackbar(OfflineError)]);
    fetchedOrNotified.(viewState := fetchedOrNotified.viewState.(isSkeletonShown := Some(false), isLoadingMore := Some(false)))
  }

  /** `loadGroupedProducts`: read the cache, then always fetch without `loadMore`. */
  function Load(s: VmState, ids: seq<int>, cached: seq<Product>, connected: bool, fetched: seq<Product>): VmState
  {
    Fetch(ReadCache(s, ids, cached), ids, false, connected, fetched)
  }

  /**
   * What a load leaves behind, whatever the cache held: the cache is read
   * once, the repository is asked for a non-load-more fetch exactly when
   * connected, the list is the fetched one online and the cached one (if
   * any) offline, at most one offline event is added, and both flags are false.
   */
  lemma LoadOutcome(s: VmState, ids: seq<int>, cached: seq<Product>, connected: bool, fetched: seq<Product>)
    ensures var r := Load(s, ids, cached, connected, fetched);
      && r.calls == s.calls + [GetGroupedProductList(ids)] +
                    (if connected then [FetchGroupedProductList(ids, false)] else [])
      && r.productList == (if connected then Some(fetched)
                           else if |cached| > 0 then Some(cached)
                           else s.productList)
      && r.events == s.events + (if connected then [] else [ShowSnackbar(OfflineError)])
      && r.viewState == ViewState(Some(false), Some(false))
  {
  }

  /**
   * Events are only ever appended by a fetch: the earlier ones are kept, in
   * order, and each added one is the offline snackbar.
   */
  lemma FetchOnlyAppendsOfflineEvents(s: VmState, ids: seq<int>, loadMore: bool, connected: bool, fetched: seq<Product>)
    ensures var r := Fetch(s, ids, loadMore, connected, fetched);
      && |s.events| <= |r.events| <= |s.events| + 1
      && r.events[..|s.events|] == s.events
      && forall k :: |s.events| <= k < |r.events| ==> r.events[k] == ShowSnackbar(OfflineError)
  {
  }

  /** The state a freshly constructed view-model starts from. */
  function Fresh(savedViewState: ViewState): VmState {
    VmState(None, savedViewState, [], [])
  }

  /**
   * Cache empty, then a connected fetch returning `fetched`: the skeleton was
   * shown after the cache read, and at the end `fetched` is published with both
   * flags false and no event.
   */
  lemma ColdStartOnline(ids: seq<int>, savedViewState: ViewState, fetched: seq<Product>)
    ensures ReadCache(Fresh(savedViewState), ids, []).viewState.isSkeletonShown == Some(true)
    ensures ReadCache(Fresh(savedViewState), ids, []).productList == None
    ensures var r := Load(Fresh(savedViewState), ids, [], true, fetched);
      r.productList == Some(fetched) && r.viewState == ViewState(Some(false), Some(false)) && r.events == []
  {
  }

  /**
   * Cached products while offline: they are published at once with the
   * skeleton hidden, and the fetch leaves them published and triggers exactly
   * one offline snackbar.
   */
  lemma WarmStartOffline(ids: seq<int>, savedViewState: ViewState, cached: seq<Product>, fetched: seq<Product>)
    requires |cached| > 0
    ensures ReadCache(Fresh(savedViewState), ids, cached).productList == Some(cached)
    ensures ReadCache(Fresh(savedViewState), ids, cached).viewState.isSkeletonShown == Some(false)
    ensures var r := Load(Fresh(savedViewState), ids, cached, false, fetched);
      r.productList == Some(cached) && r.events == [ShowSnackbar(OfflineError)] &&
      r.calls == [GetGroupedProductList(ids)]
  {
  }

  /**
   * The `init` guard tests whether a list was published; a load with an empty
   * cache that is offline publishes none, so the guard would let a later load
   * through. (It runs once per construction, so this does not arise in the app.)
   */
  lemma ColdStartOfflinePublishesNothing(ids: seq<int>, savedViewState: ViewState, fetched: seq<Product>)
    ensures Load(Fresh(savedViewState), ids, [], false, fetched).productList == None
  {
  }

  class GroupedProductListViewModel {
    /** `navArgs.groupedProductIds`. */
    const groupedProductIds: seq<int>
    /** `_productList.value`; null until something is published. */
    var productList: Option<seq<Product>>
    /** `productListViewState`. */
    var viewState: ViewState
    /** The events passed to `triggerEvent`, in order. */
    var events: seq<Event>
    /** The calls made into the repository, in order. */
    var repositoryCalls: seq<RepositoryCall>

    function State(): VmState
      reads this
    {
      VmState(productList, viewState, events, repositoryCalls)
    }

    /**
     * Construction, with its `init` block. `savedViewState` is the value the
     * view-state delegate starts from (its default `GroupedProductListViewState()`
     * or one restored from saved state). The cache and the fetch each run once.
     */
    constructor(groupedProductIds: seq<int>, savedViewState: ViewState,
                cached: seq<Product>, connected: bool, fetched: seq<Product>)
      ensures this.groupedProductIds == groupedProductIds
      ensures State() == Load(Fresh(savedViewState), groupedProductIds, cached, connected, fetched)
    {
      this.groupedProductIds := groupedProductIds;
      productList := None;
      viewState := savedViewState;
      events := [];
      repositoryCalls := [];
      new;
      Init(cached, connected, fetched);
    }

    /** The `init` block: load only while no list has been published. */
    method Init(cached: seq<Product>, connected: bool, fetched: seq<Product>)
      modifies this
      ensures old(productList).None? ==> State() == Load(old(State()), groupedProductIds, cached, connected, fetched)
      ensures old(productList).Some? ==> State() == old(State())
    {
      if productList.None? {
        LoadGroupedProducts(cached, connected, fetched);
      }
    }

    /** `loadGroupedProducts`. */
    method LoadGroupedProducts(cached: seq<Product>, connected: bool, fetched: seq<Product>)
      modifies this
      ensures State() == Load(old(State()), groupedProductIds, cached, connected, fetched)
      ensures viewState.isLoadingMore == Some(false) && viewState.isSkeletonShown == Some(false)
    {
      var ids := groupedProductIds;
      repositoryCalls := repositoryCalls + [GetGroupedProductList(ids)];
      var productsInDb := cached;
      if |productsInDb| > 0 {
        productList := Some(productsInDb);
        viewState := viewState.(isSkeletonShown := Some(false));
      } else {
        viewState := viewState.(isSkeletonShown := Some(true));
      }
      FetchProductReviews(ids, false, connected, fetched);
    }

    /** `fetchProductReviews`. */
    method FetchProductReviews(ids: seq<int>, loadMore: bool, connected: bool, fetched: seq<Product>)
      modifies this
      ensures State() == Fetch(old(State()), ids, loadMore, connected, fetched)
    {
      if connected {
        repositoryCalls := repositoryCalls + [FetchGroupedProductList(ids, loadMore)];
        productList := Some(fetched);
      } else {
        events := events + [ShowSnackbar(OfflineError)];
      }
      viewState := viewState.(isSkeletonShown := Some(false), isLoadingMore := Some(false));
    }

    /** `onCleared`: release the repository's resources. */
    method OnCleared()
      modifies this`repositoryCalls
      ensures repositoryCalls == old(repositoryCalls) + [OnCleanup]
    {
      repositoryCalls := repositoryCalls + [OnCleanup];
    }
  }
}
