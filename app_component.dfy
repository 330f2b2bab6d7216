/**
 * The `App` component as an object: its state fields are updated in place by
 * its handlers, and the effects it sends out are appended to a log.
 */
module AppComponent {
  import opened GalleryState

  class App<Img> {
    var modal: Modal
    var images: seq<Img>
    var totalImages: int
    var searchQuery: string
    var currentPage: int
    var loading: bool
    var error: bool
    /** Requests sent to the search API and warnings shown, oldest first. */
    var effects: seq<Effect>

    /** The component's state as a value. */
    function Snapshot(): State<Img>
      reads this
    {
      State(modal, images, totalImages, searchQuery, currentPage, loading, error)
    }

    ghost predicate Valid()
      reads this
    {
      currentPage >= 1
    }

    constructor ()
      ensures Valid()
      ensures Snapshot() == Initial() && effects == []
    {
      modal := ClosedModal;
      images := [];
      totalImages := 0;
      searchQuery := "";
      currentPage := 1;
      loading := false;
      error := false;
      effects := [];
    }

    /** `fetchImages(query, page)` up to its await: raise `loading`, send the request. */
    method FetchImages(query: string, page: int)
      modifies this
      ensures loading && effects == old(effects) + [Fetch(query, page)]
      ensures modal == old(modal) && images == old(images) && totalImages == old(totalImages)
      ensures searchQuery == old(searchQuery) && currentPage == old(currentPage) && error == old(error)
    {
      loading := true;
      effects := effects + [Fetch(query, page)];
    }

    /** The rest of `fetchImages(query, _)`, once its request has settled with `response`. */
    method OnFetchSettled(query: string, response: Response<Img>)
      modifies this
      ensures !loading
      ensures response.Hits? && response.totalHits != 0 ==>
        images == old(images) + response.hits && totalImages == response.totalHits
        && error == old(error) && effects == old(effects)
      ensures response.Hits? && response.totalHits == 0 ==>
        images == old(images) && totalImages == old(totalImages)
        && error == old(error) && effects == old(effects) + [Warning(WarningMessage(query))]
      ensures response.Failure? ==>
        images == old(images) && totalImages == old(totalImages)
        && error && effects == old(effects)
      ensures modal == old(modal) && searchQuery == old(searchQuery) && currentPage == old(currentPage)
    {
      match response {
        case Hits(hits, totalHits) =>
          if totalHits == 0 {
            effects := effects + [Warning(WarningMessage(query))];
          } else {
            images := images + hits;
            totalImages := totalHits;
          }
        case Failure =>
          error := true;
      }
      loading := false;
    }

    /** `componentDidUpdate(_, prev)`: fetch the current query and page if either changed since `prev`. */
    method ComponentDidUpdate(prev: State<Img>)
      modifies this
      ensures FetchTriggered(prev, old(Snapshot())) ==>
        Snapshot() == old(Snapshot()).(loading := true)
        && effects == old(effects) + [Fetch(old(searchQuery), old(currentPage))]
      ensures !FetchTriggered(prev, old(Snapshot())) ==>
        Snapshot() == old(Snapshot()) && effects == old(effects)
    {
      if prev.searchQuery != searchQuery || prev.currentPage != currentPage {
        FetchImages(searchQuery, currentPage);
      }
    }

    /** `onSubmitSearch(query)`. */
    method OnSubmitSearch(query: string)
      modifies this
      ensures Valid()
      ensures searchQuery == query && images == [] && currentPage == 1
      ensures modal == old(modal) && totalImages == old(totalImages)
      ensures loading == old(loading) && error == old(error) && effects == old(effects)
    {
      searchQuery := query;
      images := [];
      currentPage := 1;
    }

    /** `onPageUpload()`: the page advances, and the next page is fetched directly. */
    method OnPageUpload()
      requires Valid()
      modifies this
      ensures Valid()
      ensures currentPage == old(currentPage) + 1 && loading
      ensures effects == old(effects) + [Fetch(old(searchQuery), old(currentPage) + 1)]
      ensures modal == old(modal) && images == old(images) && totalImages == old(totalImages)
      ensures searchQuery == old(searchQuery) && error == old(error)
    {
      // The state read for the direct fetch is the one before the update.
      var page := currentPage;
      currentPage := page + 1;
      FetchImages(searchQuery, page + 1);
    }

    /** `onModalOpen(url)`. */
    method OnModalOpen(url: string)
      modifies this
      ensures modal == Modal(true, url)
      ensures images == old(images) && totalImages == old(totalImages) && searchQuery == old(searchQuery)
      ensures currentPage == old(currentPage) && loading == old(loading) && error == old(error)
      ensures effects == old(effects)
    {
      modal := Modal(true, url);
    }

    /** `onModalClose()`. */
    method OnModalClose()
      modifies this
      ensures modal == Modal(false, "")
      ensures images == old(images) && totalImages == old(totalImages) && searchQuery == old(searchQuery)
      ensures currentPage == old(currentPage) && loading == old(loading) && error == old(error)
      ensures effects == old(effects)
    {
      modal := ClosedModal;
    }

    /**
     * One event as React delivers it: the handler runs, then the commit calls
     * `componentDidUpdate` with the state from before the event. The result is
     * the pure `Handle`, so every property proved of it holds of the object.
     */
    method Dispatch(ev: Event<Img>)
      requires Valid()
      modifies this
      ensures Valid()
      ensures Snapshot() == Handle(old(Snapshot()), ev).state
      ensures effects == old(effects) + Handle(old(Snapshot()), ev).effects
      ensures old(error) ==> error
    {
      var prev := Snapshot();
      match ev {
        case Submit(query) => OnSubmitSearch(query);
        case LoadMore => OnPageUpload();
        case Settled(query, response) => OnFetchSettled(query, response);
        case Open(url) => OnModalOpen(url);
        case Close => OnModalClose();
      }
      ComponentDidUpdate(prev);
    }
  }
}
