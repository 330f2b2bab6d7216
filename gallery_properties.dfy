/**
 * What the component's handlers guarantee, one event at a time and over any
 * sequence of events.
 */
module GalleryProperties {
  import opened GalleryState

  // ---- The fetch trigger ----

  /** `componentDidUpdate` sends exactly one request, for the new query and page, exactly when either changed. */
  lemma TriggerFiresIffChanged<Img>(prev: State<Img>, next: State<Img>)
    ensures var d := DidUpdate(prev, next);
      && (d.effects != [] <==> prev.searchQuery != next.searchQuery || prev.currentPage != next.currentPage)
      && (d.effects != [] ==> d.effects == [Fetch(next.searchQuery, next.currentPage)] && d.state == next.(loading := true))
      && (d.effects == [] ==> d.state == next)
  {
  }

  /** Events that change neither the query nor the page never reach the trigger. */
  lemma QuietEventsSendNoRequest<Img>(s: State<Img>, ev: Event<Img>)
    requires ev.Settled? || ev.Open? || ev.Close?
    ensures Handle(s, ev) == Handler(s, ev)
    ensures FetchRequests(Handle(s, ev).effects) == []
  {
  }

  // ---- Submitting a query ----

  /**
   * A submission starts a new query session: the query is set, the images are
   * emptied, the page is 1; the total, the error flag and the overlay stay.
   * A request for page 1 follows exactly when the query or the page changed.
   */
  lemma SubmitStartsSession<Img>(s: State<Img>, query: string)
    ensures var r := Handle(s, Submit(query));
      && r.state.searchQuery == query && r.state.images == [] && r.state.currentPage == 1
      && r.state.totalImages == s.totalImages && r.state.error == s.error && r.state.modal == s.modal
      && (if query != s.searchQuery || s.currentPage != 1
          then r.state.loading && r.effects == [Fetch(query, 1)]
          else r.state.loading == s.loading && r.effects == [])
  {
  }

  /** Submitting the current query again while on page 1 empties the gallery and sends no request. */
  lemma ResubmitOnFirstPageSendsNothing<Img>(s: State<Img>)
    requires s.currentPage == 1
    ensures Handle(s, Submit(s.searchQuery)) == Step(s.(images := []), [])
    ensures !ShowGallery(Handle(s, Submit(s.searchQuery)).state)
  {
  }

  // ---- Loading more ----

  /**
   * "Load more" advances the page by exactly one and requests the next page
   * twice: once directly from the handler and once from the trigger.
   */
  lemma LoadMoreRequestsPageTwice<Img>(s: State<Img>)
    ensures var r := Handle(s, LoadMore);
      && r.state == s.(currentPage := s.currentPage + 1, loading := true)
      && r.effects == [Fetch(s.searchQuery, s.currentPage + 1), Fetch(s.searchQuery, s.currentPage + 1)]
      && |FetchRequests(r.effects)| == 2
  {
  }

  // ---- A request settling ----

  /** Hits with a non-zero total are appended after the old images, in order, and replace the total. */
  lemma HitsAreAppended<Img>(s: State<Img>, query: string, hits: seq<Img>, totalHits: int)
    requires totalHits != 0
    ensures var r := Handle(s, Settled(query, Hits(hits, totalHits)));
      && r.state.images == s.images + hits
      && r.state.images[..|s.images|] == s.images
      && r.state.images[|s.images|..] == hits
      && r.state.totalImages == totalHits
      && r.state.error == s.error && !r.state.loading
      && r.state.searchQuery == s.searchQuery && r.state.currentPage == s.currentPage
      && r.state.modal == s.modal
      && r.effects == []
  {
  }

  /** A zero total leaves images, total and error as they were and shows one warning naming the query. */
  lemma ZeroHitsOnlyWarn<Img>(s: State<Img>, query: string, hits: seq<Img>)
    ensures var r := Handle(s, Settled(query, Hits(hits, 0)));
      && r.state == s.(loading := false)
      && r.effects == [Warning(WarningMessage(query))]
  {
  }

  /** A rejected request sets the error flag and leaves images and total as they were. */
  lemma FailureSetsError<Img>(s: State<Img>, query: string)
    ensures var r := Handle(s, Settled(query, Failure));
      && r.state == s.(error := true, loading := false)
      && r.effects == []
  {
  }

  /** However a request settles, the loader is hidden afterwards. */
  lemma SettlingClearsLoading<Img>(s: State<Img>, query: string, response: Response<Img>)
    ensures !Handle(s, Settled(query, response)).state.loading
    ensures !ShowLoader(Handle(s, Settled(query, response)).state)
  {
  }

  /**
   * After hits with a non-zero total, "load more" is shown exactly when the
   * gallery holds fewer images than that total.
   */
  lemma LoadMoreShownAfterHits<Img>(s: State<Img>, query: string, hits: seq<Img>, totalHits: int)
    requires totalHits != 0
    ensures ShowLoadMore(Handle(s, Settled(query, Hits(hits, totalHits))).state)
        <==> |s.images| + |hits| < totalHits
  {
  }

  /** While a request started by a submission or by "load more" is pending, the button is hidden and the loader shown. */
  lemma LoadMoreHiddenWhileLoading<Img>(s: State<Img>, ev: Event<Img>)
    requires ev.LoadMore? || (ev.Submit? && (ev.query != s.searchQuery || s.currentPage != 1))
    ensures ShowLoader(Handle(s, ev).state) && !ShowLoadMore(Handle(s, ev).state)
  {
  }

  // ---- The overlay ----

  /** Selecting an image opens the overlay on that image's URL and changes nothing else. */
  lemma OpenShowsURL<Img>(s: State<Img>, url: string)
    ensures Handle(s, Open(url)) == Step(s.(modal := Modal(true, url)), [])
    ensures ShowOverlay(Handle(s, Open(url)).state)
  {
  }

  /** Dismissing closes the overlay and clears its URL; dismissing twice is the same as once. */
  lemma CloseIsIdempotent<Img>(s: State<Img>)
    ensures Handle(s, Close) == Step(s.(modal := Modal(false, "")), [])
    ensures Handle(Handle(s, Close).state, Close) == Handle(s, Close)
    ensures !ShowOverlay(Handle(s, Close).state)
  {
  }

  // ---- Over any sequence of events ----

  /** No event ever clears the error flag, so the error banner, once shown, stays. */
  lemma {:induction false} ErrorNeverCleared<Img>(s: State<Img>, evs: seq<Event<Img>>)
    requires s.error
    ensures Run(s, evs).state.error
    ensures ShowErrorBanner(Run(s, evs).state)
    decreases |evs|
  {
    if evs != [] {
      ErrorNeverCleared(Handle(s, evs[0]).state, evs[1..]);
    }
  }

  /** The page never drops below 1, and every request asks for a page of at least 1. */
  lemma {:induction false} PagesStayPositive<Img>(s: State<Img>, evs: seq<Event<Img>>)
    requires s.currentPage >= 1
    ensures Run(s, evs).state.currentPage >= 1
    ensures forall e | e in Run(s, evs).effects && e.Fetch? :: e.page >= 1
    decreases |evs|
  {
    if evs != [] {
      var h := Handle(s, evs[0]);
      PagesStayPositive(h.state, evs[1..]);
    }
  }

  /**
   * Within a query session (no submission), the query stays, the page never
   * decreases, the images only grow at the end, and every request is for the
   * session's query.
   */
  lemma {:induction false} SessionIsAppendOnly<Img>(s: State<Img>, evs: seq<Event<Img>>)
    requires forall i | 0 <= i < |evs| :: !evs[i].Submit?
    ensures Run(s, evs).state.searchQuery == s.searchQuery
    ensures Run(s, evs).state.currentPage >= s.currentPage
    ensures s.images <= Run(s, evs).state.images
    ensures forall e | e in Run(s, evs).effects && e.Fetch? :: e.query == s.searchQuery
    decreases |evs|
  {
    if evs != [] {
      var h := Handle(s, evs[0]);
      assert !evs[0].Submit?;
      assert forall i | 0 <= i < |evs[1..]| :: !evs[1..][i].Submit? by {
        forall i | 0 <= i < |evs[1..]| ensures !evs[1..][i].Submit? {
          assert evs[1..][i] == evs[i + 1];
        }
      }
      SessionIsAppendOnly(h.state, evs[1..]);
    }
  }

  // ---- States the component reaches that one might not expect ----

  /**
   * The gallery can hold more images than the reported total: the page asked
   * for twice by "load more" is appended twice. The run is one the component
   * can take: "load more" is shown when it is clicked, and each response
   * answers a request the run has sent.
   */
  lemma MoreImagesThanTotal<Img>(x: Img)
    ensures var evs := [Submit("cats"), Settled("cats", Hits([x, x], 3)),
                        LoadMore, Settled("cats", Hits([x], 3)), Settled("cats", Hits([x], 3))];
      var r := Run(Initial(), evs);
      && ShowLoadMore(Run(Initial(), evs[..2]).state)
      && r.effects == [Fetch("cats", 1), Fetch("cats", 2), Fetch("cats", 2)]
      && |r.state.images| == 4 && r.state.totalImages == 3
  {
    var evs: seq<Event<Img>> := [Submit("cats"), Settled("cats", Hits([x, x], 3)),
                                 LoadMore, Settled("cats", Hits([x], 3)), Settled("cats", Hits([x], 3))];
    var s0: State<Img> := Initial();
    var h1 := Handle(s0, evs[0]);
    var h2 := Handle(h1.state, evs[1]);
    var h3 := Handle(h2.state, evs[2]);
    var h4 := Handle(h3.state, evs[3]);
    var h5 := Handle(h4.state, evs[4]);
    assert h1.effects == [Fetch("cats", 1)];
    assert |h2.state.images| == 2 && h2.state.totalImages == 3 && !h2.state.loading;
    assert h3.effects == [Fetch("cats", 2), Fetch("cats", 2)];
    assert |h5.state.images| == 4 && h5.state.totalImages == 3;
    assert evs[..2][1..][1..] == [];
    assert Run(h2.state, evs[..2][1..][1..]) == Step(h2.state, []);
    assert Run(h1.state, evs[..2][1..]).state == h2.state;
    assert evs[1..][1..][1..][1..][1..] == [];
    assert Run(h5.state, evs[1..][1..][1..][1..][1..]) == Step(h5.state, []);
    assert Run(h4.state, evs[1..][1..][1..][1..]) == Step(h5.state, []);
    assert Run(h3.state, evs[1..][1..][1..]) == Step(h5.state, []);
    assert Run(h2.state, evs[1..][1..]) == Step(h5.state, h3.effects);
    assert Run(h1.state, evs[1..]) == Step(h5.state, h3.effects);
  }

  /**
   * The error banner and the gallery can be shown together: a query that
   * found images, then a rejected "load more" request. "Load more" is shown
   * when it is clicked, and each response answers a request the run has sent.
   */
  lemma ErrorBannerBesideGallery<Img>(x: Img)
    ensures var evs := [Submit("cats"), Settled("cats", Hits([x], 60)),
                        LoadMore, Settled("cats", Failure)];
      var r := Run(Initial(), evs);
      && ShowLoadMore(Run(Initial(), evs[..2]).state)
      && r.effects == [Fetch("cats", 1), Fetch("cats", 2), Fetch("cats", 2)]
      && ShowErrorBanner(r.state) && ShowGallery(r.state) && r.state.images == [x] && !ShowLoader(r.state)
  {
    var evs: seq<Event<Img>> := [Submit("cats"), Settled("cats", Hits([x], 60)),
                                 LoadMore, Settled("cats", Failure)];
    var s0: State<Img> := Initial();
    var h1 := Handle(s0, evs[0]);
    var h2 := Handle(h1.state, evs[1]);
    var h3 := Handle(h2.state, evs[2]);
    var h4 := Handle(h3.state, evs[3]);
    assert h1.effects == [Fetch("cats", 1)];
    assert h2.state.images == [x] && h2.state.totalImages == 60 && !h2.state.loading;
    assert h3.effects == [Fetch("cats", 2), Fetch("cats", 2)];
    assert h4.state.images == [x] && h4.state.error && !h4.state.loading;
    assert evs[..2][1..][1..] == [];
    assert Run(h2.state, evs[..2][1..][1..]) == Step(h2.state, []);
    assert Run(h1.state, evs[..2][1..]).state == h2.state;
    assert evs[1..][1..][1..][1..] == [];
    assert Run(h4.state, evs[1..][1..][1..][1..]) == Step(h4.state, []);
    assert Run(h3.state, evs[1..][1..][1..]) == Step(h4.state, []);
    assert Run(h2.state, evs[1..][1..]) == Step(h4.state, h3.effects);
    assert Run(h1.state, evs[1..]) == Step(h4.state, h3.effects);
  }
}
