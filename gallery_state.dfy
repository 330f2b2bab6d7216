/**
 * The state of the image finder's `App` component and the transitions its
 * handlers make, written as pure functions over a value of that state.
 *
 * Each handler is one atomic step. A step yields the next state and the
 * effects it sends out of the component, in order: requests to the image
 * search API and warning toasts. The search API itself is not modelled: the
 * way a request settles is an input (`Response`).
 */
module GalleryState {

  /** The preview overlay: whether it is open, and which large image it shows. */
  datatype Modal = Modal(isOpen: bool, largeImageURL: string)

  const ClosedModal: Modal := Modal(false, "")

  /**
   * The seven fields of the component's state. `Img` stands for an image
   * record returned by the search API; the component never looks inside one.
   */
  datatype State<Img> = State(
    modal: Modal,
    images: seq<Img>,
    totalImages: int,
    searchQuery: string,
    currentPage: int,
    loading: bool,
    error: bool)

  /** The state the component starts in. */
  function Initial<Img>(): State<Img> {
    State(ClosedModal, [], 0, "", 1, false, false)
  }

  /** How a search request settles: a page of hits with the total hit count, or a rejection. */
  datatype Response<Img> = Hits(hits: seq<Img>, totalHits: int) | Failure

  /** What the component sends out: a search request, or a warning toast. */
  datatype Effect = Fetch(query: string, page: int) | Warning(message: string)

  /** A next state with the effects sent on the way to it, oldest first. */
  datatype Step<Img> = Step(state: State<Img>, effects: seq<Effect>)

  const WarningPrefix: string := "There is no results upon your "
  const WarningSuffix: string := ", please try again..."

  /** The text of the toast shown when a query has no hits; it names the query. */
  function WarningMessage(query: string): (m: string)
    ensures |m| == |WarningPrefix| + |query| + |WarningSuffix|
    ensures m[..|WarningPrefix|] == WarningPrefix
    ensures m[|WarningPrefix|..|WarningPrefix| + |query|] == query
  {
    WarningPrefix + query + WarningSuffix
  }

  /** The requests among a list of effects, in their order. */
  function FetchRequests(effects: seq<Effect>): (r: seq<Effect>)
    ensures |r| <= |effects|
    ensures forall e | e in r :: e.Fetch? && e in effects
    ensures forall e | e in effects && e.Fetch? :: e in r
  {
    if effects == [] then []
    else if effects[0].Fetch? then [effects[0]] + FetchRequests(effects[1..])
    else FetchRequests(effects[1..])
  }

  /** The test in `componentDidUpdate`: did the query or the page change? */
  predicate FetchTriggered<Img>(prev: State<Img>, next: State<Img>) {
    prev.searchQuery != next.searchQuery || prev.currentPage != next.currentPage
  }

  /**
   * The synchronous part of `fetchImages(query, page)`, up to the await:
   * raise `loading` and send the request.
   */
  function StartFetch<Img>(s: State<Img>, query: string, page: int): Step<Img> {
    Step(s.(loading := true), [Fetch(query, page)])
  }

  /**
   * The part of `fetchImages` after the await. Zero hits only warn; other hits
   * are appended and replace the total; a rejection sets `error`. `loading`
   * is cleared in every case.
   */
  function SettleFetch<Img>(s: State<Img>, query: string, response: Response<Img>): Step<Img> {
    match response
    case Hits(hits, totalHits) =>
      if totalHits == 0 then
        Step(s.(loading := false), [Warning(WarningMessage(query))])
      else
        Step(s.(images := s.images + hits, totalImages := totalHits, loading := false), [])
    case Failure =>
      Step(s.(error := true, loading := false), [])
  }

  /** `componentDidUpdate(_, prev)`: start a fetch for the current query and page when either changed. */
  function DidUpdate<Img>(prev: State<Img>, next: State<Img>): Step<Img> {
    if FetchTriggered(prev, next) then StartFetch(next, next.searchQuery, next.currentPage)
    else Step(next, [])
  }

  /** `onSubmitSearch(query)`: the new query, no images, page 1. Nothing guards an empty query. */
  function SubmitSearch<Img>(s: State<Img>, query: string): State<Img> {
    s.(searchQuery := query, images := [], currentPage := 1)
  }

  /**
   * `onPageUpload()`: advance the page and call `fetchImages` directly for
   * the query and the advanced page (read from the state before the update).
   */
  function PageUpload<Img>(s: State<Img>): Step<Img> {
    StartFetch(s.(currentPage := s.currentPage + 1), s.searchQuery, s.currentPage + 1)
  }

  function ModalOpen<Img>(s: State<Img>, url: string): State<Img> {
    s.(modal := Modal(true, url))
  }

  function ModalClose<Img>(s: State<Img>): State<Img> {
    s.(modal := ClosedModal)
  }

  /**
   * What can happen to the component: a submitted query, a click on "load
   * more", a search request settling (for the query it was started with),
   * a click on a gallery item, and a dismissal of the overlay.
   */
  datatype Event<Img> =
    | Submit(query: string)
    | LoadMore
    | Settled(query: string, response: Response<Img>)
    | Open(url: string)
    | Close

  /** The handler an event reaches, before React commits the new state. */
  function Handler<Img>(s: State<Img>, ev: Event<Img>): Step<Img> {
    match ev
    case Submit(query) => Step(SubmitSearch(s, query), [])
    case LoadMore => PageUpload(s)
    case Settled(query, response) => SettleFetch(s, query, response)
    case Open(url) => Step(ModalOpen(s, url), [])
    case Close => Step(ModalClose(s), [])
  }

  /**
   * One event: its handler, then React's commit, which calls
   * `componentDidUpdate` with the state from before the event.
   */
  function Handle<Img>(s: State<Img>, ev: Event<Img>): Step<Img> {
    var h := Handler(s, ev);
    var d := DidUpdate(s, h.state);
    Step(d.state, h.effects + d.effects)
  }

  /** A sequence of events handled one after the other. */
  function Run<Img>(s: State<Img>, evs: seq<Event<Img>>): Step<Img>
    decreases |evs|
  {
    if evs == [] then Step(s, [])
    else
      var h := Handle(s, evs[0]);
      var t := Run(h.state, evs[1..]);
      Step(t.state, h.effects + t.effects)
  }

  // The conditions under which `render` shows each part of the page.

  predicate ShowGallery<Img>(s: State<Img>) { |s.images| > 0 }

  predicate ShowErrorBanner<Img>(s: State<Img>) { s.error }

  predicate ShowLoader<Img>(s: State<Img>) { s.loading }

  /** `showBtn`: the "load more" button. */
  predicate ShowLoadMore<Img>(s: State<Img>) { !s.loading && |s.images| < s.totalImages }

  predicate ShowOverlay<Img>(s: State<Img>) { s.modal.isOpen }
}
