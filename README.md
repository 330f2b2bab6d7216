# Image finder gallery controller, modelled in Dafny

The image finder is a browser gallery. The user submits a search query, and
the `App` component fetches pages of results from an image search API. It
appends each page to the gallery and offers a "load more" button while more
hits remain. Selecting an image opens a preview overlay on its large URL.

All of the logic is the state machine in `App`. This project models it at two
levels:

- `gallery_state.dfy`, module `GalleryState`, holds the component's seven
  state fields as a value (`State`). Each handler is a pure function:
  `SubmitSearch`, `ModalOpen` and `ModalClose` return the next `State`,
  while `PageUpload` and the two halves of a fetch (`StartFetch`,
  `SettleFetch`) return a `Step`, the next state together with the effects
  sent on the way. `Handler` wraps every handler's result in a `Step`.
  An effect is either a search request `Fetch(query, page)` or a warning
  toast. `DidUpdate` is the trigger rule of `componentDidUpdate`.
  `Handle` is one event: the handler runs, then React's commit calls
  `componentDidUpdate` with the state from before the event. `Run` is a
  sequence of events. The render conditions are predicates over `State`.
- `app_component.dfy`, module `AppComponent`, has class `App`. Its fields
  are the state fields, plus a log of the effects sent so far. Its methods
  update those fields in place, as the handlers do through `setState`.
  `Dispatch` runs one handler followed by `ComponentDidUpdate`, and its
  contract proves the object does exactly what `GalleryState.Handle` does.
  Every property proved of `Handle` therefore holds of the object.
- `gallery_properties.dfy`, module `GalleryProperties`, holds the lemmas.
  Some cover a single event. Others cover any sequence of events and are
  proved by induction.

`fetchImages` is asynchronous, so it is split at its `await`. The method
`FetchImages` is the synchronous part: it raises `loading` and sends the
request. `OnFetchSettled` (the `Settled` event) is the rest, which runs once
the request has settled with a `Response`. That response is either
`Hits(hits, totalHits)` or `Failure`.

The model follows the code as written. In particular:

- A submission is not guarded against an empty query.
- The error flag is never cleared. It is not reset when a new fetch starts.
- A page advance requests the same page twice. The first request comes
  directly from `onPageUpload`, the second from `componentDidUpdate`.
  Both responses are appended.
- Nothing keeps the number of images at or below the reported total.
  `MoreImagesThanTotal` reaches a state with 4 images and a total of 3.
- The error banner is not exclusive with the gallery.
  `ErrorBannerBesideGallery` shows both at once.
- Zero hits only warn, even on page 1. The error flag is not set.

## Model

| member | source | states |
|---|---|---|
| `AppComponent.App.constructor` | src/components/App.jsx:13-21 | the initial state: overlay closed with an empty URL, no images, total 0, empty query, page 1, not loading, no error; no effects sent |
| `AppComponent.App.ComponentDidUpdate` | src/components/App.jsx:23-31 | when the query or the page differs from the previous state, one request for the current query and page is sent and `loading` is raised; otherwise nothing changes |
| `AppComponent.App.OnSubmitSearch` | src/components/App.jsx:33-39 | sets the query, empties the images, sets page 1; total, loading, error, overlay and the effect log stay unchanged |
| `AppComponent.App.OnPageUpload` | src/components/App.jsx:41-46 | the page grows by exactly 1; one request for the old query and the old page + 1 is sent directly; everything else except `loading` stays |
| `AppComponent.App.FetchImages` | src/components/App.jsx:48-52 | raises `loading` and appends the request `(query, page)` to the log; nothing else changes |
| `AppComponent.App.OnFetchSettled` | src/components/App.jsx:54-71 | non-zero total: images become old images followed by the hits, and the total is replaced. Zero total: images, total and error stay, and one warning naming the query is logged. Failure: error set, images and total stay. Loading is false in every case |
| `AppComponent.App.OnModalOpen` | src/components/App.jsx:74-81 | the overlay is open on the given URL; nothing else changes |
| `AppComponent.App.OnModalClose` | src/components/App.jsx:83-90 | the overlay is closed with an empty URL; nothing else changes |
| `AppComponent.App.Dispatch` | src/components/App.jsx:23-90 | handler plus commit on the object gives exactly the state and effects of `GalleryState.Handle`; page stays at least 1; error is never cleared |
| `GalleryState.WarningMessage` | src/components/App.jsx:55-57 | the toast text begins with the fixed prefix and contains the query right after it |
| `GalleryProperties.TriggerFiresIffChanged` | src/components/App.jsx:23-31 | the trigger sends a request exactly when the query or page changed, and then exactly one, for the new query and page |
| `GalleryProperties.QuietEventsSendNoRequest` | src/components/App.jsx:23-31 | settling, opening and closing change neither query nor page, so the commit adds nothing and no request is sent |
| `GalleryProperties.SubmitStartsSession` | src/components/App.jsx:23-39 | after a submission: the new query, no images, page 1, with total, error and overlay unchanged; a request for (query, 1) follows exactly when the query or page changed |
| `GalleryProperties.ResubmitOnFirstPageSendsNothing` | src/components/App.jsx:23-39 | re-submitting the current query on page 1 only empties the gallery, and no request is sent |
| `GalleryProperties.LoadMoreRequestsPageTwice` | src/components/App.jsx:23-46 | "load more" raises the page by exactly 1, raises loading, and sends two identical requests for (query, old page + 1) |
| `GalleryProperties.HitsAreAppended` | src/components/App.jsx:61-66 | with a non-zero total, the old images stay a prefix, the hits follow in order, and the total is replaced; error, query, page and overlay stay |
| `GalleryProperties.ZeroHitsOnlyWarn` | src/components/App.jsx:54-59 | with a zero total, only `loading` changes, and exactly one warning naming the query is sent |
| `GalleryProperties.FailureSetsError` | src/components/App.jsx:67-68 | a rejection sets error; images, total and everything else except loading stay |
| `GalleryProperties.SettlingClearsLoading` | src/components/App.jsx:48-71 | whatever the response, loading is false and the loader hidden afterwards |
| `GalleryProperties.LoadMoreShownAfterHits` | src/components/App.jsx:94 | after hits with a non-zero total, "load more" shows exactly when the old image count plus the new hit count is below that total |
| `GalleryProperties.LoadMoreHiddenWhileLoading` | src/components/App.jsx:94 | right after "load more", or a submission that triggers a fetch, the loader shows and "load more" does not |
| `GalleryProperties.OpenShowsURL` | src/components/App.jsx:74-81 | opening shows the overlay on exactly that URL, sends nothing and changes nothing else |
| `GalleryProperties.CloseIsIdempotent` | src/components/App.jsx:83-90 | closing yields a closed overlay with an empty URL and changes nothing else; closing twice equals closing once |
| `GalleryProperties.ErrorNeverCleared` | src/components/App.jsx:67-68 | over any sequence of events, once error is set it stays set, so the error banner stays |
| `GalleryProperties.PagesStayPositive` | src/components/App.jsx:33-46 | over any sequence of events from a page of at least 1, the page stays at least 1 and every request asks for a page of at least 1 |
| `GalleryProperties.SessionIsAppendOnly` | src/components/App.jsx:41-71 | over any sequence of events without a submission: the query stays, the page never decreases, the old images stay a prefix, and every request is for that query |
| `GalleryProperties.MoreImagesThanTotal` | src/components/App.jsx:41-66 | a run the component can take ("load more" shown when clicked; the run's requests are exactly those its responses answer) ends with more images than the reported total, because the page requested twice is appended twice |
| `GalleryProperties.ErrorBannerBesideGallery` | src/components/App.jsx:100-104 | a run the component can take ("load more" shown when clicked; every response answers a sent request) ends with the error banner beside a non-empty gallery and the loader hidden |

## Left out

- The search request itself (`fetchPixabay`, the HTTP call) is not modelled. A request is a logged `Fetch(query, page)`, and the way it settles is the input `Response` of the `Settled` event.
- The Notiflix toast is a foreign UI call. It is recorded only as a logged `Warning` effect with its message text.
- Asynchrony is not modelled. Each handler, and each settling of a request, is one atomic step. The model does not track which requests are still pending. A `Settled` event may therefore arrive for any query, including a superseded one, as it can in the component; the model does not say which responses can really arrive.
- React commits the state again after the `setState` calls inside `fetchImages`. Those commits run `componentDidUpdate` too, but they change neither query nor page, so the trigger does not fire. The model runs one commit per event (`QuietEventsSendNoRequest`).
- JSX and the child components (`SearchBar`, `ImageGallery`, `Button`, `Loader`, `ErrorMessage`, `Modal`) are not modelled. Only the conditions under which `render` shows each part are kept.
- Image records are an opaque type parameter `Img`, because the component never reads their fields.
- JavaScript numbers are modelled as unbounded integers. Page numbers and totals never come near the limits of a double.
