# List loading: view-model accumulation and the loading overlay

This project models, in Dafny, the two pieces of logic behind every scrollable
list of a Twitch client for iOS and tvOS:

* **`BaseViewModel`** (`Code/Common/ViewModels/BaseViewModel.swift`). It
  watches the paginator's `lastResponse`, an optional page of results. Each
  value is paired with the value before it, the first with nil, and the pairs
  are folded into the flat list of view models the list shows:
  * nil followed by a response restarts the list with that response's view models;
  * a response followed by a response appends its view models;
  * a nil value keeps the list.

  The element transform may return nil, and such elements are dropped (Swift's
  `flatMap` on an array). A trailing "load more" row follows the view models
  while the paginator's `allLoaded` is false. `loadMore()` and `reload()` only
  forward to the paginator.
* **`LoadingStateView`** (`Code/Common/Views/LoadingStateView.swift`). It maps
  the loading state (`Default`, `Loading`, `Failed(error)`, `Loaded`) and
  whether the content is empty to the visible panels: a spinner, an error
  message or an "empty" message over the list, and the list itself. When the
  error panel is shown it also sets the error label's text.

Modules:

* `Optional` (`optional.dfy`): Swift's optional, with `??` as `GetOr`.
* `ViewModels` (`view_models.dfy`):
  * the reducer `Step` and the fold `Accumulate`;
  * an independent description of the accumulated list (`LastRun`, `Concat`)
    and the lemmas that connect the two;
  * the composite rows `Composite`;
  * the class `BaseViewModel`, whose methods are the paginator's emissions and
    the forwarded commands.
* `Views` (`views.dfy`):
  * the decision `Decide`;
  * the resulting visibility `DisplayFor`;
  * the class `LoadingStateView`, whose fields are the visibility of its subviews.

The paginator is not part of this model; its source is not among the modelled
files. Its `lastResponse` values are the input events of `OnResponse`. Its
`allLoaded` values are the input of `OnAllLoaded`. The calls the view model
makes on it are recorded in the `forwarded` field. Each emission of a reactive
binding is one method call. In the Swift `init` the subscription to
`lastResponse` immediately receives the paginator's current value, so the first
fold step happens inside `init`; here the constructor starts with no event and
that first value is the first `OnResponse` call. The current `allLoaded` value
is applied by the constructor itself.

* The reducer appends every response and does no deduplication
  (`NoDeduplication`).
* BaseViewModel.swift has no request generations and does not filter stale
  responses, so none are modelled.
* A `Failed` state over non-empty content is only logged: no panel is shown and
  the error label is left alone (`Views.LoadingStateView.UpdatedState`).

## Model

| member | source | states |
|---|---|---|
| `ViewModels.Kept` | Code/Common/ViewModels/BaseViewModel.swift:40 | the number of elements the transform keeps is at most the response size |
| `ViewModels.FlatMap` | Code/Common/ViewModels/BaseViewModel.swift:40 | the transformed list has exactly one entry per element mapped to a non-nil value |
| `ViewModels.FlatMapConcat` | Code/Common/ViewModels/BaseViewModel.swift:42 | transforming two runs of elements one after the other gives the concatenation of their transforms |
| `ViewModels.FlatMapSound` | Code/Common/ViewModels/BaseViewModel.swift:40 | every view model produced is the non-nil transform of some element of the response |
| `ViewModels.FlatMapComplete` | Code/Common/ViewModels/BaseViewModel.swift:40 | every element whose transform is non-nil contributes its view model to the result |
| `ViewModels.FlatMapKeepsAll` | Code/Common/ViewModels/BaseViewModel.swift:40 | when no transform is nil, the result is the element-wise transform, of the same length and in the same order |
| `ViewModels.Step` | Code/Common/ViewModels/BaseViewModel.swift:37-45 | a nil value leaves the list unchanged; a reset gives as many view models as elements kept; an append keeps the old list as a prefix and grows it by the elements kept, at most the response size |
| `ViewModels.FoldPairs` | Code/Common/ViewModels/BaseViewModel.swift:36 | `combinePrevious(nil)` then `scan([])`: the list after emission i is one reducer step from the list before it, with emission i paired with emission i-1, or with nil for the first (the helper `Previous` gives that partner) |
| `ViewModels.Accumulate` | Code/Common/ViewModels/BaseViewModel.swift:36-46 | the `scan([])` fold of all emissions; it never holds more view models than elements received; its full meaning is given by `AccumulateIsLastRun` |
| `ViewModels.AccumulateSnoc` | Code/Common/ViewModels/BaseViewModel.swift:36-46 | each new `lastResponse` value advances the fold by one reducer step, paired with the previous value (nil at first) |
| `ViewModels.ResetReplaces` | Code/Common/ViewModels/BaseViewModel.swift:39-40 | a response following nil or arriving first replaces the whole list with its filtered transform |
| `ViewModels.AppendExtends` | Code/Common/ViewModels/BaseViewModel.swift:41-42 | a response following a response appends its filtered transform after the unchanged list; the new length is the old length plus the elements kept, at most old length plus response size |
| `ViewModels.AbsentKeepsList` | Code/Common/ViewModels/BaseViewModel.swift:43-44 | any number of nil values leave the list unchanged |
| `ViewModels.EmptyBeforeAnyResponse` | Code/Common/ViewModels/BaseViewModel.swift:36 | before any response is seen the list is empty |
| `ViewModels.RunAfterReset` | Code/Common/ViewModels/BaseViewModel.swift:36-46 | after a reset, responses r1..rk give the concatenation of their filtered transforms in arrival order, whatever the list held before |
| `ViewModels.ConcatIsFlatMapOfAll` | Code/Common/ViewModels/BaseViewModel.swift:42 | concatenating the per-response transforms equals transforming all elements of the responses in arrival order |
| `ViewModels.AccumulateIsLastRun` | Code/Common/ViewModels/BaseViewModel.swift:36-46 | for every event sequence, the list is exactly the filtered transform of the elements of the most recent uninterrupted run of responses |
| `ViewModels.NoDeduplication` | Code/Common/ViewModels/BaseViewModel.swift:41-42 | the same response twice in a row appends its view models twice |
| `ViewModels.LoadMoreSource` | Code/Common/ViewModels/BaseViewModel.swift:50-51 | the load-more source is empty exactly when `allLoaded` is true, and otherwise holds the single load-more row |
| `ViewModels.Composite` | Code/Common/ViewModels/BaseViewModel.swift:48-53 | the rows are the view models in order, followed by a "load more" row, which is present exactly when `allLoaded` is false |
| `ViewModels.BaseViewModel.constructor` | Code/Common/ViewModels/BaseViewModel.swift:31-53 | a new view model has an empty list, no event seen, nothing forwarded, and a load-more row matching the paginator's `allLoaded` |
| `ViewModels.BaseViewModel.DataSource` | Code/Common/ViewModels/BaseViewModel.swift:53 | the data source shown is the composite of the current view models and the last `allLoaded` value |
| `ViewModels.BaseViewModel.OnResponse` | Code/Common/ViewModels/BaseViewModel.swift:36-46 | each `lastResponse` emission applies one reducer step with the previous emission, keeping the list equal to the fold of all emissions |
| `ViewModels.BaseViewModel.OnAllLoaded` | Code/Common/ViewModels/BaseViewModel.swift:50-51 | each `allLoaded` emission replaces the load-more source and leaves the view models unchanged |
| `ViewModels.BaseViewModel.LoadMore` | Code/Common/ViewModels/BaseViewModel.swift:64-66 | forwards one next-page request to the paginator and changes nothing else |
| `ViewModels.BaseViewModel.Reload` | Code/Common/ViewModels/BaseViewModel.swift:68-70 | forwards one reload-current-page request to the paginator and changes nothing else |
| `Views.Decide` | Code/Common/Views/LoadingStateView.swift:69-84 | loading is chosen iff the state is `Loading` over empty content, error iff `Failed` over empty content, empty iff `Default` over empty content; at most one is chosen |
| `Views.DisplayFor` | Code/Common/Views/LoadingStateView.swift:85-93 | the indicator animates exactly when the loading panel is visible; each panel is visible iff its state holds over empty content; the content is hidden iff it is empty; non-empty content or `Loaded` shows no panel |
| `Views.LoadingStateView.constructor` | Code/Common/Views/LoadingStateView.swift:27-28 | the inputs start as `Loading` and not empty, and the view then shows the content with no panel and a stopped indicator |
| `Views.LoadingStateView.SetErrorText` | Code/Common/Views/LoadingStateView.swift:34 | setting `errorText` also writes it to the error label and changes no visibility |
| `Views.LoadingStateView.UpdateErrorMessage` | Code/Common/Views/LoadingStateView.swift:53-55 | the error label shows `errorText` if set, otherwise the error's description |
| `Views.LoadingStateView.UpdatedState` | Code/Common/Views/LoadingStateView.swift:68-94 | the views show the decided display; the error label is rewritten only for `Failed` over empty content and is untouched otherwise |
| `Views.LoadingStateView.SetLoadingState` | Code/Common/Views/LoadingStateView.swift:100 | a new loading state is stored and the views then show what both inputs call for |
| `Views.LoadingStateView.SetIsEmpty` | Code/Common/Views/LoadingStateView.swift:100 | a new content-emptiness value is stored and the views then show what both inputs call for |

## Left out

- The paginator: request issuing, page cursors, `allLoaded` detection and loading-state transitions are not part of this model. Its outputs are inputs here and its commands are only recorded.
- Reactive plumbing: `<~` bindings, the `combinePrevious` operator's mechanism (its pairing is modelled by `FoldPairs`, `Previous` and the `previous` field), `combineLatest`, `startWithNext` and disposal of subscriptions (`deinit`). Each emission is one method call, in the order received.
- `AutoDiffDataSource` diffing and the `CompositeDataSource`/`ProxyDataSource` libraries: only the resulting order of rows is modelled (`Composite`), not the change animations.
- The iOS network-activity indicator binding (BaseViewModel.swift:55-57): a platform side effect.
- The retry button action (LoadingStateView.swift:49-51) and the empty image, empty text and colours (LoadingStateView.swift:32-33, 35, 57-66): presentation only.
- The log line for a failed load over existing content (LoadingStateView.swift:81): console output, no state change.
- `NSError.localizedDescription` is an opaque string field of `Error`.
- The text the error label gets from the nib: it is a constructor parameter of `LoadingStateView`, not a constant.
- The screens that use these components (StreamsViewController.swift, ViewController.swift, GameCell.swift): layout, cell configuration, image loading, the scroll-distance trigger (floating point), stream playback and ad insertion.
