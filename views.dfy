/**
 * The overlay that sits on top of every list (LoadingStateView.swift).
 *
 * Given the paginator's loading state and whether the list has any content,
 * the view shows at most one of three panels (a spinner, an error message, an
 * "empty" message) and hides the list itself while it has nothing to show.
 */
module Views {
  import opened Optional

  /** The error a failed load carries; only its description is used here. */
  datatype Error = Error(localizedDescription: string)

  /** The status of the most recent load of a list. */
  datatype LoadingState = Default | Loading | Failed(error: Error) | Loaded

  /** Which overlay panel a state calls for; the three flags of `updatedState`. */
  datatype Overlay = Overlay(isEmpty: bool, isError: bool, isLoading: bool)

  /** At most one overlay panel is requested. */
  predicate AtMostOnePanel(o: Overlay)
  {
    && !(o.isEmpty && o.isError)
    && !(o.isEmpty && o.isLoading)
    && !(o.isError && o.isLoading)
  }

  /**
   * The decision: an overlay is shown only over empty content, and then the
   * panel follows the state. `Loaded`, and any state over non-empty content,
   * shows none.
   */
  function Decide(state: LoadingState, isContentEmpty: bool): (o: Overlay)
    ensures o.isLoading <==> state.Loading? && isContentEmpty
    ensures o.isError <==> state.Failed? && isContentEmpty
    ensures o.isEmpty <==> state.Default? && isContentEmpty
    ensures AtMostOnePanel(o)
  {
    match (state, isContentEmpty)
    case (Default, true) => Overlay(true, false, false)
    case (Loading, true) => Overlay(false, false, true)
    case (Failed(_), true) => Overlay(false, true, false)
    case (Failed(_), false) => Overlay(false, false, false)
    case _ => Overlay(false, false, false)
  }

  /** What the four views and the activity indicator look like after an update. */
  datatype Display = Display(
    loadingHidden: bool,
    indicatorAnimating: bool,
    errorHidden: bool,
    emptyHidden: bool,
    contentHidden: bool)

  /** The display for a state: each panel is visible exactly when requested. */
  function DisplayFor(state: LoadingState, isContentEmpty: bool): (d: Display)
    ensures d.indicatorAnimating == !d.loadingHidden
    ensures !d.loadingHidden <==> state.Loading? && isContentEmpty
    ensures !d.errorHidden <==> state.Failed? && isContentEmpty
    ensures !d.emptyHidden <==> state.Default? && isContentEmpty
    ensures d.contentHidden == isContentEmpty
    ensures (!d.loadingHidden ==> d.errorHidden && d.emptyHidden) && (!d.errorHidden ==> d.emptyHidden)
    ensures !isContentEmpty ==> d.loadingHidden && d.errorHidden && d.emptyHidden && !d.contentHidden
    ensures state.Loaded? && isContentEmpty ==>
      d.loadingHidden && d.errorHidden && d.emptyHidden && d.contentHidden
  {
    var o := Decide(state, isContentEmpty);
    Display(!o.isLoading, o.isLoading, !o.isError, !o.isEmpty, isContentEmpty)
  }

  /**
   * The view. Its inputs `loadingState` and `isEmpty` start as `Loading` and
   * `false`; every change of either re-runs `UpdatedState` with both.
   */
  class LoadingStateView {
    var loadingState: LoadingState
    var isEmpty: bool
    var errorText: Option<string>

    var errorLabelText: Option<string>
    var loadingHidden: bool
    var indicatorAnimating: bool
    var errorHidden: bool
    var emptyHidden: bool
    var contentHidden: bool

    /** The visible state of the views. */
    function Shown(): Display
      reads this
    {
      Display(loadingHidden, indicatorAnimating, errorHidden, emptyHidden, contentHidden)
    }

    /** The views show what the current inputs call for. */
    predicate Consistent()
      reads this
    {
      Shown() == DisplayFor(loadingState, isEmpty)
    }

    /**
     * The view once loaded from its nib and bound: the inputs hold their
     * initial values, `errorText` is unset, the error label holds the nib's
     * `labelText`, and the initial inputs have been applied once.
     */
    constructor (labelText: Option<string>)
      ensures loadingState == Loading && !isEmpty && errorText == None
      ensures errorLabelText == labelText
      ensures Consistent()
      ensures !contentHidden && loadingHidden && !indicatorAnimating && errorHidden && emptyHidden
    {
      loadingState := Loading;
      isEmpty := false;
      errorText := None;
      errorLabelText := labelText;
      new;
      UpdatedState(Loading, false);
    }

    /** Setting `errorText` also writes it to the error label. */
    method SetErrorText(text: Option<string>)
      modifies this
      ensures errorText == text && errorLabelText == text
      ensures Shown() == old(Shown())
      ensures loadingState == old(loadingState) && isEmpty == old(isEmpty)
    {
      errorText := text;
      errorLabelText := text;
    }

    /** `updateErrorMessage`: the label shows `errorText`, or else the error's description. */
    method UpdateErrorMessage(error: Error)
      modifies this`errorLabelText
      ensures errorLabelText == Some(if errorText.Some? then errorText.value else error.localizedDescription)
    {
      errorLabelText := Some(errorText.GetOr(error.localizedDescription));
    }

    /**
     * `updatedState`: shows the panels `state` calls for over content that is
     * empty or not, and rewrites the error label only when the error panel is
     * shown.
     */
    method UpdatedState(state: LoadingState, isContentEmpty: bool)
      modifies this
      ensures Shown() == DisplayFor(state, isContentEmpty)
      ensures state.Failed? && isContentEmpty ==>
        errorLabelText == Some(if errorText.Some? then errorText.value else state.error.localizedDescription)
      ensures !(state.Failed? && isContentEmpty) ==> errorLabelText == old(errorLabelText)
      ensures loadingState == old(loadingState) && isEmpty == old(isEmpty) && errorText == old(errorText)
    {
      var isEmptyPanel := false;
      var isError := false;
      var isLoading := false;
      match (state, isContentEmpty) {
        case (Default, true) =>
          isEmptyPanel := true;
        case (Loading, true) =>
          isLoading := true;
        case (Failed(error), true) =>
          isError := true;
          UpdateErrorMessage(error);
        case (Failed(_), false) =>
          // only logged: a failed "load more" over existing content changes nothing
        case _ =>
      }
      loadingHidden := !isLoading;
      indicatorAnimating := isLoading;
      errorHidden := !isError;
      emptyHidden := !isEmptyPanel;
      contentHidden := isContentEmpty;
    }

    /** The `loadingState` input changes: the view is updated with both inputs. */
    method SetLoadingState(state: LoadingState)
      modifies this
      ensures loadingState == state && isEmpty == old(isEmpty) && errorText == old(errorText)
      ensures Consistent()
      ensures loadingState.Failed? && isEmpty ==>
        errorLabelText == Some(if errorText.Some? then errorText.value else loadingState.error.localizedDescription)
      ensures !(loadingState.Failed? && isEmpty) ==> errorLabelText == old(errorLabelText)
    {
      loadingState := state;
      UpdatedState(loadingState, isEmpty);
    }

    /** The `isEmpty` input changes: the view is updated with both inputs. */
    method SetIsEmpty(value: bool)
      modifies this
      ensures isEmpty == value && loadingState == old(loadingState) && errorText == old(errorText)
      ensures Consistent()
      ensures loadingState.Failed? && isEmpty ==>
        errorLabelText == Some(if errorText.Some? then errorText.value else loadingState.error.localizedDescription)
      ensures !(loadingState.Failed? && isEmpty) ==> errorLabelText == old(errorLabelText)
    {
      isEmpty := value;
      UpdatedState(loadingState, isEmpty);
    }
  }
}
