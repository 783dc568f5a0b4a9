/**
 * The list view model shared by every scrollable screen (BaseViewModel.swift).
 *
 * The paginator publishes its most recent response as an optional value; the
 * view model pairs each value with the one before it (the first with nil) and
 * folds those pairs, starting from the empty list, into the flat list of view
 * models shown on screen. A separate "load more" row follows the view models
 * while the paginator reports that not everything is loaded.
 *
 * The paginator itself is not part of this model: its emissions are the input
 * `Event`s, its `allLoaded` flag is an input, and the commands the view model
 * forwards to it are recorded, not executed.
 */
module ViewModels {
  import opened Optional

  /** A paginator response: the elements of one page, in the order received. */
  type Response<E> = seq<E>

  /** One value of the paginator's `lastResponse`: a response, or nil. */
  type Event<E> = Option<Response<E>>

  // ---------------------------------------------------------------------------
  // Swift's `flatMap` with an optional-returning transform
  // ---------------------------------------------------------------------------

  /** How many elements of `xs` the transform keeps (maps to a non-nil value). */
  function Kept<E, V>(xs: seq<E>, f: E -> Option<V>): (n: nat)
    ensures n <= |xs|
  {
    if xs == [] then 0 else (if f(xs[0]).Some? then 1 else 0) + Kept(xs[1..], f)
  }

  /** `xs.flatMap(f)`: the non-nil results of `f`, in the order of `xs`. */
  function FlatMap<E, V>(xs: seq<E>, f: E -> Option<V>): (r: seq<V>)
    ensures |r| == Kept(xs, f)
  {
    if xs == [] then []
    else match f(xs[0])
      case Some(v) => [v] + FlatMap(xs[1..], f)
      case None => FlatMap(xs[1..], f)
  }

  /** Transforming a concatenation is concatenating the transforms. */
  lemma {:induction false} FlatMapConcat<E, V>(a: seq<E>, b: seq<E>, f: E -> Option<V>)
    ensures FlatMap(a + b, f) == FlatMap(a, f) + FlatMap(b, f)
  {
    if a == [] {
      assert a + b == b;
    } else {
      assert (a + b)[0] == a[0];
      assert (a + b)[1..] == a[1..] + b;
      FlatMapConcat(a[1..], b, f);
    }
  }

  /** Every view model in the result is the transform of some element. */
  lemma {:induction false} FlatMapSound<E, V>(xs: seq<E>, f: E -> Option<V>, k: nat)
    requires k < |FlatMap(xs, f)|
    ensures exists i :: 0 <= i < |xs| && f(xs[i]) == Some(FlatMap(xs, f)[k])
  {
    var rest := FlatMap(xs[1..], f);
    match f(xs[0])
    case Some(v) =>
      if k == 0 {
        assert f(xs[0]) == Some(FlatMap(xs, f)[0]);
      } else {
        assert FlatMap(xs, f)[k] == rest[k - 1];
        FlatMapSound(xs[1..], f, k - 1);
        var i :| 0 <= i < |xs[1..]| && f(xs[1..][i]) == Some(rest[k - 1]);
        assert f(xs[i + 1]) == Some(FlatMap(xs, f)[k]);
      }
    case None =>
      FlatMapSound(xs[1..], f, k);
      var i :| 0 <= i < |xs[1..]| && f(xs[1..][i]) == Some(rest[k]);
      assert f(xs[i + 1]) == Some(FlatMap(xs, f)[k]);
  }

  /** Every element the transform keeps shows up in the result. */
  lemma {:induction false} FlatMapComplete<E, V>(xs: seq<E>, f: E -> Option<V>, i: nat)
    requires i < |xs| && f(xs[i]).Some?
    ensures exists k :: 0 <= k < |FlatMap(xs, f)| && FlatMap(xs, f)[k] == f(xs[i]).value
  {
    if i == 0 {
      assert FlatMap(xs, f)[0] == f(xs[0]).value;
    } else {
      assert xs[1..][i - 1] == xs[i];
      FlatMapComplete(xs[1..], f, i - 1);
      var k :| 0 <= k < |FlatMap(xs[1..], f)| && FlatMap(xs[1..], f)[k] == f(xs[i]).value;
      if f(xs[0]).Some? {
        assert FlatMap(xs, f)[k + 1] == f(xs[i]).value;
      } else {
        assert FlatMap(xs, f)[k] == f(xs[i]).value;
      }
    }
  }

  /** When the transform drops nothing, the result is the element-wise transform. */
  lemma {:induction false} FlatMapKeepsAll<E, V>(xs: seq<E>, f: E -> Option<V>)
    requires forall i :: 0 <= i < |xs| ==> f(xs[i]).Some?
    ensures |FlatMap(xs, f)| == |xs|
    ensures forall i :: 0 <= i < |xs| ==> FlatMap(xs, f)[i] == f(xs[i]).value
  {
    if xs != [] {
      assert forall i :: 0 <= i < |xs[1..]| ==> xs[1..][i] == xs[i + 1];
      FlatMapKeepsAll(xs[1..], f);
    }
  }

  // ---------------------------------------------------------------------------
  // The `scan` reducer
  // ---------------------------------------------------------------------------

  /**
   * One step of the fold: the list after `next` arrives, given the list so far
   * and the value `previous` that preceded `next`.
   * nil then a response: the list restarts with that response's view models;
   * a response then a response: its view models are appended;
   * anything then nil: the list is kept.
   */
  function Step<E, V>(objects: seq<V>, previous: Event<E>, next: Event<E>, f: E -> Option<V>): (r: seq<V>)
    ensures next.None? ==> r == objects
    ensures next.Some? && previous.None? ==> |r| == Kept(next.value, f) <= |next.value|
    ensures next.Some? && previous.Some? ==>
      objects <= r && |r| == |objects| + Kept(next.value, f) <= |objects| + |next.value|
  {
    match (previous, next)
    case (None, Some(response)) => FlatMap(response, f)
    case (Some(_), Some(response)) => objects + FlatMap(response, f)
    case (_, None) => objects
  }

  /** The value `combinePrevious(nil)` pairs with the next event: the last one seen, or nil. */
  function Previous<E>(events: seq<Event<E>>): Event<E>
  {
    if events == [] then None else events[|events| - 1]
  }

  /** How many elements all the responses in `events` carry together. */
  function Received<E>(events: seq<Event<E>>): nat
  {
    if events == [] then 0
    else Received(events[..|events| - 1]) + match events[|events| - 1] {
      case Some(response) => |response|
      case None => 0
    }
  }

  /**
   * The list of view models after the paginator has emitted `events`, in
   * order; it never holds more view models than elements were received.
   */
  function Accumulate<E, V>(events: seq<Event<E>>, f: E -> Option<V>): (r: seq<V>)
    ensures |r| <= Received(events)
    decreases |events|
  {
    if events == [] then []
    else
      var before := events[..|events| - 1];
      Step(Accumulate(before, f), Previous(before), events[|events| - 1], f)
  }

  /** One more event: the fold takes one more step. */
  lemma AccumulateSnoc<E, V>(events: seq<Event<E>>, next: Event<E>, f: E -> Option<V>)
    ensures Accumulate(events + [next], f) == Step(Accumulate(events, f), Previous(events), next, f)
  {
    assert (events + [next])[..|events|] == events;
  }

  /**
   * The fold at emission `i`: the list after it is one reducer step from the
   * list before it, with `i` paired with the emission just before it, or with
   * nil when it is the first.
   */
  lemma {:induction false} FoldPairs<E, V>(events: seq<Event<E>>, i: nat, f: E -> Option<V>)
    requires i < |events|
    ensures Accumulate(events[..i + 1], f)
         == Step(Accumulate(events[..i], f), if i == 0 then None else events[i - 1], events[i], f)
  {
    assert events[..i + 1][..i] == events[..i];
  }

  /** A response that follows nil (or comes first) replaces the list with its view models. */
  lemma ResetReplaces<E, V>(events: seq<Event<E>>, response: Response<E>, f: E -> Option<V>)
    requires Previous(events) == None
    ensures Accumulate(events + [Some(response)], f) == FlatMap(response, f)
  {
    AccumulateSnoc(events, Some(response), f);
  }

  /**
   * A response that follows a response appends its view models and leaves the
   * existing list as a prefix; the list grows by the number of kept elements,
   * so by at most the size of the response.
   */
  lemma AppendExtends<E, V>(events: seq<Event<E>>, response: Response<E>, f: E -> Option<V>)
    requires Previous(events).Some?
    ensures Accumulate(events + [Some(response)], f) == Accumulate(events, f) + FlatMap(response, f)
    ensures |Accumulate(events + [Some(response)], f)| == |Accumulate(events, f)| + Kept(response, f)
    ensures |Accumulate(events + [Some(response)], f)| <= |Accumulate(events, f)| + |response|
  {
    AccumulateSnoc(events, Some(response), f);
  }

  // ---------------------------------------------------------------------------
  // An independent description of the accumulated list
  // ---------------------------------------------------------------------------

  /** The view models of several responses, concatenated in arrival order. */
  function Concat<E, V>(responses: seq<Response<E>>, f: E -> Option<V>): seq<V>
  {
    if responses == [] then []
    else Concat(responses[..|responses| - 1], f) + FlatMap(responses[|responses| - 1], f)
  }

  /** All elements of several responses, in arrival order. */
  function Flatten<E>(responses: seq<Response<E>>): seq<E>
  {
    if responses == [] then [] else Flatten(responses[..|responses| - 1]) + responses[|responses| - 1]
  }

  /** Concatenating the per-response transforms is transforming all elements at once. */
  lemma {:induction false} ConcatIsFlatMapOfAll<E, V>(responses: seq<Response<E>>, f: E -> Option<V>)
    ensures Concat(responses, f) == FlatMap(Flatten(responses), f)
  {
    if responses != [] {
      var init := responses[..|responses| - 1];
      ConcatIsFlatMapOfAll(init, f);
      FlatMapConcat(Flatten(init), responses[|responses| - 1], f);
    }
  }

  /** The events for a run of responses, each of them present. */
  function Present<E>(responses: seq<Response<E>>): seq<Event<E>>
  {
    seq(|responses|, i requires 0 <= i < |responses| => Some(responses[i]))
  }

  /** `k` nil events. */
  function Absent<E>(k: nat): seq<Event<E>>
  {
    seq(k, i => None)
  }

  /** The responses carried by a run of present events. */
  function Values<E>(events: seq<Event<E>>): (responses: seq<Response<E>>)
    requires forall i :: 0 <= i < |events| ==> events[i].Some?
    ensures Present(responses) == events
  {
    seq(|events|, i requires 0 <= i < |events| => events[i].value)
  }

  /** `events` without its trailing nil events. */
  function TrimAbsent<E>(events: seq<Event<E>>): (t: seq<Event<E>>)
    ensures |t| <= |events| && events == t + Absent(|events| - |t|)
    ensures t == [] || t[|t| - 1].Some?
  {
    if events != [] && events[|events| - 1].None? then
      var t := TrimAbsent(events[..|events| - 1]);
      assert events == events[..|events| - 1] + [None];
      assert Absent<E>(|events| - 1 - |t|) + [None] == Absent<E>(|events| - |t|);
      t
    else
      assert Absent<E>(0) == [];
      events
  }

  /** Where the final run of present events of `t` starts: just after its last nil, or 0. */
  function RunStart<E>(t: seq<Event<E>>): (s: nat)
    ensures s <= |t|
    ensures s == 0 || t[s - 1].None?
    ensures forall i :: s <= i < |t| ==> t[i].Some?
  {
    if t == [] then 0
    else if t[|t| - 1].None? then |t|
    else RunStart(t[..|t| - 1])
  }

  /**
   * The responses the list is built from: those of the most recent
   * uninterrupted run of present events, ignoring nil events after it.
   */
  function LastRun<E>(events: seq<Event<E>>): seq<Response<E>>
  {
    var t := TrimAbsent(events);
    Values(t[RunStart(t)..])
  }

  // ---------------------------------------------------------------------------
  // Properties of the reducer
  // ---------------------------------------------------------------------------

  /** nil events leave the list as it is. */
  lemma {:induction false} AbsentKeepsList<E, V>(events: seq<Event<E>>, k: nat, f: E -> Option<V>)
    ensures Accumulate(events + Absent(k), f) == Accumulate(events, f)
  {
    if k == 0 {
      assert events + Absent(k) == events;
    } else {
      AbsentKeepsList(events, k - 1, f);
      assert events + Absent(k) == (events + Absent(k - 1)) + [None];
      AccumulateSnoc(events + Absent(k - 1), None, f);
    }
  }

  /** Before any response arrives the list is empty. */
  lemma {:induction false} EmptyBeforeAnyResponse<E, V>(events: seq<Event<E>>, f: E -> Option<V>)
    requires forall i :: 0 <= i < |events| ==> events[i].None?
    ensures Accumulate(events, f) == []
  {
    assert events == [] + Absent(|events|);
    AbsentKeepsList([], |events|, f);
  }

  /**
   * After a reset (the start, or a nil event), present responses r1..rk give
   * the concatenation of their view models, in arrival order; the list from
   * before the reset is gone.
   */
  lemma {:induction false} RunAfterReset<E, V>(prefix: seq<Event<E>>, responses: seq<Response<E>>, f: E -> Option<V>)
    requires Previous(prefix) == None
    ensures Accumulate(prefix + Present(responses), f)
         == if responses == [] then Accumulate(prefix, f) else Concat(responses, f)
  {
    if responses != [] {
      var init := responses[..|responses| - 1];
      var last := responses[|responses| - 1];
      var before := prefix + Present(init);
      assert prefix + Present(responses) == before + [Some(last)];
      if init == [] {
        assert before == prefix;
        ResetReplaces(before, last, f);
        assert Concat(responses, f) == [] + FlatMap(last, f);
      } else {
        RunAfterReset(prefix, init, f);
        assert Previous(before) == Some(init[|init| - 1]);
        AppendExtends(before, last, f);
      }
    } else {
      assert prefix + Present(responses) == prefix;
    }
  }

  /** The accumulated list is exactly the view models of the most recent run of responses. */
  lemma {:induction false} AccumulateIsLastRun<E, V>(events: seq<Event<E>>, f: E -> Option<V>)
    ensures Accumulate(events, f) == Concat(LastRun(events), f)
    ensures Accumulate(events, f) == FlatMap(Flatten(LastRun(events)), f)
  {
    var t := TrimAbsent(events);
    var s := RunStart(t);
    var run := Values(t[s..]);
    AbsentKeepsList(t, |events| - |t|, f);
    assert t == t[..s] + Present(run);
    assert Previous(t[..s]) == None;
    RunAfterReset(t[..s], run, f);
    if run == [] {
      assert s == |t|;
      assert t == [];
    }
    ConcatIsFlatMapOfAll(LastRun(events), f);
  }

  /** The same response twice in a row is appended twice: nothing is deduplicated. */
  lemma NoDeduplication<E, V>(events: seq<Event<E>>, response: Response<E>, f: E -> Option<V>)
    ensures Accumulate(events + [Some(response), Some(response)], f)
         == Accumulate(events + [Some(response)], f) + FlatMap(response, f)
    ensures |Accumulate(events + [Some(response), Some(response)], f)|
         == |Accumulate(events + [Some(response)], f)| + Kept(response, f)
  {
    assert events + [Some(response), Some(response)] == (events + [Some(response)]) + [Some(response)];
    AccumulateSnoc(events + [Some(response)], Some(response), f);
  }

  // ---------------------------------------------------------------------------
  // The composite data source: view models, then the "load more" row
  // ---------------------------------------------------------------------------

  /** A row of the list: a view model, or the trailing "load more" cell. */
  datatype Row<V> = Item(viewModel: V) | LoadMore

  /** The rows of the load-more data source for a value of `allLoaded`. */
  function LoadMoreSource<V>(allLoaded: bool): (r: seq<Row<V>>)
    ensures r == [] <==> allLoaded
    ensures |r| <= 1 && forall i :: 0 <= i < |r| ==> r[i].LoadMore?
  {
    if allLoaded then [] else [LoadMore]
  }

  /** The rows of the view-model data source. */
  function Items<V>(viewModels: seq<V>): seq<Row<V>>
  {
    seq(|viewModels|, i requires 0 <= i < |viewModels| => Item(viewModels[i]))
  }

  /** The composite list: the view models in order, then "load more" exactly when not all is loaded. */
  function Composite<V>(viewModels: seq<V>, allLoaded: bool): (r: seq<Row<V>>)
    ensures |r| == |viewModels| + (if allLoaded then 0 else 1)
    ensures forall i :: 0 <= i < |viewModels| ==> r[i] == Item(viewModels[i])
    ensures (exists i :: 0 <= i < |r| && r[i].LoadMore?) <==> !allLoaded
    ensures !allLoaded ==> r[|r| - 1] == LoadMore
  {
    var r := Items(viewModels) + LoadMoreSource(allLoaded);
    assert !allLoaded ==> r[|r| - 1].LoadMore?;
    r
  }

  /** The commands the view model forwards to the paginator. */
  datatype PaginatorCommand = LoadNext | LoadCurrent

  /**
   * The view model. `viewModels` and the load-more source are overwritten on
   * every paginator emission; `previous` is the state `combinePrevious` keeps;
   * `forwarded` records the calls made on the paginator.
   */
  class BaseViewModel<E, V> {
    const transform: E -> Option<V>
    var viewModels: seq<V>
    var previous: Event<E>
    var loadMoreSource: seq<Row<V>>
    var forwarded: seq<PaginatorCommand>

    /** Every `lastResponse` value received so far. */
    ghost var events: seq<Event<E>>
    /** The last `allLoaded` value received. */
    ghost var allLoaded: bool

    ghost predicate Valid()
      reads this
    {
      && viewModels == Accumulate(events, transform)
      && previous == Previous(events)
      && loadMoreSource == LoadMoreSource(allLoaded)
    }

    /** The view model, subscribed to a paginator whose `allLoaded` currently holds `allLoaded`. */
    constructor (transform: E -> Option<V>, allLoaded: bool)
      ensures Valid()
      ensures this.transform == transform && this.allLoaded == allLoaded
      ensures events == [] && viewModels == [] && forwarded == []
    {
      this.transform := transform;
      viewModels := [];
      previous := None;
      loadMoreSource := LoadMoreSource(allLoaded);
      forwarded := [];
      events := [];
      this.allLoaded := allLoaded;
    }

    /** The rows the collection view shows. */
    function DataSource(): (r: seq<Row<V>>)
      reads this
      requires Valid()
      ensures r == Composite(viewModels, allLoaded)
    {
      Items(viewModels) + loadMoreSource
    }

    /** The paginator's `lastResponse` emits `next`. */
    method OnResponse(next: Event<E>)
      requires Valid()
      modifies this
      ensures Valid()
      ensures events == old(events) + [next]
      ensures viewModels == Step(old(viewModels), old(previous), next, transform)
      ensures allLoaded == old(allLoaded) && forwarded == old(forwarded)
    {
      AccumulateSnoc(events, next, transform);
      viewModels := Step(viewModels, previous, next, transform);
      previous := next;
      events := events + [next];
    }

    /** The paginator's `allLoaded` emits `value`. */
    method OnAllLoaded(value: bool)
      requires Valid()
      modifies this
      ensures Valid()
      ensures allLoaded == value
      ensures events == old(events) && viewModels == old(viewModels) && forwarded == old(forwarded)
    {
      loadMoreSource := LoadMoreSource(value);
      allLoaded := value;
    }

    /** `loadMore()`: asks the paginator for the next page and changes nothing else. */
    method LoadMore()
      requires Valid()
      modifies this`forwarded
      ensures Valid()
      ensures forwarded == old(forwarded) + [LoadNext]
    {
      forwarded := forwarded + [LoadNext];
    }

    /** `reload()`: asks the paginator to load the current page again and changes nothing else. */
    method Reload()
      requires Valid()
      modifies this`forwarded
      ensures Valid()
      ensures forwarded == old(forwarded) + [LoadCurrent]
    {
      forwarded := forwarded + [LoadCurrent];
    }
  }
}
