/** The observable state a view model exposes, and the `subscribe` handlers that update it.

    `dataSource` is a `BehaviorRelay` and is modelled by its current value; `isLoading` and
    `errorPublisher` are `PublishSubject`s, which keep nothing, and are modelled by the log of
    everything emitted on them, oldest first. */
module Reactive {
  import opened Wrappers

  /** One event of an RxSwift `Observable`: `.next`, `.error` or `.completed`. */
  datatype Event<+T> = Next(element: T) | Failed(error: Error) | Completed

  datatype Signals<T> = Signals(dataSource: T, loading: seq<bool>, errors: seq<Error>)

  /** One emission on any output of a view model, as a subscriber to all of them sees it:
      a value accepted by `dataSource`, a value on `isLoading`, an error on `errorPublisher`,
      or a text on `dateRange` (which only the transactions screen has). */
  datatype Emission<T> = Accepted(value: T) | Loading(busy: bool) | Published(error: Error)
                       | RangeText(text: string)

  /** The `subscribe { event in switch event ... }` handler shared by
      `TransactionsViewModel.updateDataSource` and `AccountsViewModel.refreshData`:
      `.next` replaces the data source, `.error` publishes the error, `.completed`
      emits `false` on `isLoading`. */
  function OnEvent<T>(s: Signals<T>, event: Event<T>): Signals<T> {
    match event
    case Next(x) => s.(dataSource := x)
    case Failed(e) => s.(errors := s.errors + [e])
    case Completed => s.(loading := s.loading + [false])
  }

  /** What the shared handler emits for one event. */
  function EventEmission<T>(event: Event<T>): Emission<T> {
    match event
    case Next(x) => Accepted(x)
    case Failed(e) => Published(e)
    case Completed => Loading(false)
  }

  /** What the shared handler emits for a sequence of events, in order. */
  function StreamEmissions<T>(events: seq<Event<T>>): (r: seq<Emission<T>>)
    ensures |r| == |events| && forall i :: 0 <= i < |events| ==> r[i] == EventEmission(events[i])
  {
    seq(|events|, i requires 0 <= i < |events| => EventEmission(events[i]))
  }

  /** The handler of a `Single` in `TransactionsViewModel.refreshData()`: `.success` replaces
      the data source, `.error` publishes the error, and both then emit `false`. */
  function OnSingleEvent<T>(s: Signals<T>, outcome: Result<T>): (r: Signals<T>)
    ensures r.loading == s.loading + [false]
    ensures r.dataSource == (if outcome.Ok? then outcome.value else s.dataSource)
    ensures r.errors == s.errors + (if outcome.Err? then [outcome.error] else [])
  {
    match outcome
    case Ok(x) => s.(dataSource := x, loading := s.loading + [false])
    case Err(e) => s.(errors := s.errors + [e], loading := s.loading + [false])
  }

  /** What the `Single` handler emits: the value or the error, then `false`. */
  function SingleEmissions<T>(outcome: Result<T>): seq<Emission<T>> {
    match outcome
    case Ok(x) => [Accepted(x), Loading(false)]
    case Err(e) => [Published(e), Loading(false)]
  }

  /** Events delivered in order to the `subscribe` handler. */
  function Run<T>(s: Signals<T>, events: seq<Event<T>>): Signals<T>
    decreases |events|
  {
    if events == [] then s else Run(OnEvent(s, events[0]), events[1..])
  }

  /** The Rx grammar: any number of `.next` events, then at most one terminal event. */
  predicate IsStream<T>(events: seq<Event<T>>) {
    forall i :: 0 <= i < |events| - 1 ==> events[i].Next?
  }

  /** The last element a stream delivered, or `default` if it delivered none. */
  function LastElement<T>(events: seq<Event<T>>, default: T): T
    decreases |events|
  {
    if events == [] then default
    else LastElement(events[1..], if events[0].Next? then events[0].element else default)
  }

  /** The events of an `Observable` made from a single request (`Single.asObservable()`):
      the value then completion, or the error alone. */
  function ObservableOf<T>(outcome: Result<T>): (events: seq<Event<T>>)
    ensures IsStream(events)
    ensures outcome.Ok? <==> Completed in events
  {
    match outcome
    case Ok(x) => [Next(x), Completed]
    case Err(e) => [Failed(e)]
  }

  /** What the shared handler does with a whole stream: the data source ends at the last
      element delivered; `false` is emitted once exactly when the stream completed; an error
      is published once exactly when the stream failed; nothing emits `true`. */
  lemma {:induction false} RunStream<T>(s: Signals<T>, events: seq<Event<T>>)
    requires IsStream(events)
    ensures Run(s, events).dataSource == LastElement(events, s.dataSource)
    ensures Run(s, events).loading
            == s.loading + (if events != [] && events[|events| - 1].Completed? then [false] else [])
    ensures Run(s, events).errors
            == s.errors + (if events != [] && events[|events| - 1].Failed?
                           then [events[|events| - 1].error] else [])
    decreases |events|
  {
    if events != [] {
      var s' := OnEvent(s, events[0]);
      assert IsStream(events[1..]) by {
        forall i | 0 <= i < |events[1..]| - 1 ensures events[1..][i].Next? {
          assert events[1..][i] == events[i + 1];
        }
      }
      RunStream(s', events[1..]);
      if |events| > 1 {
        assert events[0].Next?;
        assert events[1..][|events[1..]| - 1] == events[|events| - 1];
      }
    }
  }

  /** A single request delivered to the shared handler: success replaces the data source and
      emits `false`, failure publishes the error; nothing else changes. */
  lemma RunSingle<T>(s: Signals<T>, outcome: Result<T>)
    ensures Run(s, ObservableOf(outcome)).dataSource
            == (if outcome.Ok? then outcome.value else s.dataSource)
    ensures Run(s, ObservableOf(outcome)).loading == s.loading + (if outcome.Ok? then [false] else [])
    ensures Run(s, ObservableOf(outcome)).errors
            == s.errors + (if outcome.Err? then [outcome.error] else [])
  {
    var events := ObservableOf(outcome);
    RunStream(s, events);
    assert LastElement(events, s.dataSource) == (if outcome.Ok? then outcome.value else s.dataSource) by {
      if outcome.Ok? {
        assert events == [Next(outcome.value), Completed];
        assert events[1..] == [Completed];
        assert LastElement(events[1..][1..], outcome.value) == outcome.value;
      } else {
        assert events[1..] == [];
      }
    }
  }
}
