/**
 * The fetch coalescer of the Google Cloud family as pure transitions of its
 * five shared fields, plus a system view that also counts the fetches the
 * network has not yet answered, so that whole runs of requests and
 * completions can be reasoned about.
 *
 * `C` is whatever a queued callback is; the imperative model instantiates it
 * with the service whose closure was queued.
 */
module FetchCoalescer {
  import opened Wrappers
  import opened ServiceStatuses
  import opened Classifier

  /** Seconds during which the cached statuses count as fresh. */
  const FreshnessWindow: int := 60

  const UnexpectedError: string := "Unexpected error"
  const UnreadableResponse: string := "Unreadable response"
  const UnparseableResponse: string := "Couldn't parse response"

  /** How the network request ended, as seen by its completion handler. */
  datatype Outcome =
    | NoData(error: Option<string>)   // no body; the transport error's description, if any
    | Unreadable                      // the body is not UTF-8 text
    | Unparseable                     // the text is not an HTML document
    | Rows(rows: seq<Row>)            // the `.timeline tr` rows of the document

  predicate Failed(outcome: Outcome) {
    !outcome.Rows?
  }

  /** The shared fields: `statuses`, `callbacks`, `lastUpdateTime`, `currentlyReloading`, `loadErrorMessage`. */
  datatype FamilyState<C> = FamilyState(
    statuses: map<string, ServiceStatus>,
    callbacks: seq<C>,
    lastUpdateTime: int,
    currentlyReloading: bool,
    loadErrorMessage: Option<string>)

  function Initial<C>(): FamilyState<C> {
    FamilyState(map[], [], 0, false, None)
  }

  /** A request's effect: the new state, the callbacks fired in order, and whether one fetch was issued. */
  datatype RequestStep<C> = RequestStep(state: FamilyState<C>, fired: seq<C>, fetch: bool)

  /** A completion's effect: the new state and the callbacks fired in order. */
  datatype CompletionStep<C> = CompletionStep(state: FamilyState<C>, fired: seq<C>)

  /** The message a failed completion stores: the error's description, or the generic one. */
  function FailureMessage(outcome: Outcome): (m: string)
    requires Failed(outcome)
    ensures outcome.NoData? && outcome.error.Some? ==> m == outcome.error.value
    ensures outcome.NoData? && outcome.error.None? ==> m == UnexpectedError
    ensures outcome.Unreadable? ==> m == UnreadableResponse
    ensures outcome.Unparseable? ==> m == UnparseableResponse
  {
    match outcome
    case NoData(error) => error.GetOr(UnexpectedError)
    case Unreadable => UnreadableResponse
    case Unparseable => UnparseableResponse
  }

  /**
   * A request: the callback is queued first; while a reload is in flight
   * nothing else happens; inside the freshness window the whole queue fires;
   * otherwise the family starts reloading and exactly one fetch is issued.
   */
  function OnRequest<C>(s: FamilyState<C>, cb: C, now: int): (t: RequestStep<C>)
    // nothing is lost or duplicated, and the queue keeps call order
    ensures t.fired + t.state.callbacks == s.callbacks + [cb]
    ensures s.currentlyReloading ==>
      t.state == s.(callbacks := s.callbacks + [cb]) && t.fired == [] && !t.fetch
    ensures !s.currentlyReloading ==> (t.fetch <==> now - s.lastUpdateTime >= FreshnessWindow)
    ensures !s.currentlyReloading && !t.fetch ==> t.state.callbacks == [] && !t.state.currentlyReloading
    ensures t.fetch ==> t.fired == [] && t.state.currentlyReloading
    ensures t.state.statuses == s.statuses && t.state.lastUpdateTime == s.lastUpdateTime
    ensures t.state.loadErrorMessage == s.loadErrorMessage
  {
    var queued := s.(callbacks := s.callbacks + [cb]);
    if queued.currentlyReloading then
      RequestStep(queued, [], false)
    else if now - queued.lastUpdateTime >= FreshnessWindow then
      RequestStep(queued.(currentlyReloading := true), [], true)
    else
      RequestStep(queued.(callbacks := []), queued.callbacks, false)
  }

  /**
   * The completion handler: the map is emptied first. A failure records its
   * message and returns, leaving the queue and the reloading flag as they were;
   * a success rebuilds the map from the rows, fires the whole queue, empties it
   * and clears the reloading flag. The last update time is never written.
   */
  function OnCompletion<C>(s: FamilyState<C>, outcome: Outcome): (t: CompletionStep<C>)
    ensures t.fired + t.state.callbacks == s.callbacks
    ensures t.state.lastUpdateTime == s.lastUpdateTime
    ensures Failed(outcome) ==>
      t.state == s.(statuses := map[], loadErrorMessage := Some(FailureMessage(outcome))) && t.fired == []
    ensures outcome.Rows? ==>
      t.state == s.(statuses := Classified(outcome.rows), callbacks := [], currentlyReloading := false)
      && t.fired == s.callbacks
  {
    var cleared := s.(statuses := map[]);
    match outcome
    case Rows(rows) =>
      CompletionStep(cleared.(statuses := Classified(rows), callbacks := [], currentlyReloading := false), cleared.callbacks)
    case _ =>
      CompletionStep(cleared.(loadErrorMessage := Some(FailureMessage(outcome))), [])
  }

  /** The family together with the number of fetches issued and not yet answered. */
  datatype System<C> = System(family: FamilyState<C>, inFlight: nat)

  function Start<C>(): System<C> {
    System(Initial(), 0)
  }

  /** A request for an update, or the network answering an issued fetch. */
  datatype Event<C> = Ask(cb: C, now: int) | Complete(outcome: Outcome)

  /** A completion can only arrive for a fetch that was issued. */
  predicate Enabled<C>(sys: System<C>, e: Event<C>) {
    e.Complete? ==> sys.inFlight > 0
  }

  /** The effect of some events: the resulting system, the callbacks fired in order, the fetches issued. */
  datatype Effect<C> = Effect(sys: System<C>, fired: seq<C>, fetches: nat)

  function Step<C>(sys: System<C>, e: Event<C>): (r: Effect<C>)
    requires Enabled(sys, e)
    ensures r.fired + r.sys.family.callbacks == sys.family.callbacks + (if e.Ask? then [e.cb] else [])
    ensures r.sys.family.lastUpdateTime == sys.family.lastUpdateTime
  {
    match e
    case Ask(cb, now) =>
      var t := OnRequest(sys.family, cb, now);
      var issued := if t.fetch then 1 else 0;
      Effect(System(t.state, sys.inFlight + issued), t.fired, issued)
    case Complete(outcome) =>
      var t := OnCompletion(sys.family, outcome);
      Effect(System(t.state, sys.inFlight - 1), t.fired, 0)
  }

  /** Every event of the sequence is enabled when it arrives. */
  predicate Admissible<C>(sys: System<C>, events: seq<Event<C>>)
    decreases |events|
  {
    events == [] || (Enabled(sys, events[0]) && Admissible(Step(sys, events[0]).sys, events[1..]))
  }

  function Then<C>(first: Effect<C>, next: Effect<C>): Effect<C> {
    Effect(next.sys, first.fired + next.fired, first.fetches + next.fetches)
  }

  lemma ThenAssoc<C>(x: Effect<C>, y: Effect<C>, z: Effect<C>)
    ensures Then(x, Then(y, z)) == Then(Then(x, y), z)
  {
    assert x.fired + (y.fired + z.fired) == (x.fired + y.fired) + z.fired;
  }

  function Run<C>(sys: System<C>, events: seq<Event<C>>): Effect<C>
    requires Admissible(sys, events)
    decreases |events|
  {
    if events == [] then Effect(sys, [], 0)
    else
      var first := Step(sys, events[0]);
      Then(first, Run(first.sys, events[1..]))
  }

  /** The callbacks of the requests among the events, in order. */
  function Asked<C>(events: seq<Event<C>>): seq<C> {
    if events == [] then []
    else (if events[0].Ask? then [events[0].cb] else []) + Asked(events[1..])
  }

  predicate AllAsks<C>(events: seq<Event<C>>) {
    forall i :: 0 <= i < |events| ==> events[i].Ask?
  }

  /**
   * What holds in every reachable system: at most one fetch is in flight, and
   * only while reloading; an idle family has an empty queue and no error; an
   * error is recorded only once nothing is in flight any more.
   */
  ghost predicate Inv<C>(sys: System<C>) {
    var f := sys.family;
    && sys.inFlight <= 1
    && (sys.inFlight == 1 ==> f.currentlyReloading && f.loadErrorMessage.None?)
    && (!f.currentlyReloading ==> f.callbacks == [] && f.loadErrorMessage.None?)
    && (f.loadErrorMessage.Some? ==> sys.inFlight == 0)
  }

  lemma StartInv<C>()
    ensures Inv(Start<C>())
  {
  }

  lemma StepInv<C>(sys: System<C>, e: Event<C>)
    requires Inv(sys) && Enabled(sys, e)
    ensures Inv(Step(sys, e).sys)
  {
  }

  /** At most one fetch is ever in flight, whatever the requests and answers. */
  lemma {:induction false} RunInv<C>(sys: System<C>, events: seq<Event<C>>)
    requires Inv(sys) && Admissible(sys, events)
    ensures Inv(Run(sys, events).sys)
    decreases |events|
  {
    if events != [] {
      StepInv(sys, events[0]);
      RunInv(Step(sys, events[0]).sys, events[1..]);
    }
  }

  /** Between two answers, requests issue at most one fetch in total. */
  lemma {:induction false} OneFetchUntilAnswered<C>(sys: System<C>, events: seq<Event<C>>)
    requires Inv(sys) && AllAsks(events)
    ensures Admissible(sys, events)
    ensures Run(sys, events).fetches + sys.inFlight <= 1
    decreases |events|
  {
    if events != [] {
      var first := Step(sys, events[0]);
      StepInv(sys, events[0]);
      OneFetchUntilAnswered(first.sys, events[1..]);
    }
  }

  /** Queue bookkeeping of two consecutive steps, as plain sequence algebra. */
  lemma Regroup<C>(queue: seq<C>, head: seq<C>, tail: seq<C>, f1: seq<C>, q1: seq<C>, f2: seq<C>, q2: seq<C>)
    requires f1 + q1 == queue + head && f2 + q2 == q1 + tail
    ensures (f1 + f2) + q2 == queue + (head + tail)
  {
    calc {
      (f1 + f2) + q2;
      f1 + (f2 + q2);
      f1 + (q1 + tail);
      (f1 + q1) + tail;
      (queue + head) + tail;
    }
  }

  /** Every requested callback is fired at most once, in request order, or is still queued. */
  lemma {:induction false} RunConservesCallbacks<C>(sys: System<C>, events: seq<Event<C>>)
    requires Admissible(sys, events)
    ensures Run(sys, events).fired + Run(sys, events).sys.family.callbacks == sys.family.callbacks + Asked(events)
    decreases |events|
  {
    if events != [] {
      var first := Step(sys, events[0]);
      var rest := Run(first.sys, events[1..]);
      RunConservesCallbacks(first.sys, events[1..]);
      var head := if events[0].Ask? then [events[0].cb] else [];
      var tail := Asked(events[1..]);
      assert Asked(events) == head + tail;
      var f1, q1, f2, q2 := first.fired, first.sys.family.callbacks, rest.fired, rest.sys.family.callbacks;
      assert f1 + q1 == sys.family.callbacks + head;
      assert f2 + q2 == q1 + tail;
      assert Run(sys, events).fired == f1 + f2 && Run(sys, events).sys.family.callbacks == q2;
      Regroup(sys.family.callbacks, head, tail, f1, q1, f2, q2);
    }
  }

  lemma RunSingle<C>(sys: System<C>, e: Event<C>)
    requires Enabled(sys, e)
    ensures Admissible(sys, [e]) && Run(sys, [e]) == Step(sys, e)
  {
    var first := Step(sys, e);
    assert [e][1..] == [];
    assert Admissible(first.sys, [e][1..]);
    assert first.fired + [] == first.fired;
  }

  /** Running two event sequences one after the other is running their concatenation. */
  lemma {:induction false} RunConcat<C>(sys: System<C>, a: seq<Event<C>>, b: seq<Event<C>>)
    requires Admissible(sys, a) && Admissible(Run(sys, a).sys, b)
    ensures Admissible(sys, a + b)
    ensures Run(sys, a + b) == Then(Run(sys, a), Run(Run(sys, a).sys, b))
    decreases |a|
  {
    if a == [] {
      assert a + b == b;
    } else {
      var first := Step(sys, a[0]);
      assert (a + b)[0] == a[0];
      assert (a + b)[1..] == a[1..] + b;
      RunConcat(first.sys, a[1..], b);
      var mid := Run(first.sys, a[1..]);
      ThenAssoc(first, mid, Run(mid.sys, b));
    }
  }

  /** The last update time is never written, by any event. */
  lemma {:induction false} LastUpdateTimeNeverAssigned<C>(sys: System<C>, events: seq<Event<C>>)
    requires Admissible(sys, events)
    ensures Run(sys, events).sys.family.lastUpdateTime == sys.family.lastUpdateTime
    decreases |events|
  {
    if events != [] {
      LastUpdateTimeNeverAssigned(Step(sys, events[0]).sys, events[1..]);
    }
  }

  /**
   * Starting from the initial state, a request made at least a minute after
   * the epoch never takes the fast path: it fires nothing, and issues a fetch
   * unless one is being waited for.
   */
  lemma EveryRequestIsStale<C>(events: seq<Event<C>>, cb: C, now: int)
    requires Admissible(Start(), events) && now >= FreshnessWindow
    ensures var sys := Run(Start(), events).sys;
            var t := Step(sys, Ask(cb, now));
            t.fired == [] && t.fetches == (if sys.family.currentlyReloading then 0 else 1)
  {
    LastUpdateTimeNeverAssigned(Start<C>(), events);
  }

  /** While reloading, requests only queue their callbacks. */
  lemma {:induction false} ReloadingOnlyQueues<C>(sys: System<C>, events: seq<Event<C>>)
    requires sys.family.currentlyReloading && AllAsks(events)
    ensures Admissible(sys, events)
    ensures Run(sys, events)
      == Effect(System(sys.family.(callbacks := sys.family.callbacks + Asked(events)), sys.inFlight), [], 0)
    decreases |events|
  {
    if events != [] {
      var first := Step(sys, events[0]);
      ReloadingOnlyQueues(first.sys, events[1..]);
      var queue, cb, tail := sys.family.callbacks, events[0].cb, Asked(events[1..]);
      assert Asked(events) == [cb] + tail;
      assert first.sys.family.callbacks == queue + [cb];
      assert (queue + [cb]) + tail == queue + ([cb] + tail);
    }
  }

  /** With nothing in flight, only requests can happen. */
  lemma {:induction false} IdleAdmitsOnlyAsks<C>(sys: System<C>, events: seq<Event<C>>)
    requires sys.family.currentlyReloading && sys.inFlight == 0 && Admissible(sys, events)
    ensures AllAsks(events)
    decreases |events|
  {
    if events != [] {
      var first := Step(sys, events[0]);
      IdleAdmitsOnlyAsks(first.sys, events[1..]);
      forall i | 0 <= i < |events| ensures events[i].Ask? {
        if i > 0 {
          assert events[1..][i - 1] == events[i];
        }
      }
    }
  }

  /**
   * A failed fetch leaves the family stuck: the map is empty, the error is
   * recorded, the queued callbacks are never fired, and no later request fires
   * anything or issues another fetch; it only joins the queue.
   */
  lemma FailureIsTerminal<C>(sys: System<C>, outcome: Outcome, events: seq<Event<C>>)
    requires Inv(sys) && sys.inFlight == 1 && Failed(outcome)
    requires Admissible(Step(sys, Complete(outcome)).sys, events)
    ensures var failed := Step(sys, Complete(outcome));
            var later := Run(failed.sys, events);
            && failed.fired == [] && failed.sys.family.statuses == map[]
            && failed.sys.family.loadErrorMessage == Some(FailureMessage(outcome))
            && later.fired == [] && later.fetches == 0
            && later.sys.family.callbacks == sys.family.callbacks + Asked(events)
            && later.sys.family.currentlyReloading && later.sys.inFlight == 0
  {
    var failed := Step(sys, Complete(outcome));
    IdleAdmitsOnlyAsks(failed.sys, events);
    ReloadingOnlyQueues(failed.sys, events);
  }

  /** On an idle family with stale data, a burst of requests issues one fetch and queues every callback. */
  lemma StaleBurst<C>(sys: System<C>, cb: C, now: int, later: seq<Event<C>>)
    requires Inv(sys) && !sys.family.currentlyReloading
    requires now - sys.family.lastUpdateTime >= FreshnessWindow
    requires AllAsks(later)
    ensures Admissible(sys, [Ask(cb, now)] + later)
    ensures Run(sys, [Ask(cb, now)] + later) == Effect(
      System(sys.family.(callbacks := [cb] + Asked(later), currentlyReloading := true), 1), [], 1)
  {
    var ask: seq<Event<C>> := [Ask(cb, now)];
    var reloading := sys.family.(callbacks := [cb], currentlyReloading := true);
    RunSingle(sys, Ask(cb, now));
    var started := Run(sys, ask);
    assert started == Effect(System(reloading, 1), [], 1);
    ReloadingOnlyQueues(started.sys, later);
    var queued := Run(started.sys, later);
    assert queued == Effect(System(reloading.(callbacks := [cb] + Asked(later)), 1), [], 0);
    RunConcat(sys, ask, later);
    assert Run(sys, ask + later) == Then(started, queued);
  }

  /**
   * Coalescing: on an idle family with stale data, a burst of requests issues
   * exactly one fetch; its successful answer fires every callback of the burst
   * once, in request order, and replaces the map by the parsed rows.
   */
  lemma Coalescing<C>(sys: System<C>, cb: C, now: int, later: seq<Event<C>>, rows: seq<Row>)
    requires Inv(sys) && !sys.family.currentlyReloading
    requires now - sys.family.lastUpdateTime >= FreshnessWindow
    requires AllAsks(later)
    ensures var events := [Ask(cb, now)] + later + [Complete(Rows(rows))];
            && Admissible(sys, events)
            && var r := Run(sys, events);
            && r.fetches == 1 && r.fired == [cb] + Asked(later)
            && r.sys == System(sys.family.(statuses := Classified(rows)), 0)
  {
    var burst: seq<Event<C>> := [Ask(cb, now)] + later;
    StaleBurst(sys, cb, now, later);
    var queued := Run(sys, burst);
    RunSingle(queued.sys, Complete(Rows(rows)));
    RunConcat(sys, burst, [Complete(Rows(rows))]);
  }
}
