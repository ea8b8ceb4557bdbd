/**
 * The reveal-on-scroll wrapper (src/components/ScrollReveal.tsx).
 *
 * The intersection observer delivers in-view notifications; on each one the
 * effect starts the `visible` variant when the element is in view, and the
 * `hidden` variant when it is out of view and `once` is off.  The element is
 * mounted in the `hidden` variant.
 */
module ScrollReveal {

  datatype Visibility = Hidden | Visible

  /** Defaults of the wrapper's props; times in milliseconds. */
  const DefaultOnce := true
  const DefaultThreshold: real := 0.01
  const DefaultDelayMs: nat := 0
  const DefaultDurationMs: nat := 150

  /** The effect's response to one notification. */
  function Next(once: bool, state: Visibility, inView: bool): (r: Visibility)
    ensures inView ==> r == Visible
    ensures once && state == Visible ==> r == Visible
    ensures !once ==> (r == Visible <==> inView)
  {
    if inView then Visible
    else if !once then Hidden
    else state
  }

  /** The state after a sequence of notifications, oldest first. */
  function Run(once: bool, state: Visibility, events: seq<bool>): Visibility
    decreases |events|
  {
    if events == [] then state
    else Next(once, Run(once, state, events[..|events| - 1]), events[|events| - 1])
  }

  /** One more notification extends the run by one step. */
  lemma RunSnoc(once: bool, state: Visibility, events: seq<bool>, inView: bool)
    ensures Run(once, state, events + [inView]) == Next(once, Run(once, state, events), inView)
  {
    assert (events + [inView])[..|events|] == events;
  }

  /** Delivering the same notification twice is the same as delivering it once. */
  lemma NextIdempotent(once: bool, state: Visibility, inView: bool)
    ensures Next(once, Next(once, state, inView), inView) == Next(once, state, inView)
  {
  }

  /** With `once`, visible is terminal: no later notification hides the element. */
  lemma {:induction false} OnceVisibleIsTerminal(state: Visibility, events: seq<bool>)
    requires state == Visible
    ensures Run(true, state, events) == Visible
    decreases |events|
  {
    if events != [] {
      OnceVisibleIsTerminal(state, events[..|events| - 1]);
    }
  }

  /** With `once`, the element is visible after the run iff it started visible or some notification was in view. */
  lemma {:induction false} OnceRunVisibleIff(state: Visibility, events: seq<bool>)
    ensures Run(true, state, events) == Visible <==> (state == Visible || true in events)
    decreases |events|
  {
    if events != [] {
      var prefix := events[..|events| - 1];
      OnceRunVisibleIff(state, prefix);
      assert events == prefix + [events[|events| - 1]];
      assert true in events <==> (true in prefix || events[|events| - 1]);
    }
  }

  /** Without `once`, the state tracks the latest notification. */
  lemma NotOnceTracksLatest(state: Visibility, events: seq<bool>)
    requires events != []
    ensures Run(false, state, events) == (if events[|events| - 1] then Visible else Hidden)
  {
  }

  /** One wrapped element: its props and its current variant. */
  class RevealController {
    const once: bool
    const threshold: real
    const delayMs: nat
    const durationMs: nat
    var state: Visibility
    /** The notifications delivered so far, oldest first. */
    ghost var history: seq<bool>

    ghost predicate Valid()
      reads this
    {
      state == Run(once, Hidden, history)
    }

    /** Mounted with `initial="hidden"` and no notification yet. */
    constructor (once: bool, threshold: real, delayMs: nat, durationMs: nat)
      ensures this.once == once && this.threshold == threshold
      ensures this.delayMs == delayMs && this.durationMs == durationMs
      ensures state == Hidden && history == []
      ensures Valid()
    {
      this.once := once;
      this.threshold := threshold;
      this.delayMs := delayMs;
      this.durationMs := durationMs;
      state := Hidden;
      history := [];
    }

    /** Mounted with every prop left at its default. */
    constructor WithDefaults()
      ensures once == DefaultOnce && threshold == DefaultThreshold
      ensures delayMs == DefaultDelayMs && durationMs == DefaultDurationMs
      ensures state == Hidden && history == []
      ensures Valid()
    {
      once := DefaultOnce;
      threshold := DefaultThreshold;
      delayMs := DefaultDelayMs;
      durationMs := DefaultDurationMs;
      state := Hidden;
      history := [];
    }

    /** The effect run on a change of `inView`. */
    method Notify(inView: bool)
      requires Valid()
      modifies this
      ensures Valid()
      ensures history == old(history) + [inView]
      ensures state == Next(once, old(state), inView)
    {
      RunSnoc(once, Hidden, history, inView);
      if inView {
        state := Visible;
      } else if !once {
        state := Hidden;
      }
      history := history + [inView];
    }
  }
}
