/**
 * The page's section reveals (src/App.tsx): the `useScrollAnimation` hook,
 * used once per animated section, and the `sectionVariants`/`itemVariants`
 * timing constants.  Times are integer milliseconds.
 */
module ScrollAnimation {
  import opened ScrollReveal

  /** The six sections that call the hook, in the order the hook is called. */
  datatype Section = Services | HumanDesign | About | MyStory | Booking | Contact

  const Sections: seq<Section> := [Services, HumanDesign, About, MyStory, Booking, Contact]

  /** Every section appears in the list. */
  lemma SectionsListed(s: Section)
    ensures s in Sections
  {
    match s
    case Services =>
    case HumanDesign =>
    case About =>
    case MyStory =>
    case Booking =>
    case Contact =>
  }

  /** The observer options: 1% of the element in view, triggering once. */
  const InViewAmount: real := 0.01
  const InViewOnce := true

  /** `sectionVariants.visible.transition` and `itemVariants.visible.transition`. */
  const SectionDurationMs: nat := 200
  const StaggerMs: nat := 30
  const ItemDurationMs: nat := 150

  /** The hook's effect: start `visible` when in view, otherwise do nothing. */
  function HookStep(state: Visibility, isInView: bool): (r: Visibility)
    ensures isInView ==> r == Visible
    ensures state == Visible ==> r == Visible
    ensures r == Visible ==> state == Visible || isInView
  {
    if isInView then Visible else state
  }

  /** The hook behaves as the reveal wrapper does with `once` set. */
  lemma HookIsOnceReveal(state: Visibility, isInView: bool)
    ensures HookStep(state, isInView) == Next(true, state, isInView)
  {
  }

  /** The reveal state of every section. */
  class Page {
    var states: map<Section, Visibility>

    ghost predicate Valid()
      reads this
    {
      forall s: Section :: s in states
    }

    /** Every section is mounted `hidden`. */
    constructor ()
      ensures Valid()
      ensures forall s: Section :: states[s] == Hidden
    {
      states := map s: Section | s in Sections :: Hidden;
      new;
      forall s: Section
        ensures s in states
      {
        SectionsListed(s);
      }
    }

    /** An in-view notification for one section; the other sections are untouched. */
    method Notify(section: Section, isInView: bool)
      requires Valid()
      modifies this
      ensures Valid()
      ensures states[section] == HookStep(old(states)[section], isInView)
      ensures forall s: Section :: s != section ==> states[s] == old(states)[s]
    {
      states := states[section := HookStep(states[section], isInView)];
    }
  }

  /** A child's animation window, relative to the section's trigger. */
  datatype Window = Window(start: int, finish: int)

  /** The window of the child declared at position `i`: after the section's own transition, staggered. */
  function ChildWindow(i: nat): (w: Window)
    ensures w.start >= SectionDurationMs
    ensures w.finish - w.start == ItemDurationMs
  {
    Window(SectionDurationMs + i * StaggerMs, SectionDurationMs + i * StaggerMs + ItemDurationMs)
  }

  /** The windows of a section's first `n` children, in declaration order. */
  function Schedule(n: nat): (r: seq<Window>)
    ensures |r| == n
  {
    if n == 0 then [] else Schedule(n - 1) + [ChildWindow(n - 1)]
  }

  /** The `i`-th scheduled window is the `i`-th child's. */
  lemma {:induction false} ScheduleAt(n: nat, i: nat)
    requires i < n
    ensures Schedule(n)[i] == ChildWindow(i)
  {
    if i < n - 1 {
      ScheduleAt(n - 1, i);
    }
  }

  /** Children start after the section and finish in strictly increasing order. */
  lemma ScheduleOrdered(n: nat, i: nat, j: nat)
    requires i < j < n
    ensures Schedule(n)[i].start >= SectionDurationMs
    ensures Schedule(n)[i].start < Schedule(n)[j].start
    ensures Schedule(n)[i].finish < Schedule(n)[j].finish
    ensures Schedule(n)[j].start - Schedule(n)[i].start == (j - i) * StaggerMs
  {
    ScheduleAt(n, i);
    ScheduleAt(n, j);
  }

  /** The last of `n` children ends 200 + 30(n-1) + 150 ms after the trigger. */
  lemma ScheduleEnd(n: nat)
    requires n > 0
    ensures Schedule(n)[n - 1].finish == 350 + 30 * (n - 1)
  {
    ScheduleAt(n, n - 1);
  }
}
