/**
 * EasterEggButton: three clicks, each within 600 ms of the previous one,
 * open the modal. `clickCountRef`, `timeoutRef` and `isOpen` are the fields
 * of a class; the browser's timer queue is the set of pending timer ids,
 * and a timer firing is an explicit event. `Step` gives the same
 * transitions on values, so that runs of several events can be reasoned
 * about.
 */
module EasterEgg {
  import opened Wrappers

  const CLICKS_TO_OPEN: int := 3

  /** The button's state and the timers the browser holds for it. */
  datatype Egg = Egg(isOpen: bool, clickCount: int, timeout: Option<nat>, pending: set<nat>, nextTimer: nat)

  datatype Event = Click | Fire(id: nat) | Close

  const Initial: Egg := Egg(false, 0, None, {}, 0)

  /** The timer the ref names, if any, as a set. */
  function TimerSet(t: Option<nat>): set<nat> {
    if t.Some? then {t.value} else {}
  }

  /**
   * Between events: the count is 0, 1 or 2; a reset timer is pending exactly
   * when the count is not 0, and it is the one the ref holds, so at most one
   * timer is ever pending.
   */
  predicate Valid(s: Egg) {
    && 0 <= s.clickCount < CLICKS_TO_OPEN
    && (s.clickCount == 0 <==> s.timeout.None?)
    && s.pending == TimerSet(s.timeout)
    && (forall id :: id in s.pending ==> id < s.nextTimer)
  }

  /** `handleClick`: cancel the pending timer, count the click, and either
      open the modal on the third click or schedule a reset. */
  function ClickStep(s: Egg): Egg {
    var pending := s.pending - TimerSet(s.timeout);
    var count := s.clickCount + 1;
    if count >= CLICKS_TO_OPEN then Egg(true, 0, None, pending, s.nextTimer)
    else Egg(s.isOpen, count, Some(s.nextTimer), pending + {s.nextTimer}, s.nextTimer + 1)
  }

  /** The reset timer `id` fires: the count and the ref are cleared. A timer
      that was cleared never fires. */
  function FireStep(s: Egg, id: nat): Egg {
    if id in s.pending then Egg(s.isOpen, 0, None, s.pending - {id}, s.nextTimer) else s
  }

  function Step(s: Egg, e: Event): Egg {
    match e
    case Click => ClickStep(s)
    case Fire(id) => FireStep(s, id)
    case Close => s.(isOpen := false)
  }

  function Run(s: Egg, es: seq<Event>): Egg
    decreases |es|
  {
    if es == [] then s else Run(Step(s, es[0]), es[1..])
  }

  lemma StepValid(s: Egg, e: Event)
    requires Valid(s)
    ensures Valid(Step(s, e))
  {
  }

  /** Every sequence of events keeps the invariant. */
  lemma {:induction false} RunValid(s: Egg, es: seq<Event>)
    requires Valid(s)
    ensures Valid(Run(s, es))
    decreases |es|
  {
    if es != [] {
      StepValid(s, es[0]);
      RunValid(Step(s, es[0]), es[1..]);
    }
  }

  lemma InitialValid()
    ensures Valid(Initial)
  {
  }

  /** At most one reset timer is pending between events. */
  lemma AtMostOneTimer(s: Egg)
    requires Valid(s)
    ensures |s.pending| <= 1
  {
  }

  /** Three clicks with no timer firing in between open the modal and leave
      the counter at 0, whatever the count was after a reset. */
  lemma ThreeClicksOpen(s: Egg)
    requires Valid(s) && s.clickCount == 0
    ensures Run(s, [Click, Click, Click]).isOpen
    ensures Run(s, [Click, Click, Click]).clickCount == 0
    ensures Run(s, [Click, Click, Click]).pending == {}
  {
    var s1 := Step(s, Click);
    var s2 := Step(s1, Click);
    assert [Click, Click, Click][1..] == [Click, Click];
    assert [Click, Click][1..] == [Click];
    assert Run(s, [Click, Click, Click]) == Run(s1, [Click, Click]);
    assert Run(s1, [Click, Click]) == Run(s2, [Click]);
  }

  /** A firing reset timer between clicks starts the count over: after it,
      two clicks do not open a closed modal. */
  lemma ResetForgetsClicks(s: Egg)
    requires Valid(s) && !s.isOpen && s.clickCount > 0
    ensures !Run(FireStep(s, s.timeout.value), [Click, Click]).isOpen
  {
    var s0 := FireStep(s, s.timeout.value);
    assert [Click, Click][1..] == [Click];
    assert Run(s0, [Click, Click]) == Run(Step(s0, Click), [Click]);
  }

  /** Only the close button closes the modal. */
  lemma OnlyCloseCloses(s: Egg, e: Event)
    requires s.isOpen && !Step(s, e).isOpen
    ensures e == Close
  {
  }

  /** The component: the refs and the state hook as fields. */
  class EasterEggButton {
    var isOpen: bool
    var clickCount: int
    var timeout: Option<nat>
    /** Timers scheduled with `window.setTimeout` and neither cleared nor fired. */
    var pending: set<nat>
    var nextTimer: nat

    function State(): Egg
      reads this
    {
      Egg(isOpen, clickCount, timeout, pending, nextTimer)
    }

    constructor()
      ensures State() == Initial && Valid(State())
    {
      isOpen := false;
      clickCount := 0;
      timeout := None;
      pending := {};
      nextTimer := 0;
    }

    /** `handleClick` */
    method HandleClick()
      modifies this
      ensures State() == Step(old(State()), Click)
      ensures old(Valid(State())) ==> Valid(State())
      ensures old(isOpen) ==> isOpen
    {
      if timeout.Some? {
        pending := pending - {timeout.value};
      }
      clickCount := clickCount + 1;
      if clickCount >= CLICKS_TO_OPEN {
        clickCount := 0;
        timeout := None;
        isOpen := true;
        return;
      }
      timeout := Some(nextTimer);
      pending := pending + {nextTimer};
      nextTimer := nextTimer + 1;
    }

    /** The reset callback of the pending timer `id`. */
    method TimeoutFired(id: nat)
      requires id in pending
      modifies this
      ensures State() == Step(old(State()), Fire(id))
      ensures old(Valid(State())) ==> Valid(State()) && clickCount == 0 && pending == {}
    {
      pending := pending - {id};
      clickCount := 0;
      timeout := None;
    }

    /** The modal's close button. */
    method CloseModal()
      modifies this
      ensures State() == Step(old(State()), Close)
      ensures !isOpen
    {
      isOpen := false;
    }

    /** The effect cleanup on unmount: the pending timer is cleared. */
    method Unmount()
      modifies this
      ensures pending == old(pending) - TimerSet(old(timeout))
      ensures old(Valid(State())) ==> pending == {}
      ensures isOpen == old(isOpen) && clickCount == old(clickCount) && timeout == old(timeout)
      ensures nextTimer == old(nextTimer)
    {
      if timeout.Some? {
        pending := pending - {timeout.value};
      }
    }
  }
}
