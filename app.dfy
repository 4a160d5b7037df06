/** The App component's state and its mount effect (App.tsx): the current
    animation state, the reduced-motion flag, and the auto-play timeline,
    whose three one-shot timers are modelled as events pending at simulated
    times (in milliseconds). */
module App {
  import opened Types
  import UI

  /** The timer delays of the auto-play sequence, from mount time. */
  const MORPH_DELAY: int := 1000
  const TREE_DELAY: int := 4000
  const FINISH_DELAY: int := 5500

  /** A pending setTimeout: at simulated time `at` it sets the state to `target`. */
  datatype Event = Event(at: int, target: AnimationState)

  /** The three timers the effect schedules when it runs at time `start`. */
  function Schedule(start: int): (p: set<Event>)
    ensures |p| == 3
    ensures forall e :: e in p ==> start < e.at <= start + FINISH_DELAY
  {
    {Event(start + MORPH_DELAY, MORPH), Event(start + TREE_DELAY, TREE), Event(start + FINISH_DELAY, FINISHED)}
  }

  /** The pending events whose time has come by time t. */
  function Due(p: set<Event>, t: int): set<Event>
  {
    set e | e in p && e.at <= t
  }

  predicate IsFirst(e: Event, p: set<Event>)
  {
    e in p && forall f :: f in p ==> e.at <= f.at
  }

  predicate IsLast(e: Event, p: set<Event>)
  {
    e in p && forall f :: f in p ==> f.at <= e.at
  }

  /** What letting time run to t does to the state, given the pending timers
      p: with nothing due the state stays `before`; otherwise it is the target
      of the latest due timer. */
  ghost predicate Fired(p: set<Event>, t: int, before: AnimationState, after: AnimationState)
  {
    && (Due(p, t) == {} ==> after == before)
    && (forall e :: IsLast(e, Due(p, t)) ==> after == e.target)
  }

  /** No two pending events are due at the same instant. */
  predicate DistinctTimes(p: set<Event>)
  {
    forall e, f :: e in p && f in p && e.at == f.at ==> e == f
  }

  /** Firing the earliest due timer e keeps the fired timers all earlier than
      the ones still due, and makes e the latest fired one. */
  lemma FireFirst(all: set<Event>, due: set<Event>, e: Event)
    requires due <= all && DistinctTimes(all) && IsFirst(e, due)
    requires forall f, g :: f in all - due && g in due ==> f.at < g.at
    ensures all - (due - {e}) == (all - due) + {e}
    ensures forall f, g :: f in all - (due - {e}) && g in due - {e} ==> f.at < g.at
    ensures forall x :: IsLast(x, all - (due - {e})) ==> x == e
  {
    assert all - (due - {e}) == (all - due) + {e};
  }

  /** With no timer pending, letting time run changes nothing. */
  lemma NothingDue(t: int, before: AnimationState, after: AnimationState)
    requires Fired({}, t, before, after)
    ensures after == before
  {
    assert Due({}, t) == {};
  }

  /** The timers left after those due by t are all later than t. */
  lemma NotDueIsLater(p: set<Event>, t: int)
    ensures forall e :: e in p - Due(p, t) ==> e.at > t
  {
  }

  /** Timers drawn from a set with distinct instants have distinct instants. */
  lemma DistinctSubset(p: set<Event>, q: set<Event>)
    requires q <= p && DistinctTimes(p)
    ensures DistinctTimes(q)
  {
  }

  /** The timers of one mount fire at three different instants. */
  lemma ScheduledDistinct(start: int, p: set<Event>)
    requires p <= Schedule(start)
    ensures DistinctTimes(p)
  {
  }

  /** Every non-empty set of events has one that is due first. */
  lemma {:induction false} FirstExists(p: set<Event>)
    requires p != {}
    ensures exists e :: IsFirst(e, p)
  {
    var e :| e in p;
    if p != {e} {
      var rest := p - {e};
      FirstExists(rest);
      var m :| IsFirst(m, rest);
      if e.at <= m.at {
        assert IsFirst(e, p);
      } else {
        assert IsFirst(m, p);
      }
    } else {
      assert IsFirst(e, p);
    }
  }

  /** The state the auto-play sequence shows at time t after mount, when the
      user does not intervene. */
  function AutoPlayState(t: int): AnimationState
  {
    if t < MORPH_DELAY then CHAOS
    else if t < TREE_DELAY then MORPH
    else if t < FINISH_DELAY then TREE
    else FINISHED
  }

  /** The phases of the auto-play sequence: the nebula until the first timer,
      a formed state from then on, the still tree between the second and the
      third, and the greeting state from the third on. */
  lemma AutoPlayPhases(t: int)
    ensures AutoPlayState(t) == CHAOS <==> t < MORPH_DELAY
    ensures Formed(AutoPlayState(t)) <==> t >= MORPH_DELAY
    ensures AutoPlayState(t) == TREE <==> TREE_DELAY <= t < FINISH_DELAY
    ensures AutoPlayState(t) == FINISHED <==> t >= FINISH_DELAY
  {
  }

  /** The App's state: the two useState hooks, the timers pending in the
      browser, the simulated clock, whether the mount effect has run, and the
      timers it scheduled, which its cleanup clears (the closure's t1, t2
      and t3). */
  class Timeline {
    var state: AnimationState
    var reducedMotion: bool
    var pending: set<Event>
    var now: int
    var effectRan: bool
    var timers: set<Event>

    /** Every pending timer is one the effect scheduled, no two of those share
        an instant, none is overdue, and nothing is scheduled before the
        effect has run. */
    ghost predicate Valid()
      reads this
    {
      && pending <= timers
      && DistinctTimes(timers)
      && (forall e :: e in pending ==> e.at > now)
      && (!effectRan ==> pending == {})
    }

    /** The first render: state CHAOS, reduced motion off, no timers. */
    constructor ()
      ensures Valid()
      ensures state == CHAOS && !reducedMotion
      ensures pending == {} && now == 0 && !effectRan && timers == {}
    {
      state := CHAOS;
      reducedMotion := false;
      pending := {};
      now := 0;
      effectRan := false;
      timers := {};
    }

    /** The mount effect. Its dependency list is empty, so it runs after the
        first commit only; a later commit leaves everything as it is. With the
        reduced-motion preference it skips straight to FINISHED and schedules
        nothing; otherwise it schedules the three timers. */
    method MountEffect(prefersReducedMotion: bool)
      requires Valid()
      modifies this`state, this`reducedMotion, this`pending, this`effectRan, this`timers
      ensures Valid() && effectRan
      ensures old(effectRan) ==>
        state == old(state) && reducedMotion == old(reducedMotion) && pending == old(pending)
      ensures !old(effectRan) && prefersReducedMotion ==>
        reducedMotion && state == FINISHED && pending == {}
      ensures !old(effectRan) && !prefersReducedMotion ==>
        state == old(state) && reducedMotion == old(reducedMotion) && pending == Schedule(now)
      ensures !old(effectRan) && !prefersReducedMotion ==> timers == Schedule(now)
      ensures old(effectRan) || prefersReducedMotion ==> timers == old(timers)
    {
      if effectRan {
        return;
      }
      effectRan := true;
      if prefersReducedMotion {
        reducedMotion := true;
        state := FINISHED;
      } else {
        ScheduledDistinct(now, Schedule(now));
        timers := Schedule(now);
        pending := timers;
      }
    }

    /** Let simulated time run to t: every pending timer due by then fires,
        earliest first, each setting the state unconditionally, so the state
        ends as the latest due timer left it. */
    method Advance(t: int)
      requires Valid() && now <= t
      modifies this`state, this`pending, this`now
      ensures Valid() && now == t
      ensures pending == old(pending) - Due(old(pending), t)
      ensures Fired(old(pending), t, old(state), state)
    {
      ghost var p0 := pending;
      ghost var all := Due(pending, t);
      DistinctSubset(timers, all);
      var due := Due(pending, t);
      while due != {}
        invariant due <= all <= p0 && DistinctTimes(all)
        invariant pending == p0 - (all - due)
        invariant all - due == {} ==> state == old(state)
        invariant forall e :: IsLast(e, all - due) ==> state == e.target
        invariant forall f, g :: f in all - due && g in due ==> f.at < g.at
        decreases due
      {
        FirstExists(due);
        var e :| IsFirst(e, due);
        FireFirst(all, due, e);
        state := e.target;
        pending := pending - {e};
        due := due - {e};
      }
      assert pending == p0 - all;
      NotDueIsLater(p0, t);
      now := t;
    }

    /** The action button: the UI's toggle rule. Pending timers stay. */
    method Toggle()
      requires Valid()
      modifies this`state
      ensures Valid()
      ensures state == UI.Toggle(old(state))
    {
      state := UI.Toggle(state);
    }

    /** The reduced-motion button. */
    method ToggleReducedMotion()
      requires Valid()
      modifies this`reducedMotion
      ensures Valid()
      ensures reducedMotion == UI.FlipReducedMotion(old(reducedMotion))
    {
      reducedMotion := UI.FlipReducedMotion(reducedMotion);
    }

    /** The effect's cleanup on unmount: clearTimeout on each of the three
        timers the effect scheduled. Clearing one that already fired does
        nothing; since every pending timer is one of the three, nothing stays
        pending. */
    method Cleanup()
      requires Valid()
      modifies this`pending
      ensures pending == old(pending) - timers
      ensures Valid() && pending == {}
    {
      pending := pending - timers;
    }
  }

  /** Which scheduled timers are due at each time, and the one that fires last. */
  lemma ScheduleDue(t: int)
    ensures t < MORPH_DELAY ==> Due(Schedule(0), t) == {}
    ensures MORPH_DELAY <= t < TREE_DELAY ==> IsLast(Event(MORPH_DELAY, MORPH), Due(Schedule(0), t))
    ensures TREE_DELAY <= t < FINISH_DELAY ==> IsLast(Event(TREE_DELAY, TREE), Due(Schedule(0), t))
    ensures FINISH_DELAY <= t ==> IsLast(Event(FINISH_DELAY, FINISHED), Due(Schedule(0), t))
  {
    var d := Due(Schedule(0), t);
    if t < MORPH_DELAY {
      assert forall e :: e in Schedule(0) ==> e.at > t;
    }
  }

  /** Letting time run from mount to t with the three timers pending gives the
      auto-play state for t (or leaves the state alone before the first timer). */
  lemma ScheduleFired(t: int, before: AnimationState, after: AnimationState)
    requires Fired(Schedule(0), t, before, after)
    ensures t < MORPH_DELAY ==> after == before
    ensures t >= MORPH_DELAY ==> after == AutoPlayState(t)
  {
    ScheduleDue(t);
  }

  /** Without interaction, the state observed at time t after mount is the
      auto-play state for t: CHAOS, then MORPH from 1000, TREE from 4000 and
      FINISHED from 5500 milliseconds. */
  method AutoPlayAt(t: int) returns (s: AnimationState)
    requires t >= 0
    ensures s == AutoPlayState(t)
  {
    var app := new Timeline();
    app.MountEffect(false);
    app.Advance(t);
    ScheduleFired(t, CHAOS, app.state);
    s := app.state;
  }

  /** Mounting without the reduced-motion preference and letting time run to t
      leaves the auto-play state for t, the flag off, and the effect's timers
      not yet due still pending. */
  method MountAndRun(t: int) returns (app: Timeline)
    requires t >= 0
    ensures fresh(app) && app.Valid() && app.now == t && app.effectRan
    ensures app.state == AutoPlayState(t) && !app.reducedMotion
    ensures app.timers == Schedule(0) && app.pending == Remaining(t)
  {
    app := new Timeline();
    app.MountEffect(false);
    app.Advance(t);
    ScheduleFired(t, CHAOS, app.state);
  }

  /** The time of the scheduled timer that produced AutoPlayState(t). */
  function Threshold(t: int): int
  {
    if t < TREE_DELAY then MORPH_DELAY else if t < FINISH_DELAY then TREE_DELAY else FINISH_DELAY
  }

  /** The timers still pending at time t after a mount at time 0. */
  function Remaining(t: int): set<Event>
  {
    Schedule(0) - Due(Schedule(0), t)
  }

  /** Letting time run on from t1 to t2 fires a timer exactly when the auto-play
      state changes in between, and the last one to fire sets the state for t2. */
  lemma RemainingDue(t1: int, t2: int)
    requires 0 <= t1 <= t2
    ensures AutoPlayState(t1) == AutoPlayState(t2) ==> Due(Remaining(t1), t2) == {}
    ensures AutoPlayState(t1) != AutoPlayState(t2) ==>
      IsLast(Event(Threshold(t2), AutoPlayState(t2)), Due(Remaining(t1), t2))
  {
    if AutoPlayState(t1) == AutoPlayState(t2) {
      assert forall e :: e in Remaining(t1) ==> e.at > t2;
    }
  }

  /** Letting time run on from t1 to t2 leaves the state alone when the
      auto-play state does not change in between, and otherwise gives the
      auto-play state for t2. */
  lemma RemainingFired(t1: int, t2: int, before: AnimationState, after: AnimationState)
    requires 0 <= t1 <= t2
    requires Fired(Remaining(t1), t2, before, after)
    ensures AutoPlayState(t1) == AutoPlayState(t2) ==> after == before
    ensures AutoPlayState(t1) != AutoPlayState(t2) ==> after == AutoPlayState(t2)
  {
    RemainingDue(t1, t2);
  }

  /** Observing the timeline at two times: the state depends only on the time
      elapsed since mount, not on how the clock was advanced. */
  method AutoPlayInSteps(t1: int, t2: int) returns (s1: AnimationState, s2: AnimationState)
    requires 0 <= t1 <= t2
    ensures s1 == AutoPlayState(t1) && s2 == AutoPlayState(t2)
  {
    var app := MountAndRun(t1);
    s1 := app.state;
    app.Advance(t2);
    RemainingFired(t1, t2, s1, app.state);
    s2 := app.state;
  }

  /** With the reduced-motion preference the effect shows FINISHED at once,
      sets the flag, leaves no timer pending, and time changes nothing. */
  method ReducedMotionAt(t: int) returns (s: AnimationState, reduced: bool, idle: bool)
    requires t >= 0
    ensures s == FINISHED && reduced && idle
  {
    var app := new Timeline();
    app.MountEffect(true);
    app.Advance(t);
    s, reduced, idle := app.state, app.reducedMotion, app.pending == {};
  }

  /** A toggle does not cancel the timers: pressing the button at time t before
      5500 gives the toggled state, but the FINISHED timer still fires at 5500
      and overrides it. */
  method ToggleOverridden(t: int) returns (toggled: AnimationState, later: AnimationState)
    requires 0 <= t < FINISH_DELAY
    ensures toggled == UI.Toggle(AutoPlayState(t))
    ensures later == FINISHED
  {
    var app := MountAndRun(t);
    app.Toggle();
    toggled := app.state;
    app.Advance(FINISH_DELAY);
    RemainingFired(t, FINISH_DELAY, toggled, app.state);
    later := app.state;
  }

  /** After the cleanup has cleared the timers, no further time changes the state. */
  method CleanupFreezes(t1: int, t2: int) returns (s1: AnimationState, s2: AnimationState)
    requires 0 <= t1 <= t2
    ensures s1 == AutoPlayState(t1) && s2 == s1
  {
    var app := MountAndRun(t1);
    s1 := app.state;
    app.Cleanup();
    app.Advance(t2);
    NothingDue(t2, s1, app.state);
    s2 := app.state;
  }

  /** A second commit does not run the effect again, whatever the media query
      would now report: the timeline goes on as scheduled at mount. */
  method RecommitIgnored(t: int, prefersNow: bool) returns (s: AnimationState, reduced: bool)
    requires t >= 0
    ensures s == AutoPlayState(t) && !reduced
  {
    var app := new Timeline();
    app.MountEffect(false);
    app.MountEffect(prefersNow);
    app.Advance(t);
    ScheduleFired(t, CHAOS, app.state);
    s, reduced := app.state, app.reducedMotion;
  }

  /** Without interaction the greeting fades in with the last timer and not
      before, and the button reads "Play Animation" only until the first. */
  lemma OverlayFollowsAutoPlay(t: int)
    ensures UI.GreetingVisible(AutoPlayState(t)) <==> t >= FINISH_DELAY
    ensures UI.ActionLabel(AutoPlayState(t)) == "Play Animation" <==> t < MORPH_DELAY
  {
  }
}
