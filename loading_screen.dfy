/** The loading screen's hide gate: three flags set by the 5000 ms
    minimum-display timer, the page `load` event and the 15000 ms fallback
    timer, and the fade and clean-up timers they schedule.

    Timers and events are modelled as discrete events applied to the gate's
    state. Each step of the page is a method of `Screen` specified by the
    pure transition `Apply`, about which the properties are proved. The
    DOM work each step does (the `hidden` class, removing the element, the
    calls into the sketch) is recorded as a log of effects. */
module LoadingScreen {

  /** What the page provides: the `#loading-screen` element, and the
      sketch's `window.notifyLoadingComplete` and
      `window.cleanupLoadingSketch` hooks. */
  datatype Page = Page(hasScreen: bool, hasNotifier: bool, hasCleanup: bool)

  /** The callbacks of the page. `FadeTimer` is the 600 ms timer that
      `attemptHideLoadingScreen` schedules; `CleanupTimer` is the 800 ms
      timer scheduled by the fade and by the fallback (their bodies are the
      same). */
  datatype Event = MinimumTimeElapsed | PageLoad | FadeTimer | CleanupTimer | FallbackTimer

  /** The outside effects, in the order they happen. */
  datatype Effect =
    | NotifySketch      // window.notifyLoadingComplete()
    | ScheduleFade      // setTimeout(fadeOutLoadingScreen, 600)
    | AddHidden         // loadingScreen.classList.add('hidden')
    | ScheduleCleanup   // the 800 ms clean-up timer
    | CleanupSketch     // window.cleanupLoadingSketch()
    | RemoveScreen      // loadingScreen.parentNode.removeChild(loadingScreen)

  /** Which path set `hideTriggered`: not yet, the normal attempt, or the
      fallback timer. (A modelling aid: the page keeps only the flag.) */
  datatype Cause = NotStarted | Normal | Fallback

  /** The closure flags, the `hidden` class, whether the element is still
      in the document, the timers scheduled and not yet fired, and the
      effects so far. */
  datatype ScreenState = ScreenState(
    minimumTimeElapsed: bool,
    pageLoaded: bool,
    hideTriggered: bool,
    cause: Cause,
    hidden: bool,
    attached: bool,
    fadePending: nat,
    cleanupPending: nat,
    effects: seq<Effect>)

  /** The state right after `DOMContentLoaded`. */
  function Initial(page: Page): ScreenState {
    ScreenState(false, false, false, NotStarted, false, page.hasScreen, 0, 0, [])
  }

  /** How many times `e` occurs in `effects`. */
  function Count(effects: seq<Effect>, e: Effect): nat {
    if |effects| == 0 then 0
    else Count(effects[..|effects| - 1], e) + (if effects[|effects| - 1] == e then 1 else 0)
  }

  lemma {:induction false} CountAppend(effects: seq<Effect>, more: seq<Effect>, e: Effect)
    ensures Count(effects + more, e) == Count(effects, e) + Count(more, e)
    decreases |more|
  {
    if |more| > 0 {
      var init := more[..|more| - 1];
      assert (effects + more)[..|effects + more| - 1] == effects + init;
      CountAppend(effects, init, e);
    } else {
      assert effects + more == effects;
    }
  }

  /** `attemptHideLoadingScreen`: when the minimum time has passed, the
      page has loaded and the hide has not been triggered, set the flag and
      schedule the fade; otherwise do nothing. */
  function AttemptHide(s: ScreenState): ScreenState {
    if s.minimumTimeElapsed && s.pageLoaded && !s.hideTriggered then
      s.(hideTriggered := true, cause := Normal, fadePending := s.fadePending + 1,
         effects := s.effects + [ScheduleFade])
    else s
  }

  /** One callback of the page. A timer that is not pending cannot fire;
      it is taken as a step that changes nothing. */
  function Apply(page: Page, s: ScreenState, e: Event): ScreenState {
    match e
    case MinimumTimeElapsed =>
      AttemptHide(s.(minimumTimeElapsed := true))
    case PageLoad =>
      AttemptHide(s.(pageLoaded := true,
                     effects := s.effects + (if page.hasNotifier then [NotifySketch] else [])))
    case FadeTimer =>
      if s.fadePending == 0 then s
      else if page.hasScreen then
        s.(fadePending := s.fadePending - 1, hidden := true, cleanupPending := s.cleanupPending + 1,
           effects := s.effects + [AddHidden, ScheduleCleanup])
      else s.(fadePending := s.fadePending - 1)
    case CleanupTimer =>
      if s.cleanupPending == 0 then s
      else
        s.(cleanupPending := s.cleanupPending - 1, attached := false,
           effects := s.effects + (if page.hasCleanup then [CleanupSketch] else [])
                                + (if s.attached then [RemoveScreen] else []))
    case FallbackTimer =>
      if page.hasScreen && !s.hidden && !s.hideTriggered then
        s.(hideTriggered := true, cause := Fallback, hidden := true,
           cleanupPending := s.cleanupPending + 1,
           effects := s.effects + [AddHidden, ScheduleCleanup])
      else s
  }

  /** The events applied in order. */
  function Run(page: Page, s: ScreenState, events: seq<Event>): ScreenState
    decreases |events|
  {
    if |events| == 0 then s else Run(page, Apply(page, s, events[0]), events[1..])
  }

  /** What holds in every reachable state. The hide sequence has started
      at most once: one fade scheduled by the normal path and none by the
      fallback, and the screen hidden at most once. */
  ghost predicate Inv(page: Page, s: ScreenState) {
    && (s.hideTriggered <==> s.cause != NotStarted)
    && (s.cause == Normal ==> s.minimumTimeElapsed && s.pageLoaded)
    && Count(s.effects, ScheduleFade) == (if s.cause == Normal then 1 else 0)
    && Count(s.effects, AddHidden) == (if s.hidden then 1 else 0)
    && (s.hidden ==> page.hasScreen && s.hideTriggered)
    && s.fadePending <= 1
    && (s.fadePending == 1 ==> s.cause == Normal && !s.hidden)
    && s.cleanupPending <= 1
    && (s.cleanupPending == 1 ==> s.hidden && s.attached)
    && (s.attached ==> page.hasScreen)
    && (page.hasScreen && !s.attached ==> s.hidden && s.cleanupPending == 0)
  }

  lemma InitialInv(page: Page)
    ensures Inv(page, Initial(page))
  {
  }

  /** Appending effects other than a scheduled fade or the `hidden` class
      leaves the two counts of the invariant unchanged. */
  lemma {:induction false} CountOthers(effects: seq<Effect>, more: seq<Effect>)
    requires ScheduleFade !in more && AddHidden !in more
    ensures Count(effects + more, ScheduleFade) == Count(effects, ScheduleFade)
    ensures Count(effects + more, AddHidden) == Count(effects, AddHidden)
    decreases |more|
  {
    if |more| > 0 {
      var init := more[..|more| - 1];
      assert (effects + more)[..|effects + more| - 1] == effects + init;
      assert more[|more| - 1] in more;
      CountOthers(effects, init);
    } else {
      assert effects + more == effects;
    }
  }

  lemma AttemptHideInv(page: Page, s: ScreenState)
    requires Inv(page, s)
    ensures Inv(page, AttemptHide(s))
  {
    if s.minimumTimeElapsed && s.pageLoaded && !s.hideTriggered {
      CountAppend(s.effects, [ScheduleFade], ScheduleFade);
      CountAppend(s.effects, [ScheduleFade], AddHidden);
      assert Count([ScheduleFade], AddHidden) == 0 by {
        assert [ScheduleFade][..0] == [];
      }
      assert Count([ScheduleFade], ScheduleFade) == 1 by {
        assert [ScheduleFade][..0] == [];
      }
    }
  }

  lemma HideNowInv(page: Page, s: ScreenState)
    requires Inv(page, s) && page.hasScreen && !s.hidden
    requires s.fadePending == 1 || !s.hideTriggered
    ensures var t := s.(effects := s.effects + [AddHidden, ScheduleCleanup]);
            && Count(t.effects, ScheduleFade) == Count(s.effects, ScheduleFade)
            && Count(t.effects, AddHidden) == 1
  {
    var more := [AddHidden, ScheduleCleanup];
    CountAppend(s.effects, more, ScheduleFade);
    CountAppend(s.effects, more, AddHidden);
    assert more[..1] == [AddHidden] && more[..1][..0] == [];
  }

  /** Every callback keeps the invariant. */
  lemma ApplyInv(page: Page, s: ScreenState, e: Event)
    requires Inv(page, s)
    ensures Inv(page, Apply(page, s, e))
  {
    match e
    case MinimumTimeElapsed =>
      AttemptHideInv(page, s.(minimumTimeElapsed := true));
    case PageLoad =>
      PageLoadInv(page, s);
    case FadeTimer =>
      if s.fadePending > 0 && page.hasScreen {
        HideNowInv(page, s);
      }
    case CleanupTimer =>
      CleanupTimerInv(page, s);
    case FallbackTimer =>
      if page.hasScreen && !s.hidden && !s.hideTriggered {
        HideNowInv(page, s);
      }
  }

  lemma PageLoadInv(page: Page, s: ScreenState)
    requires Inv(page, s)
    ensures Inv(page, Apply(page, s, PageLoad))
  {
    var more := if page.hasNotifier then [NotifySketch] else [];
    CountOthers(s.effects, more);
    AttemptHideInv(page, s.(pageLoaded := true, effects := s.effects + more));
  }

  lemma CleanupTimerInv(page: Page, s: ScreenState)
    requires Inv(page, s)
    ensures Inv(page, Apply(page, s, CleanupTimer))
  {
    if s.cleanupPending > 0 {
      var more := (if page.hasCleanup then [CleanupSketch] else []) + (if s.attached then [RemoveScreen] else []);
      assert s.effects + (if page.hasCleanup then [CleanupSketch] else []) + (if s.attached then [RemoveScreen] else [])
          == s.effects + more;
      CountOthers(s.effects, more);
    }
  }

  /** Every sequence of callbacks keeps the invariant. */
  lemma {:induction false} RunInv(page: Page, s: ScreenState, events: seq<Event>)
    requires Inv(page, s)
    ensures Inv(page, Run(page, s, events))
    decreases |events|
  {
    if |events| > 0 {
      ApplyInv(page, s, events[0]);
      RunInv(page, Apply(page, s, events[0]), events[1..]);
    }
  }

  /** Whatever the callbacks and their order, the fade is scheduled at most
      once, the screen is hidden at most once, and the normal path and the
      fallback never both start the hide. */
  lemma HideStartsAtMostOnce(page: Page, events: seq<Event>)
    ensures var s := Run(page, Initial(page), events);
            && Count(s.effects, ScheduleFade) <= 1
            && Count(s.effects, AddHidden) <= 1
            && (s.cause == Fallback ==> Count(s.effects, ScheduleFade) == 0)
  {
    InitialInv(page);
    RunInv(page, Initial(page), events);
  }

  /** The gate of `attemptHideLoadingScreen`, in both directions: it changes
      the state exactly when the minimum time has passed, the page has
      loaded and the hide has not been triggered. */
  lemma AttemptHideGate(s: ScreenState)
    ensures AttemptHide(s) != s <==> s.minimumTimeElapsed && s.pageLoaded && !s.hideTriggered
  {
    if s.minimumTimeElapsed && s.pageLoaded && !s.hideTriggered {
      assert AttemptHide(s).hideTriggered != s.hideTriggered;
    }
  }

  /** Once the hide is triggered, by either path, no callback ever starts
      it again: the cause stays what it was and no further fade is
      scheduled. */
  lemma {:induction false} TriggeredStaysTriggered(page: Page, s: ScreenState, events: seq<Event>)
    requires Inv(page, s) && s.hideTriggered
    ensures var t := Run(page, s, events);
            && t.hideTriggered && t.cause == s.cause
            && Count(t.effects, ScheduleFade) == Count(s.effects, ScheduleFade)
    decreases |events|
  {
    if |events| > 0 {
      var next := Apply(page, s, events[0]);
      ApplyInv(page, s, events[0]);
      assert next.hideTriggered && next.cause == s.cause;
      TriggeredStaysTriggered(page, next, events[1..]);
    }
  }

  /** Whichever of the minimum-time timer and the `load` event comes
      second triggers the hide; the first one alone does not. */
  lemma EitherOrderTriggers(page: Page, s: ScreenState, first: Event, second: Event)
    requires Inv(page, s) && !s.minimumTimeElapsed && !s.pageLoaded && !s.hideTriggered
    requires (first == MinimumTimeElapsed && second == PageLoad)
          || (first == PageLoad && second == MinimumTimeElapsed)
    ensures var mid := Apply(page, s, first);
            var t := Apply(page, mid, second);
            && !mid.hideTriggered
            && t.hideTriggered && t.cause == Normal && t.fadePending == s.fadePending + 1
            && t.effects[|t.effects| - 1] == ScheduleFade
  {
  }

  /** The fallback acts exactly when the screen exists, is not hidden and
      the hide has not been triggered; it then hides the screen at once
      and sets the flag, so a later attempt by the normal path does
      nothing. */
  lemma FallbackGate(page: Page, s: ScreenState)
    ensures var t := Apply(page, s, FallbackTimer);
            && (t != s <==> page.hasScreen && !s.hidden && !s.hideTriggered)
            && (t != s ==> t.hidden && t.hideTriggered && AttemptHide(t) == t
                           && AttemptHide(t.(minimumTimeElapsed := true, pageLoaded := true))
                              == t.(minimumTimeElapsed := true, pageLoaded := true))
  {
    if page.hasScreen && !s.hidden && !s.hideTriggered {
      assert Apply(page, s, FallbackTimer).hidden != s.hidden;
    }
  }

  /** The `load` handler sets `pageLoaded` and notifies the sketch (when it
      can) before it attempts the hide: the notification comes before any
      fade it schedules. */
  lemma LoadNotifiesFirst(page: Page, s: ScreenState)
    requires page.hasNotifier
    ensures var t := Apply(page, s, PageLoad);
            && t.pageLoaded
            && |t.effects| > |s.effects|
            && t.effects[..|s.effects| + 1] == s.effects + [NotifySketch]
  {
    var t := Apply(page, s, PageLoad);
    if t.hideTriggered && !s.hideTriggered {
      assert t.effects == s.effects + [NotifySketch] + [ScheduleFade];
      assert t.effects[..|s.effects| + 1] == s.effects + [NotifySketch];
    }
  }

  /** The gate as the page holds it: the closure flags and the DOM state,
      updated by the callbacks. */
  class Screen {
    const page: Page
    var minimumTimeElapsed: bool
    var pageLoaded: bool
    var hideTriggered: bool
    /** Which path set `hideTriggered`; kept for the proofs only. */
    ghost var cause: Cause
    /** `loadingScreen.classList.contains('hidden')`. */
    var hidden: bool
    /** `loadingScreen.parentNode` is not null. */
    var attached: bool
    var fadePending: nat
    var cleanupPending: nat
    var effects: seq<Effect>

    ghost function State(): ScreenState
      reads this
    {
      ScreenState(minimumTimeElapsed, pageLoaded, hideTriggered, cause, hidden, attached,
                  fadePending, cleanupPending, effects)
    }

    /** The `DOMContentLoaded` handler: all flags down. */
    constructor (page: Page)
      ensures this.page == page && State() == Initial(page)
    {
      this.page := page;
      minimumTimeElapsed, pageLoaded, hideTriggered := false, false, false;
      cause := NotStarted;
      hidden := false;
      attached := page.hasScreen;
      fadePending, cleanupPending := 0, 0;
      effects := [];
    }

    method AttemptHideLoadingScreen()
      modifies this
      ensures State() == AttemptHide(old(State()))
    {
      if minimumTimeElapsed && pageLoaded && !hideTriggered {
        hideTriggered := true;
        cause := Normal;
        fadePending := fadePending + 1;
        effects := effects + [ScheduleFade];
      }
    }

    /** The 5000 ms timer. */
    method OnMinimumTime()
      modifies this
      ensures State() == Apply(page, old(State()), MinimumTimeElapsed)
    {
      minimumTimeElapsed := true;
      AttemptHideLoadingScreen();
    }

    /** The `load` event. */
    method OnLoad()
      modifies this
      ensures State() == Apply(page, old(State()), PageLoad)
    {
      pageLoaded := true;
      if page.hasNotifier {
        effects := effects + [NotifySketch];
      }
      AttemptHideLoadingScreen();
    }

    /** `fadeOutLoadingScreen`, run by the 600 ms timer. */
    method OnFadeTimer()
      modifies this
      ensures State() == Apply(page, old(State()), FadeTimer)
    {
      if fadePending > 0 {
        fadePending := fadePending - 1;
        if page.hasScreen {
          hidden := true;
          effects := effects + [AddHidden];
          cleanupPending := cleanupPending + 1;
          effects := effects + [ScheduleCleanup];
        }
      }
    }

    /** The 800 ms clean-up timer. */
    method OnCleanupTimer()
      modifies this
      ensures State() == Apply(page, old(State()), CleanupTimer)
    {
      if cleanupPending > 0 {
        cleanupPending := cleanupPending - 1;
        var more := [];
        if page.hasCleanup {
          more := more + [CleanupSketch];
        }
        if attached {
          attached := false;
          more := more + [RemoveScreen];
        }
        effects := effects + more;
      }
    }

    /** The 15000 ms fallback timer. */
    method OnFallbackTimer()
      modifies this
      ensures State() == Apply(page, old(State()), FallbackTimer)
    {
      if page.hasScreen && !hidden && !hideTriggered {
        hideTriggered := true;
        cause := Fallback;
        hidden := true;
        effects := effects + [AddHidden];
        cleanupPending := cleanupPending + 1;
        effects := effects + [ScheduleCleanup];
      }
    }
  }
}
