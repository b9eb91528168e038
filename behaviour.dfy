/**
 * What the public methods, the schedulers and the deferred callbacks of one instance
 * (src/createTippy.ts) promise, stated about the steps of the lifecycle engine.
 */
module Behaviour {
  import opened Wrappers
  import opened Strings
  import opened Props
  import opened Wiring
  import opened Lifecycle
  import opened Invariant

  /* -------------------------------- show -------------------------------- */

  /** The guards of `show`: destroyed, disabled, excluded on touch, a disabled target, `onShow` vetoes. */
  predicate ShowBlocked(c: Core, env: Env)
  {
    c.state.isDestroyed || !c.state.isEnabled || (env.usingTouch && !c.props.touch)
    || env.targetDisabled || env.showVetoed
  }

  /** `mount` marks the instance mounted with a Popper instance, re-arms the mount callback and touches no timer. */
  lemma MountEffect(c: Core, env: Env)
    ensures var r := MountStep(c, env);
      && r.state == c.state.(isMounted := true)
      && r.callbacks == c.callbacks.(hasMountCallbackRun := false)
      && r.timers == c.timers && r.document.click == c.document.click
      && r.popper.handle.Some? && SameWiring(c, r)
  {
    var c0 := c.(callbacks := c.callbacks.(hasMountCallbackRun := false));
    MountPopperEffect(c0, env);
    MountPositionEffect(MountPopper(c0, env), env);
  }

  lemma MountPopperEffect(c: Core, env: Env)
    ensures var r := MountPopper(c, env);
      && r.state == c.state && r.callbacks == c.callbacks && r.timers == c.timers
      && r.document == c.document && r.popper.handle.Some? && SameWiring(c, r)
  {
  }

  lemma MountPositionEffect(c: Core, env: Env)
    ensures var r := MountPosition(c, env);
      && r.state == c.state && r.callbacks == c.callbacks && r.timers == c.timers
      && r.document.click == c.document.click && r.popper == c.popper && SameWiring(c, r)
  {
    var c1 := if HasFollowCursor(c, env) && c.memory.hasMouseMoveEvent then PositionNearCursor(c) else c;
    assert c1.state == c.state && c1.callbacks == c.callbacks && c1.timers == c.timers;
    assert c1.document.click == c.document.click && c1.popper == c.popper && SameWiring(c, c1);
  }

  /** `show` touches no timer and keeps the props and the listeners. */
  lemma ShowKeepsTimers(c: Core, d: int, env: Env)
    ensures ShowStep(c, d, env).timers == c.timers && SameWiring(c, ShowStep(c, d, env))
  {
    if !ShowBlocked(c, env) {
      MountEffect(ShowBegin(c, d), env);
    }
  }

  /** A blocked `show` changes nothing. */
  lemma ShowBlockedNoOp(c: Core, d: int, env: Env)
    requires ShowBlocked(c, env)
    ensures ShowStep(c, d, env) == c
  {
  }

  /**
   * A `show` that is not blocked makes the instance visible and mounted with a Popper
   * instance, installs a fresh mount callback for the duration and listens to document clicks;
   * it leaves `isShown`, the timers, the props and the listeners alone.
   */
  lemma ShowProceeds(c: Core, d: int, env: Env)
    requires !ShowBlocked(c, env)
    ensures var r := ShowStep(c, d, env);
      && r.state.isVisible && r.state.isMounted && r.popper.handle.Some?
      && r.callbacks.mountCallback == Some(d) && !r.callbacks.hasMountCallbackRun
      && r.document.click
      && r.state.isShown == c.state.isShown && r.state.isEnabled && !r.state.isDestroyed
      && r.timers == c.timers && r.callbacks.transitionListener == c.callbacks.transitionListener
  {
    MountEffect(ShowBegin(c, d), env);
  }

  /** After `show` the instance is visible exactly when it was, or `show` was not blocked. */
  lemma ShowVisibleIff(c: Core, d: int, env: Env)
    ensures ShowStep(c, d, env).state.isVisible <==> c.state.isVisible || !ShowBlocked(c, env)
  {
    if !ShowBlocked(c, env) {
      ShowProceeds(c, d, env);
    }
  }

  /* -------------------------------- hide -------------------------------- */

  /** The guards of `hide`: destroyed, disabled, `onHide` vetoes. */
  predicate HideBlocked(c: Core, env: Env)
  {
    c.state.isDestroyed || !c.state.isEnabled || env.hideVetoed
  }

  /** A blocked `hide` changes nothing. */
  lemma HideBlockedNoOp(c: Core, d: int, env: Env)
    requires HideBlocked(c, env)
    ensures HideStep(c, d, env) == c
  {
  }

  /**
   * A `hide` that is not blocked clears `isVisible` and `isShown` at once and stops listening
   * to document clicks. With a nonzero duration the popper stays mounted and the transition-out
   * listener is registered; with a zero one it is unmounted at once.
   */
  lemma HideProceeds(c: Core, d: int, env: Env)
    requires !HideBlocked(c, env)
    ensures var r := HideStep(c, d, env);
      && !r.state.isVisible && !r.state.isShown && !r.document.click
      && r.timers == c.timers && r.props == c.props && r.listeners == c.listeners
      && (d != 0 ==> r.state.isMounted == c.state.isMounted
                     && r.callbacks.transitionListener == Some(TransitionedOut))
      && (d == 0 ==> !r.state.isMounted
                     && r.callbacks.transitionListener == c.callbacks.transitionListener)
  {
  }

  /** Only the transition-out callback unmounts, and only while the instance is still hidden. */
  lemma UnmountOnlyWhenHidden(c: Core, k: Completion)
    requires c.state.isMounted && !RunCompletion(c, k).state.isMounted
    ensures k == TransitionedOut && !c.state.isVisible
  {
  }

  /* --------------------------- mount callback --------------------------- */

  /** The mount callback runs at most once per mount: running it again changes nothing. */
  lemma MountCallbackOnce(c: Core)
    ensures RunMountCallback(RunMountCallback(c)) == RunMountCallback(c)
  {
  }

  /** `mount` arms the mount callback again. */
  lemma MountRearms(c: Core, env: Env)
    ensures !MountStep(c, env).callbacks.hasMountCallbackRun
    ensures MountStep(c, env).callbacks.mountCallback == c.callbacks.mountCallback
  {
  }

  /** A mount callback that finds the instance hidden only marks itself as run. */
  lemma MountCallbackWhenHidden(c: Core)
    requires !c.state.isVisible && !c.callbacks.hasMountCallbackRun && c.callbacks.mountCallback.Some?
    ensures RunMountCallback(c) == c.(callbacks := c.callbacks.(hasMountCallbackRun := true))
    ensures !RunMountCallback(c).state.isShown || c.state.isShown
  {
  }

  /**
   * A mount callback that finds the instance visible transitions in: at once for a zero
   * duration (setting `isShown`), otherwise by registering the transition-in listener.
   */
  lemma MountCallbackWhenVisible(c: Core)
    requires c.state.isVisible && !c.callbacks.hasMountCallbackRun && c.callbacks.mountCallback.Some?
    ensures var r := RunMountCallback(c);
      && r.callbacks.hasMountCallbackRun
      && (c.callbacks.mountCallback.value == 0 ==> r.state.isShown)
      && (c.callbacks.mountCallback.value != 0 ==>
            r.callbacks.transitionListener == Some(TransitionedIn) && r.state == c.state)
  {
  }

  /** Popper's update callbacks run the mount callback once: a second update changes nothing more. */
  lemma PopperUpdateIdempotent(c: Core)
    ensures FirePopperUpdate(FirePopperUpdate(c)) == FirePopperUpdate(c)
  {
  }

  /* -------------------------- transition end --------------------------- */

  /** A zero duration runs the callback at once and leaves the registered listener as it was. */
  lemma TransitionEndZero(c: Core, k: Completion)
    ensures TransitionEndStep(c, 0, k) == RunCompletion(c, k)
    ensures TransitionEndStep(c, 0, k).callbacks == c.callbacks
  {
  }

  /** A nonzero duration replaces whatever listener was registered and changes nothing else yet. */
  lemma TransitionEndReplaces(c: Core, d: int, k: Completion)
    requires d != 0
    ensures TransitionEndStep(c, d, k).callbacks.transitionListener == Some(k)
    ensures TransitionEndStep(c, d, k).state == c.state
    ensures TransitionEndStep(c, d, k).popper == c.popper
  {
  }

  /** The listener reacts to the tooltip's own `transitionend` only, and only once. */
  lemma TransitionEndFiresOnce(c: Core)
    ensures FireTransitionEnd(c, false) == c
    ensures FireTransitionEnd(c, true).callbacks.transitionListener == None
    ensures FireTransitionEnd(FireTransitionEnd(c, true), true) == FireTransitionEnd(c, true)
  {
  }

  /* ----------------------------- scheduling ----------------------------- */

  function ShowDelay(p: Props): int
  {
    GetValue(p.delay, 0, DefaultDelay)
  }

  function HideDelay(p: Props): int
  {
    GetValue(p.delay, 1, DefaultDelay)
  }

  /** `scheduleShow` on a visible instance only clears the pending delays. */
  lemma ScheduleShowWhenVisible(c: Core, ev: Option<Event>, env: Env)
    requires c.state.isVisible
    ensures ScheduleShowStep(c, ev, env) == ClearDelayTimeouts(c)
  {
  }

  /**
   * After `scheduleShow` no hide timer or frame is pending, and the show timer is pending
   * exactly when the instance was hidden, not a delegate, not gated by `wait` and the show
   * delay is nonzero.
   */
  lemma ScheduleShowTimers(c: Core, ev: Option<Event>, env: Env)
    ensures var r := ScheduleShowStep(c, ev, env);
      && !r.timers.hideTimer && !r.timers.frame
      && (r.timers.showTimer <==> !c.state.isVisible && c.props.target == "" && !c.props.wait && ShowDelay(c.props) != 0)
  {
    var c1 := ClearDelayTimeouts(c);
    if !c1.state.isVisible && c1.props.target == "" && !c1.props.wait {
      var c2 := AddDocumentClick(FollowCursorPrepare(c1.(callbacks := c1.callbacks.(isScheduledToShow := true)), env));
      assert c2.timers == c1.timers && c2.props == c.props;
      ShowKeepsTimers(c2, ShowDuration(c.props), env);
    }
  }

  /** With a zero show delay `scheduleShow` shows at once: no timer, visible unless `show` is blocked. */
  lemma ScheduleShowZeroDelay(c: Core, ev: Option<Event>, env: Env)
    requires !c.state.isVisible && c.props.target == "" && !c.props.wait
    requires ShowDelay(c.props) == 0
    ensures var r := ScheduleShowStep(c, ev, env);
      && r.timers == Timers(false, false, false)
      && (r.state.isVisible <==> !ShowBlocked(c, env))
  {
    var c1 := ClearDelayTimeouts(c);
    var c2 := AddDocumentClick(FollowCursorPrepare(c1.(callbacks := c1.callbacks.(isScheduledToShow := true)), env));
    assert c2.state == c.state && c2.props == c.props && c2.timers == Timers(false, false, false);
    assert ScheduleShowStep(c, ev, env) == ShowStep(c2, ShowDuration(c.props), env);
    ShowVisibleIff(c2, ShowDuration(c.props), env);
    ShowKeepsTimers(c2, ShowDuration(c.props), env);
  }

  /** A delegate's `scheduleShow` never shows it; it at most asks for one more child instance. */
  lemma ScheduleShowDelegate(c: Core, ev: Option<Event>, env: Env)
    requires !c.state.isVisible && c.props.target != ""
    ensures var r := ScheduleShowStep(c, ev, env);
      && r.state == c.state && r.timers == Timers(false, false, false)
      && r.spawnedChildren == c.spawnedChildren + (if SpawnsDelegateChild(ev) then 1 else 0)
  {
  }

  /** `scheduleHide` on a hidden instance clears the delays and stops following the cursor. */
  lemma ScheduleHideWhenHidden(c: Core)
    requires !c.state.isVisible
    ensures ScheduleHideStep(c) == ClearDelayTimeouts(c).(document := c.document.(followCursor := false))
  {
  }

  /**
   * `scheduleHide` on a visible instance changes no visibility yet: it cancels a pending show,
   * and a nonzero hide delay starts the hide timer while a zero one requests an animation frame.
   */
  lemma ScheduleHideWhenVisible(c: Core)
    requires c.state.isVisible
    ensures var r := ScheduleHideStep(c);
      && r.state == c.state && !r.callbacks.isScheduledToShow
      && (HideDelay(c.props) != 0 ==> r.timers == Timers(false, true, false))
      && (HideDelay(c.props) == 0 ==> r.timers == Timers(false, false, true))
  {
  }

  /** A zero hide delay is asymmetric to a zero show delay: the instance is still visible until the frame fires. */
  lemma ZeroHideDelayWaitsForFrame(c: Core, env: Env)
    requires c.state.isVisible && c.state.isEnabled && !c.state.isDestroyed && !env.hideVetoed
    requires HideDelay(c.props) == 0
    ensures ScheduleHideStep(c).state.isVisible
    ensures !FireFrame(ScheduleHideStep(c), env).state.isVisible
  {
  }

  /** A hide timer that fires when the instance is already hidden only clears its own slot. */
  lemma StaleHideTimer(c: Core, env: Env)
    requires c.timers.hideTimer && !c.state.isVisible
    ensures FireHideTimer(c, env) == c.(timers := c.timers.(hideTimer := false))
  {
  }

  /** A hide timer that fires on a visible instance calls `hide` with the default duration. */
  lemma LiveHideTimer(c: Core, env: Env)
    requires c.timers.hideTimer && c.state.isVisible
    ensures FireHideTimer(c, env) == HideStep(c.(timers := c.timers.(hideTimer := false)), HideDuration(c.props), env)
  {
  }

  /** A timer or frame that is not pending does nothing when its slot is fired. */
  lemma IdleTimers(c: Core, env: Env)
    ensures !c.timers.showTimer ==> FireShowTimer(c, env) == c
    ensures !c.timers.hideTimer ==> FireHideTimer(c, env) == c
    ensures !c.timers.frame ==> FireFrame(c, env) == c
  {
  }

  /* ------------------------------ triggers ------------------------------ */

  /** `onTrigger` on a disabled instance, or for a stopped event, does nothing. */
  lemma OnTriggerIgnored(c: Core, ev: Event, env: Env)
    requires !c.state.isEnabled || IsEventListenerStopped(ev.eventType, c.props.touchHold, env)
    ensures OnTriggerStep(c, ev, env) == c
  {
  }

  /**
   * Otherwise a click on a visible tooltip whose `hideOnClick` is not `false` schedules a hide,
   * and every other trigger schedules a show (after recording the trigger on a hidden one).
   */
  lemma OnTriggerToggle(c: Core, ev: Event, env: Env)
    requires c.state.isEnabled && !IsEventListenerStopped(ev.eventType, c.props.touchHold, env)
    ensures TriggerHides(c, ev) ==> OnTriggerStep(c, ev, env) == ScheduleHideStep(c)
    ensures !TriggerHides(c, ev) ==> OnTriggerStep(c, ev, env) == ScheduleShowStep(RecordTrigger(c, ev), Some(ev), env)
  {
  }

  /** A trigger on a hidden instance remembers its event type, which decides follow-cursor behaviour. */
  lemma RecordTriggerWhenHidden(c: Core, ev: Event)
    requires !c.state.isVisible
    ensures RecordTrigger(c, ev).memory.lastTriggerEventType == ev.eventType
    ensures RecordTrigger(c, ev).memory.hasMouseMoveEvent == (c.memory.hasMouseMoveEvent || ev.isMouseEvent)
  {
  }

  /** Without touch input no event is stopped. */
  lemma NothingStoppedWithoutTouch(eventType: string, touchHold: bool, env: Env)
    requires !env.usingTouch
    ensures !IsEventListenerStopped(eventType, touchHold, env)
  {
  }

  /**
   * With touch input, a non-`touchHold` instance stops exactly the touch events; a `touchHold`
   * one on a touch-capable device stops exactly the others.
   */
  lemma StoppedWithTouch(eventType: string, touchHold: bool, env: Env)
    requires env.usingTouch
    ensures !touchHold ==> (IsEventListenerStopped(eventType, touchHold, env) <==> Contains(eventType, "touch"))
    ensures touchHold && env.supportsTouch ==>
      (IsEventListenerStopped(eventType, touchHold, env) <==> !Contains(eventType, "touch"))
    ensures touchHold && !env.supportsTouch ==> !IsEventListenerStopped(eventType, touchHold, env)
  {
  }

  /** A delivered event reaches its handler only through a recorded listener; on a destroyed instance none is. */
  lemma DeliverUnrecorded(c: Core, l: Listener, ev: Event, env: Env)
    requires l !in c.listeners
    ensures DeliverStep(c, l, ev, env) == c
  {
  }

  /* ---------------------------- document click ---------------------------- */

  /** A click inside an interactive popper, or with `hideOnClick` other than `true`, never hides. */
  lemma DocumentClickKeeps(c: Core, ev: Event, env: Env)
    requires (c.props.interactive && ev.inPopper) || c.props.hideOnClick != HideOnClickTrue
    ensures DocumentClickStep(c, ev, env) == c
  {
  }

  /** With the default props a click outside the reference clears the delays and hides. */
  lemma DefaultOutsideClickHides(c: Core, ev: Event, env: Env)
    requires c.props == DefaultProps && !ev.onReference
    ensures DocumentClickHides(c, ev, env)
    ensures DocumentClickStep(c, ev, env) == HideStep(ClearDelayTimeouts(c), HideDuration(c.props), env)
  {
  }

  /** A click on the reference while touch is in use does not hide: the trigger handles it. */
  lemma TouchClickOnReferenceKeeps(c: Core, ev: Event, env: Env)
    requires ev.onReference && env.usingTouch
    ensures DocumentClickStep(c, ev, env) == c
  {
  }

  /* -------------------------------- set -------------------------------- */

  /** `set` on a destroyed instance changes nothing. */
  lemma SetDestroyedNoOp(c: Core, o: Options)
    requires c.state.isDestroyed
    ensures SetStep(c, o) == c
  {
  }

  /**
   * Otherwise `set` replaces the props by the merged ones and the listeners by the wiring of
   * the new props alone, and leaves the instance's state as it was.
   */
  lemma SetRewires(c: Core, o: Options)
    requires !c.state.isDestroyed
    ensures SetStep(c, o).props == Merge(c.props, o)
    ensures SetStep(c, o).listeners == WiringOf(Merge(c.props, o), c.isIE)
    ensures SetStep(c, o).state == c.state && SetStep(c, o).timers == c.timers
  {
    SetPopperFrame(CleanupInteractive(Rewire(c, Merge(c.props, o))), o, c.props);
  }

  /** The Popper part of `set` keeps the props, the listeners, the state and the timers. */
  lemma SetPopperFrame(c: Core, o: Options, prev: Props)
    ensures var r := SetPopper(c, o, prev);
      r.props == c.props && r.listeners == c.listeners && r.state == c.state && r.timers == c.timers
  {
    if c.popper.handle.Some? && NeedsNewPopper(o, prev) {
      var c2 := EnableListenersIf(CreatePopper(DestroyHandle(c)), c.state.isVisible);
      assert c2.props == c.props && c2.listeners == c.listeners && c2.state == c.state && c2.timers == c.timers;
    }
  }

  /**
   * `set` creates a new Popper instance exactly when one exists and a dependency key changed;
   * otherwise the handle is untouched.
   */
  lemma SetPopperIff(c: Core, o: Options)
    requires !c.state.isDestroyed
    ensures var r := SetStep(c, o);
      && (r.popper.count == c.popper.count + 1 <==> c.popper.handle.Some? && NeedsNewPopper(o, c.props))
      && (r.popper.count == c.popper.count <==> !(c.popper.handle.Some? && NeedsNewPopper(o, c.props)))
      && (!(c.popper.handle.Some? && NeedsNewPopper(o, c.props)) ==> r.popper.handle == c.popper.handle)
  {
  }

  /** A recreated handle is new, its predecessor destroyed; its listeners are on while visible. */
  lemma SetRecreates(c: Core, o: Options)
    requires !c.state.isDestroyed && c.popper.handle.Some? && NeedsNewPopper(o, c.props)
    ensures var h := SetStep(c, o).popper.handle;
      h == Some(PopperHandle(c.popper.count + 1, c.state.isVisible, false))
  {
  }

  /** `setContent` never recreates the Popper instance. */
  lemma SetContentKeepsPopper(c: Core, content: string)
    ensures SetContentStep(c, content).popper == c.popper
  {
    ContentKeepsPopper(content, c.props);
  }

  /** `setContent` changes the content and no other prop. */
  lemma SetContentProps(c: Core, content: string)
    requires !c.state.isDestroyed
    ensures SetContentStep(c, content).props == c.props.(content := content)
  {
    SetRewires(c, ContentOptions(content));
    MergeContent(content, c.props);
  }

  /* ------------------------------ destroy ------------------------------ */

  /** `destroy` always ends destroyed, without listeners, and with any Popper instance destroyed. */
  lemma DestroyEnds(c: Core, env: Env)
    requires Safe(c)
    ensures var r := DestroyStep(c, env);
      && r.state.isDestroyed && r.listeners == []
      && (r.popper.handle.Some? ==> r.popper.handle.value.destroyed)
      && r.popper.count == c.popper.count && r.props == c.props
  {
    if !c.state.isDestroyed {
      HideStepSafe(c, 0, env);
    }
  }

  /** A second `destroy` returns at once. */
  lemma DestroyIdempotent(c: Core, env: Env, env2: Env)
    ensures DestroyStep(DestroyStep(c, env), env2) == DestroyStep(c, env)
  {
  }

  /** On an enabled instance whose `onHide` agrees, `destroy` first hides with `hide(0)`, which unmounts at once. */
  lemma DestroyUnmounts(c: Core, env: Env)
    requires !c.state.isDestroyed && c.state.isEnabled && !env.hideVetoed && c.state.isMounted
    ensures !DestroyStep(c, env).state.isMounted && !DestroyStep(c, env).state.isVisible
  {
    HideProceeds(c, 0, env);
  }

  /** As written, `destroy` on a disabled mounted instance leaves it mounted (and visible if it was). */
  lemma DestroyDisabledStaysMounted(c: Core, env: Env)
    requires !c.state.isDestroyed && !c.state.isEnabled && c.state.isMounted
    ensures DestroyStep(c, env).state.isMounted
    ensures DestroyStep(c, env).state.isVisible == c.state.isVisible
  {
  }

  /* ------------------------- destroyed is terminal ------------------------- */

  /**
   * `d` is a state a destroyed `c` can still reach: destroyed, the same props, no listeners,
   * no new Popper instance, and never newly visible or newly mounted.
   */
  predicate StillDestroyed(c: Core, d: Core)
  {
    && d.state.isDestroyed && d.props == c.props && d.listeners == [] && d.popper.count == c.popper.count
    && (d.state.isVisible ==> c.state.isVisible) && (d.state.isMounted ==> c.state.isMounted)
  }

  lemma StillDestroyedTrans(c: Core, d: Core, e: Core)
    requires StillDestroyed(c, d) && StillDestroyed(d, e)
    ensures StillDestroyed(c, e)
  {
  }

  lemma HideWhenDestroyed(c: Core)
    requires c.state.isDestroyed && c.listeners == []
    ensures StillDestroyed(c, ScheduleHideStep(c))
    ensures StillDestroyed(c, CleanupInteractive(c))
  {
  }

  lemma CallWhenDestroyed(c: Core, op: Op, env: Env)
    requires c.state.isDestroyed && c.listeners == []
    requires op.Show? || op.Hide? || op.Enable? || op.Disable? || op.Destroy? || op.Set? || op.SetContent?
             || op.ClearTimeouts?
    ensures StillDestroyed(c, Apply(c, op, env))
  {
  }

  lemma ListenerEventWhenDestroyed(c: Core, op: Op, env: Env)
    requires c.state.isDestroyed && c.listeners == []
    requires op.Deliver? || op.DocumentClick? || op.CursorMove? || op.InteractiveMouseMove? || op.BodyMouseLeave?
    ensures StillDestroyed(c, Apply(c, op, env))
  {
    var d := Apply(c, op, env);
    if op.Deliver? {
      assert d == DeliverStep(c, op.listener, op.event, env);
    } else if op.DocumentClick? {
      assert d == if c.document.click then DocumentClickStep(c, op.clickEvent, env) else c;
      HideWhenDestroyed(c);
    } else if op.CursorMove? {
      assert d == if c.document.followCursor then PositionNearCursor(c) else c;
    } else if op.InteractiveMouseMove? {
      assert d == if c.document.mouseMove then OnMouseMoveStep(c, op.interactiveEvent, env) else c;
      HideWhenDestroyed(CleanupInteractive(c));
      StillDestroyedTrans(c, CleanupInteractive(c), ScheduleHideStep(CleanupInteractive(c)));
    } else {
      assert d == if c.document.bodyMouseLeave then ScheduleHideStep(c) else c;
      HideWhenDestroyed(c);
    }
  }

  lemma TimerWhenDestroyed(c: Core, op: Op, env: Env)
    requires c.state.isDestroyed && c.listeners == []
    requires op.ShowTimerFires? || op.HideTimerFires? || op.FrameFires?
    ensures StillDestroyed(c, Apply(c, op, env))
  {
  }

  lemma PopperMouseWhenDestroyed(c: Core, op: Op, env: Env)
    requires c.state.isDestroyed && c.listeners == []
    requires op.PopperMouseEnter? || op.PopperMouseLeave?
    ensures StillDestroyed(c, Apply(c, op, env))
  {
  }

  lemma AsyncEventWhenDestroyed(c: Core, op: Op, env: Env)
    requires c.state.isDestroyed && c.listeners == []
    requires op.PopperUpdates? || op.TransitionEnds?
    ensures StillDestroyed(c, Apply(c, op, env))
  {
    if op.PopperUpdates? {
      assert Apply(c, op, env) == FirePopperUpdate(c);
      PopperUpdateWhenDestroyed(c);
    } else {
      assert Apply(c, op, env) == FireTransitionEnd(c, op.onTooltip);
      TransitionEndWhenDestroyed(c, op.onTooltip);
    }
  }

  lemma PopperUpdateWhenDestroyed(c: Core)
    requires c.state.isDestroyed && c.listeners == []
    ensures StillDestroyed(c, FirePopperUpdate(c))
  {
  }

  lemma TransitionEndWhenDestroyed(c: Core, onTooltip: bool)
    requires c.state.isDestroyed && c.listeners == []
    ensures StillDestroyed(c, FireTransitionEnd(c, onTooltip))
  {
  }

  /** On a destroyed instance every operation leaves it destroyed. */
  lemma ApplyWhenDestroyed(c: Core, op: Op, env: Env)
    requires c.state.isDestroyed && c.listeners == []
    ensures StillDestroyed(c, Apply(c, op, env))
  {
    if op.Show? || op.Hide? || op.Enable? || op.Disable? || op.Destroy? || op.Set? || op.SetContent?
       || op.ClearTimeouts? {
      CallWhenDestroyed(c, op, env);
    } else if op.Deliver? || op.DocumentClick? || op.CursorMove? || op.InteractiveMouseMove? || op.BodyMouseLeave? {
      ListenerEventWhenDestroyed(c, op, env);
    } else if op.ShowTimerFires? || op.HideTimerFires? || op.FrameFires? {
      TimerWhenDestroyed(c, op, env);
    } else if op.PopperMouseEnter? || op.PopperMouseLeave? {
      PopperMouseWhenDestroyed(c, op, env);
    } else {
      AsyncEventWhenDestroyed(c, op, env);
    }
  }

  /** Destroyed is terminal: no sequence of operations revives, re-wires, re-configures or re-shows the instance. */
  lemma {:induction false} RunWhenDestroyed(c: Core, steps: seq<Step>)
    requires c.state.isDestroyed && c.listeners == []
    ensures StillDestroyed(c, Run(c, steps))
    decreases |steps|
  {
    var d := if steps == [] then c else Apply(c, steps[0].op, steps[0].env);
    if steps == [] {
      assert Run(c, steps) == c;
    } else {
      ApplyWhenDestroyed(c, steps[0].op, steps[0].env);
      RunWhenDestroyed(d, steps[1..]);
      StillDestroyedTrans(c, d, Run(d, steps[1..]));
    }
  }

  /** After `destroy`, whatever happens, the instance stays destroyed in the sense of `StillDestroyed`. */
  lemma DestroyIsTerminal(c: Core, env: Env, steps: seq<Step>)
    requires Safe(c)
    ensures var d := DestroyStep(c, env);
      StillDestroyed(d, Run(d, steps))
  {
    DestroyEnds(c, env);
    RunWhenDestroyed(DestroyStep(c, env), steps);
  }
}
