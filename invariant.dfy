/**
 * The invariant of the lifecycle engine holds after creation and is kept by every
 * operation, hence by every sequence of operations. Every step other than `set`,
 * `setContent` and `destroy` keeps the props and the reference listeners as they are.
 */
module Invariant {
  import opened Wrappers
  import opened Props
  import opened Wiring
  import opened Lifecycle

  /** `Safe` without "visible implies mounted", the state `show` is in just before `mount`. */
  predicate SafeButMount(c: Core)
  {
    && (c.state.isMounted ==> c.popper.handle.Some?)
    && AtMostOnePending(c.timers)
    && (c.state.isDestroyed ==> c.listeners == [])
    && PopperConsistent(c.popper, c.state.isDestroyed)
  }

  lemma WiredFrame(c: Core, d: Core)
    requires Wired(c) && SameWiring(c, d)
    ensures Wired(d)
  {
  }

  lemma PositionNearCursorSafe(c: Core)
    requires SafeButMount(c)
    ensures SafeButMount(PositionNearCursor(c)) && Safe(c) == Safe(PositionNearCursor(c))
    ensures SameWiring(c, PositionNearCursor(c))
    ensures PositionNearCursor(c).state == c.state && PositionNearCursor(c).popper == c.popper
  {
  }

  lemma MountPopperSafe(c: Core, env: Env)
    requires SafeButMount(c) && !c.state.isDestroyed
    ensures SafeButMount(MountPopper(c, env)) && MountPopper(c, env).popper.handle.Some?
    ensures SameWiring(c, MountPopper(c, env)) && MountPopper(c, env).state == c.state
  {
  }

  lemma MountPositionSafe(c: Core, env: Env)
    requires SafeButMount(c)
    ensures SafeButMount(MountPosition(c, env)) && SameWiring(c, MountPosition(c, env))
    ensures MountPosition(c, env).state == c.state && MountPosition(c, env).popper == c.popper
  {
    var c1 := if HasFollowCursor(c, env) && c.memory.hasMouseMoveEvent then PositionNearCursor(c) else c;
    PositionNearCursorSafe(c);
    PositionNearCursorSafe(c1);
  }

  lemma MountStepSafe(c: Core, env: Env)
    requires SafeButMount(c) && !c.state.isDestroyed
    ensures Safe(MountStep(c, env)) && SameWiring(c, MountStep(c, env)) && MountStep(c, env).state.isMounted
  {
    var c0 := c.(callbacks := c.callbacks.(hasMountCallbackRun := false));
    MountPopperSafe(c0, env);
    MountPositionSafe(MountPopper(c0, env), env);
  }

  lemma ShowStepSafe(c: Core, d: int, env: Env)
    requires Safe(c)
    ensures Safe(ShowStep(c, d, env)) && SameWiring(c, ShowStep(c, d, env))
  {
    if !(c.state.isDestroyed || !c.state.isEnabled || (env.usingTouch && !c.props.touch))
       && !env.targetDisabled && !env.showVetoed
    {
      MountStepSafe(ShowBegin(c, d), env);
    }
  }

  lemma RunCompletionSafe(c: Core, k: Completion)
    requires Safe(c)
    ensures Safe(RunCompletion(c, k)) && SameWiring(c, RunCompletion(c, k))
  {
  }

  lemma TransitionEndSafe(c: Core, d: int, k: Completion)
    requires Safe(c)
    ensures Safe(TransitionEndStep(c, d, k)) && SameWiring(c, TransitionEndStep(c, d, k))
  {
    RunCompletionSafe(c, k);
  }

  lemma HideStepSafe(c: Core, d: int, env: Env)
    requires Safe(c)
    ensures Safe(HideStep(c, d, env)) && SameWiring(c, HideStep(c, d, env))
  {
    if !(c.state.isDestroyed || !c.state.isEnabled) && !env.hideVetoed {
      TransitionEndSafe(HideBegin(c), d, TransitionedOut);
    }
  }

  lemma FireTransitionEndSafe(c: Core, onTooltip: bool)
    requires Safe(c)
    ensures Safe(FireTransitionEnd(c, onTooltip)) && SameWiring(c, FireTransitionEnd(c, onTooltip))
  {
    if c.callbacks.transitionListener.Some? && onTooltip {
      RunCompletionSafe(c.(callbacks := c.callbacks.(transitionListener := None)),
                        c.callbacks.transitionListener.value);
    }
  }

  lemma RunMountCallbackSafe(c: Core)
    requires Safe(c)
    ensures Safe(RunMountCallback(c)) && SameWiring(c, RunMountCallback(c))
  {
    if !c.callbacks.hasMountCallbackRun && c.callbacks.mountCallback.Some? {
      TransitionEndSafe(c.(callbacks := c.callbacks.(hasMountCallbackRun := true)),
                        c.callbacks.mountCallback.value, TransitionedIn);
    }
  }

  lemma FirePopperUpdateSafe(c: Core)
    requires Safe(c)
    ensures Safe(FirePopperUpdate(c)) && SameWiring(c, FirePopperUpdate(c))
  {
    if c.popper.handle.Some? && !c.popper.handle.value.destroyed {
      RunMountCallbackSafe(c.(popper := c.popper.(hasPadding := true)));
    }
  }

  lemma StartShowDelaySafe(c: Core, env: Env)
    requires Safe(c) && c.timers == Timers(false, false, false)
    ensures Safe(StartShowDelay(c, env)) && SameWiring(c, StartShowDelay(c, env))
  {
    if GetValue(c.props.delay, 0, DefaultDelay) == 0 {
      ShowStepSafe(c, ShowDuration(c.props), env);
    }
  }

  lemma ScheduleShowArmedSafe(c: Core, env: Env)
    requires Safe(c) && !c.state.isDestroyed && c.timers == Timers(false, false, false)
    ensures Safe(ScheduleShowArmed(c, env)) && SameWiring(c, ScheduleShowArmed(c, env))
  {
    if !c.props.wait {
      var c1 := AddDocumentClick(FollowCursorPrepare(c, env));
      assert Safe(c1) && SameWiring(c, c1);
      StartShowDelaySafe(c1, env);
    }
  }

  lemma ScheduleShowSafe(c: Core, ev: Option<Event>, env: Env)
    requires Safe(c) && !c.state.isDestroyed
    ensures Safe(ScheduleShowStep(c, ev, env)) && SameWiring(c, ScheduleShowStep(c, ev, env))
  {
    var c1 := ClearDelayTimeouts(c);
    if !c1.state.isVisible && c1.props.target == "" {
      ScheduleShowArmedSafe(c1.(callbacks := c1.callbacks.(isScheduledToShow := true)), env);
    }
  }

  lemma StartHideDelaySafe(c: Core)
    requires Safe(c) && c.timers == Timers(false, false, false)
    ensures Safe(StartHideDelay(c)) && SameWiring(c, StartHideDelay(c))
  {
  }

  lemma ScheduleHideSafe(c: Core)
    requires Safe(c)
    ensures Safe(ScheduleHideStep(c)) && SameWiring(c, ScheduleHideStep(c))
  {
    var c1 := ClearDelayTimeouts(c);
    if c1.state.isVisible {
      StartHideDelaySafe(c1.(callbacks := c1.callbacks.(isScheduledToShow := false)));
    }
  }

  lemma FireShowTimerSafe(c: Core, env: Env)
    requires Safe(c)
    ensures Safe(FireShowTimer(c, env)) && SameWiring(c, FireShowTimer(c, env))
  {
    if c.timers.showTimer {
      ShowStepSafe(c.(timers := c.timers.(showTimer := false)), ShowDuration(c.props), env);
    }
  }

  lemma FireHideTimerSafe(c: Core, env: Env)
    requires Safe(c)
    ensures Safe(FireHideTimer(c, env)) && SameWiring(c, FireHideTimer(c, env))
  {
    if c.timers.hideTimer {
      HideStepSafe(c.(timers := c.timers.(hideTimer := false)), HideDuration(c.props), env);
    }
  }

  lemma FireFrameSafe(c: Core, env: Env)
    requires Safe(c)
    ensures Safe(FireFrame(c, env)) && SameWiring(c, FireFrame(c, env))
  {
    if c.timers.frame {
      HideStepSafe(c.(timers := c.timers.(frame := false)), HideDuration(c.props), env);
    }
  }

  lemma OnTriggerSafe(c: Core, ev: Event, env: Env)
    requires Safe(c) && !c.state.isDestroyed
    ensures Safe(OnTriggerStep(c, ev, env)) && SameWiring(c, OnTriggerStep(c, ev, env))
  {
    if c.state.isEnabled && !IsEventListenerStopped(ev.eventType, c.props.touchHold, env) {
      var c1 := RecordTrigger(c, ev);
      assert Safe(c1) && SameWiring(c, c1) && !c1.state.isDestroyed;
      ScheduleHideSafe(c1);
      ScheduleShowSafe(c1, Some(ev), env);
    }
  }

  lemma DeliverSafe(c: Core, l: Listener, ev: Event, env: Env)
    requires Safe(c)
    ensures Safe(DeliverStep(c, l, ev, env)) && SameWiring(c, DeliverStep(c, l, ev, env))
  {
    if l in c.listeners {
      var e := ev.(eventType := l.eventType);
      match l.handler
      case OnTrigger => OnTriggerSafe(c, e, env);
      case OnMouseLeave => ScheduleHideSafe(c);
      case OnBlur => ScheduleHideSafe(c);
      case OnDelegateShow => ScheduleShowSafe(c, Some(e), env);
      case OnDelegateHide => ScheduleHideSafe(c);
    }
  }

  lemma DocumentClickSafe(c: Core, ev: Event, env: Env)
    requires Safe(c)
    ensures Safe(DocumentClickStep(c, ev, env)) && SameWiring(c, DocumentClickStep(c, ev, env))
  {
    HideStepSafe(ClearDelayTimeouts(c), HideDuration(c.props), env);
  }

  lemma OnMouseMoveSafe(c: Core, ev: Event, env: Env)
    requires Safe(c)
    ensures Safe(OnMouseMoveStep(c, ev, env)) && SameWiring(c, OnMouseMoveStep(c, ev, env))
  {
    if !(ev.onReference || ev.inPopper) && !env.mouseMoveVetoed && ev.outsideBorder {
      ScheduleHideSafe(CleanupInteractive(c));
    }
  }

  lemma SimpleStepsSafe(c: Core)
    requires Safe(c)
    ensures Safe(EnableStep(c)) && SameWiring(c, EnableStep(c))
    ensures Safe(DisableStep(c)) && SameWiring(c, DisableStep(c))
    ensures Safe(ClearDelayTimeouts(c)) && SameWiring(c, ClearDelayTimeouts(c))
    ensures Safe(PopperMouseEnterStep(c)) && SameWiring(c, PopperMouseEnterStep(c))
    ensures Safe(PopperMouseLeaveStep(c)) && SameWiring(c, PopperMouseLeaveStep(c))
  {
  }

  /** `set` rewires the reference for the merged props and keeps the invariant. */
  lemma SetStepInv(c: Core, o: Options)
    requires Inv(c)
    ensures Inv(SetStep(c, o))
  {
    if !c.state.isDestroyed {
      var c1 := CleanupInteractive(Rewire(c, Merge(c.props, o)));
      assert Inv(c1);
      if c1.popper.handle.Some? && NeedsNewPopper(o, c.props) {
        RecreatePopperInv(c1);
      }
    }
  }

  /** Recreating the Popper instance of a live instance keeps the invariant. */
  lemma RecreatePopperInv(c: Core)
    requires Inv(c) && !c.state.isDestroyed && c.popper.handle.Some?
    ensures Inv(RecreatePopper(c))
  {
    var c2 := EnableListenersIf(CreatePopper(DestroyHandle(c)), c.state.isVisible);
    assert Safe(c2) && SameWiring(c, c2);
    PositionNearCursorSafe(c2);
    WiredFrame(c, SetFollowCursor(c2));
  }

  /** `destroy` keeps the invariant. */
  lemma DestroyStepInv(c: Core, env: Env)
    requires Inv(c)
    ensures Inv(DestroyStep(c, env))
  {
    if !c.state.isDestroyed {
      var c1 := if c.state.isMounted then HideStep(c, 0, env) else c;
      HideStepSafe(c, 0, env);
      assert Safe(c1);
      assert Inv(FinishDestroy(c1));
    }
  }

  /** A newly created instance satisfies the invariant. */
  lemma CreateInv(p: Props, isIE: bool, env: Env)
    ensures Inv(CreateStep(p, isIE, env))
  {
    var c1 := CreateEager(InitialCore(p, isIE).(listeners := WiringOf(p, isIE)));
    assert Inv(c1);
    if p.showOnInit {
      ScheduleShowSafe(c1, None, env);
      WiredFrame(c1, ScheduleShowStep(c1, None, env));
    }
  }

  /** `show` and `hide` keep the invariant and the wiring. */
  lemma VisibilityCallSafe(c: Core, op: Op, env: Env)
    requires Safe(c) && (op.Show? || op.Hide?)
    ensures Safe(Apply(c, op, env)) && SameWiring(c, Apply(c, op, env))
  {
    match op
    case Show(d) => ShowStepSafe(c, if d.Some? then d.value else ShowDuration(c.props), env);
    case Hide(d) => HideStepSafe(c, if d.Some? then d.value else HideDuration(c.props), env);
  }

  /** The events on the reference and on the document keep the invariant and the wiring. */
  lemma ListenerEventSafe(c: Core, op: Op, env: Env)
    requires Safe(c)
    requires op.Deliver? || op.DocumentClick? || op.CursorMove? || op.InteractiveMouseMove? || op.BodyMouseLeave?
    ensures Safe(Apply(c, op, env)) && SameWiring(c, Apply(c, op, env))
  {
    var d := Apply(c, op, env);
    if op.Deliver? {
      assert d == DeliverStep(c, op.listener, op.event, env);
      DeliverSafe(c, op.listener, op.event, env);
    } else if op.DocumentClick? {
      assert d == if c.document.click then DocumentClickStep(c, op.clickEvent, env) else c;
      DocumentClickSafe(c, op.clickEvent, env);
    } else if op.CursorMove? {
      assert d == if c.document.followCursor then PositionNearCursor(c) else c;
      PositionNearCursorSafe(c);
    } else if op.InteractiveMouseMove? {
      assert d == if c.document.mouseMove then OnMouseMoveStep(c, op.interactiveEvent, env) else c;
      OnMouseMoveSafe(c, op.interactiveEvent, env);
    } else {
      assert d == if c.document.bodyMouseLeave then ScheduleHideStep(c) else c;
      ScheduleHideSafe(c);
    }
  }

  /** The timers, Popper's callbacks and the transition end keep the invariant and the wiring. */
  lemma AsyncEventSafe(c: Core, op: Op, env: Env)
    requires Safe(c)
    requires op.ShowTimerFires? || op.HideTimerFires? || op.FrameFires? || op.PopperUpdates? || op.TransitionEnds?
    ensures Safe(Apply(c, op, env)) && SameWiring(c, Apply(c, op, env))
  {
    var d := Apply(c, op, env);
    if op.ShowTimerFires? {
      assert d == FireShowTimer(c, env);
      FireShowTimerSafe(c, env);
    } else if op.HideTimerFires? {
      assert d == FireHideTimer(c, env);
      FireHideTimerSafe(c, env);
    } else if op.FrameFires? {
      assert d == FireFrame(c, env);
      FireFrameSafe(c, env);
    } else if op.PopperUpdates? {
      assert d == FirePopperUpdate(c);
      FirePopperUpdateSafe(c);
    } else {
      assert d == FireTransitionEnd(c, op.onTooltip);
      FireTransitionEndSafe(c, op.onTooltip);
    }
  }

  /** Every operation other than `set`, `setContent` and `destroy` keeps the props and the listeners. */
  lemma ApplySafe(c: Core, op: Op, env: Env)
    requires Safe(c) && !op.Set? && !op.SetContent? && !op.Destroy?
    ensures Safe(Apply(c, op, env)) && SameWiring(c, Apply(c, op, env))
  {
    if op.Show? || op.Hide? {
      VisibilityCallSafe(c, op, env);
    } else if op.Deliver? || op.DocumentClick? || op.CursorMove? || op.InteractiveMouseMove? || op.BodyMouseLeave? {
      ListenerEventSafe(c, op, env);
    } else if op.ShowTimerFires? || op.HideTimerFires? || op.FrameFires? || op.PopperUpdates? || op.TransitionEnds? {
      AsyncEventSafe(c, op, env);
    } else {
      SimpleStepsSafe(c);
    }
  }

  /** Every operation keeps the invariant. */
  lemma ApplyRewiring(c: Core, op: Op, env: Env)
    requires op.Set? || op.SetContent? || op.Destroy?
    ensures op.Set? ==> Apply(c, op, env) == SetStep(c, op.options)
    ensures op.SetContent? ==> Apply(c, op, env) == SetStep(c, ContentOptions(op.newContent))
    ensures op.Destroy? ==> Apply(c, op, env) == DestroyStep(c, env)
  {
  }

  /** `set`, `setContent` and `destroy` rewire or unwire the instance and keep the invariant. */
  lemma RewiringOpInv(c: Core, op: Op, env: Env)
    requires Inv(c) && (op.Set? || op.SetContent? || op.Destroy?)
    ensures Inv(Apply(c, op, env))
  {
    ApplyRewiring(c, op, env);
    if op.Set? {
      SetStepInv(c, op.options);
    } else if op.SetContent? {
      SetStepInv(c, ContentOptions(op.newContent));
    } else {
      DestroyStepInv(c, env);
    }
  }

  /** Every other operation keeps the lifecycle invariant and leaves the wiring alone. */
  lemma WiringPreservingOpInv(c: Core, op: Op, env: Env)
    requires Inv(c) && !(op.Set? || op.SetContent? || op.Destroy?)
    ensures Inv(Apply(c, op, env))
  {
    ApplySafe(c, op, env);
    WiredFrame(c, Apply(c, op, env));
  }

  /** Every operation keeps the invariant. */
  lemma ApplyInv(c: Core, op: Op, env: Env)
    requires Inv(c)
    ensures Inv(Apply(c, op, env))
  {
    if op.Set? || op.SetContent? || op.Destroy? {
      RewiringOpInv(c, op, env);
    } else {
      WiringPreservingOpInv(c, op, env);
    }
  }

  /** Every sequence of operations keeps the invariant. */
  lemma {:induction false} RunInv(c: Core, steps: seq<Step>)
    requires Inv(c)
    ensures Inv(Run(c, steps))
    decreases |steps|
  {
    if steps != [] {
      ApplyInv(c, steps[0].op, steps[0].env);
      RunInv(Apply(c, steps[0].op, steps[0].env), steps[1..]);
    }
  }

  /** Every state reached from creation satisfies the invariant. */
  lemma ReachableInv(p: Props, isIE: bool, env: Env, steps: seq<Step>)
    ensures Inv(Run(CreateStep(p, isIE, env), steps))
  {
    CreateInv(p, isIE, env);
    RunInv(CreateStep(p, isIE, env), steps);
  }
}
