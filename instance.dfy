/**
 * One tippy instance as the object `createTippy` (src/createTippy.ts) builds: the closure's
 * variables are fields, reassigned step by step as the source does, and every method is
 * proved to move the instance exactly as the matching lifecycle step says. `attached` is the
 * set of listeners the DOM event-listeners target actually holds.
 */
module Instance {
  import opened Wrappers
  import Strings
  import opened Props
  import opened Wiring
  import opened Lifecycle
  import opened Invariant

  class Tippy {
    const id: nat
    const reference: nat
    const isIE: bool
    var state: TippyState
    var props: Props
    var listeners: seq<Listener>
    var attached: set<Listener>
    var timers: Timers
    var callbacks: Callbacks
    var popper: PopperSlot
    var memory: EventMemory
    var document: DocumentListeners
    var spawnedChildren: nat

    /** The closure's state as a lifecycle value. */
    function Model(): Core
      reads this
    {
      Core(isIE, state, props, listeners, timers, callbacks, popper, memory, document, spawnedChildren)
    }

    /** The lifecycle invariant, and the DOM target holds exactly the recorded listeners. */
    ghost predicate Valid()
      reads this
    {
      Inv(Model()) && attached == ListenerSet(listeners)
    }

    /** `createTippy` once accepted: the initial state, the triggers, a non-lazy Popper, `showOnInit`. */
    constructor (id: nat, reference: nat, p: Props, isIE: bool, env: Env)
      ensures this.id == id && this.reference == reference
      ensures Model() == CreateStep(p, isIE, env)
      ensures Valid()
    {
      this.id := id;
      this.reference := reference;
      this.isIE := isIE;
      state := TippyState(true, false, false, false, false);
      props := p;
      listeners := [];
      attached := {};
      timers := Timers(false, false, false);
      callbacks := Callbacks(false, false, None, None);
      popper := PopperSlot(None, 0, false);
      memory := EventMemory("", false);
      document := DocumentListeners(false, false, false, false);
      spawnedChildren := 0;
      new;
      AddTriggersToReference();
      ghost var c0 := InitialCore(p, isIE).(listeners := WiringOf(p, isIE));
      assert Model() == c0;
      if !props.lazy {
        CreatePopperInstance();
      }
      assert Model() == CreateEager(c0);
      if props.showOnInit {
        ScheduleShow(None, env);
      }
      assert Model() == CreateStep(p, isIE, env);
      CreateInv(p, isIE, env);
    }

    /* --------------------------- listener bookkeeping --------------------------- */

    /** `on(eventType, handler, options)`: attach to the target and record. */
    method On(eventType: string, handler: Handler, passive: bool)
      modifies `listeners, `attached
      ensures listeners == old(listeners) + [Listener(eventType, handler, passive)]
      ensures attached == old(attached) + {Listener(eventType, handler, passive)}
    {
      var l := Listener(eventType, handler, passive);
      attached := attached + {l};
      listeners := listeners + [l];
    }

    /** The body of the `forEach` of `addTriggersToReference` for one token. */
    method AddTokenTriggers(t: string)
      modifies `listeners, `attached
      ensures listeners == old(listeners) + TokenWiring(t, props, isIE)
      ensures attached == old(attached) + ListenerSet(TokenWiring(t, props, isIE))
    {
      if t == "manual" {
        return;
      }
      if props.target == "" {
        On(t, Handler.OnTrigger, false);
        if t == "mouseenter" {
          On("mouseleave", Handler.OnMouseLeave, false);
        } else if t == "focus" {
          On(BlurEventType(isIE), Handler.OnBlur, false);
        }
      } else {
        if t == "mouseenter" {
          On("mouseover", Handler.OnDelegateShow, false);
          On("mouseout", Handler.OnDelegateHide, false);
        } else if t == "focus" {
          On("focusin", Handler.OnDelegateShow, false);
          On("focusout", Handler.OnDelegateHide, false);
        } else if t == "click" {
          On(t, Handler.OnDelegateShow, false);
        }
      }
    }

    /** `addTriggersToReference`: appends the wiring of the current props. */
    method AddTriggersToReference()
      modifies `listeners, `attached
      ensures listeners == old(listeners) + WiringOf(props, isIE)
      ensures attached == old(attached) + ListenerSet(WiringOf(props, isIE))
    {
      ghost var th := TouchHoldWiring(props);
      ghost var wt := WireTokens(Tokens(props.trigger), props, isIE);
      if props.touchHold && props.target == "" {
        On("touchstart", Handler.OnTrigger, true);
        On("touchend", Handler.OnMouseLeave, true);
      }
      assert listeners == old(listeners) + th && attached == old(attached) + ListenerSet(th);
      AddTokensTriggers(Tokens(props.trigger));
      assert listeners == old(listeners) + th + wt;
      assert WiringOf(props, isIE) == th + wt;
      AppendAssoc(old(listeners), th, wt);
      ListenerSetAppend(th, wt);
    }

    /** The `forEach` over the trigger tokens. */
    method AddTokensTriggers(ts: seq<string>)
      modifies `listeners, `attached
      ensures listeners == old(listeners) + WireTokens(ts, props, isIE)
      ensures attached == old(attached) + ListenerSet(WireTokens(ts, props, isIE))
    {
      ghost var l0, a0 := listeners, attached;
      ghost var w: seq<Listener> := [];
      var i := 0;
      while i < |ts|
        invariant 0 <= i <= |ts|
        invariant w == WireTokens(ts[..i], props, isIE)
        invariant listeners == l0 + w && attached == a0 + ListenerSet(w)
      {
        ghost var tw := TokenWiring(ts[i], props, isIE);
        WireTokensStep(ts, i, props, isIE);
        ListenerSetAppend(w, tw);
        AppendAssoc(l0, w, tw);
        AddTokenTriggers(ts[i]);
        assert listeners == l0 + w + tw && attached == a0 + ListenerSet(w) + ListenerSet(tw);
        w := w + tw;
        i := i + 1;
      }
      assert ts[..i] == ts;
    }

    /** `removeTriggersFromReference`: detaches every recorded listener and empties the record. */
    method RemoveTriggersFromReference()
      modifies `listeners, `attached
      ensures listeners == []
      ensures attached == old(attached) - ListenerSet(old(listeners))
    {
      var i := 0;
      while i < |listeners|
        invariant 0 <= i <= |listeners|
        invariant listeners == old(listeners)
        invariant attached == old(attached) - ListenerSet(listeners[..i])
      {
        assert listeners[..i + 1] == listeners[..i] + [listeners[i]];
        ListenerSetAppend(listeners[..i], [listeners[i]]);
        attached := attached - {listeners[i]};
        i := i + 1;
      }
      assert listeners[..i] == listeners;
      listeners := [];
    }

    /* ------------------------------ private helpers ----------------------------- */

    /** `createPopperInstance`. */
    method CreatePopperInstance()
      modifies this
      ensures Model() == CreatePopper(old(Model())) && attached == old(attached) && listeners == old(listeners)
    {
      popper := popper.(handle := Some(PopperHandle(popper.count + 1, false, false)), count := popper.count + 1);
    }

    /** `popperInstance.enableEventListeners()`. */
    method EnableEventListeners()
      modifies this
      ensures Model() == EnableListenersIf(old(Model()), true) && attached == old(attached) && listeners == old(listeners)
    {
      if popper.handle.Some? {
        popper := popper.(handle := Some(popper.handle.value.(listenersEnabled := true)));
      }
    }

    /** `positionVirtualReferenceNearCursor(lastMouseMoveEvent)` without its geometry. */
    method PositionVirtualReferenceNearCursor()
      modifies this
      ensures Model() == PositionNearCursor(old(Model())) && attached == old(attached) && listeners == old(listeners)
    {
      memory := memory.(hasMouseMoveEvent := true);
      if !popper.hasPadding {
        return;
      }
      if props.followCursor == Initial && state.isVisible {
        document := document.(followCursor := false);
      }
    }

    /** `cleanupInteractiveMouseListeners`. */
    method CleanupInteractiveMouseListeners()
      modifies this
      ensures Model() == CleanupInteractive(old(Model())) && attached == old(attached) && listeners == old(listeners)
    {
      document := document.(bodyMouseLeave := false, mouseMove := false);
    }

    /** `mount`. */
    method Mount(env: Env)
      modifies this
      ensures Model() == MountStep(old(Model()), env) && attached == old(attached) && listeners == old(listeners)
    {
      callbacks := callbacks.(hasMountCallbackRun := false);
      MountPopperInstance(env);
      if HasFollowCursor(Model(), env) && memory.hasMouseMoveEvent {
        PositionVirtualReferenceNearCursor();
      }
      if env.usingTouch && memory.hasMouseMoveEvent && props.followCursor == Initial {
        PositionVirtualReferenceNearCursor();
      }
      if !state.isMounted {
        state := state.(isMounted := true);
      }
    }

    /** The Popper part of `mount`: create the instance, or update the existing one. */
    method MountPopperInstance(env: Env)
      modifies this
      ensures Model() == MountPopper(old(Model()), env) && attached == old(attached) && listeners == old(listeners)
    {
      var follow := HasFollowCursor(Model(), env);
      var shouldEnableListeners := !follow && !(props.followCursor == Initial && env.usingTouch);
      if popper.handle.None? {
        CreatePopperInstance();
        if shouldEnableListeners {
          EnableEventListeners();
        }
      } else if !follow {
        if shouldEnableListeners {
          EnableEventListeners();
        }
      }
    }

    /** The callback passed to `onTransitionedIn` or (wrapped) to `onTransitionedOut`. */
    method Complete(k: Completion)
      modifies this
      ensures Model() == RunCompletion(old(Model()), k) && attached == old(attached) && listeners == old(listeners)
    {
      match k
      case TransitionedIn =>
        state := state.(isShown := true);
      case TransitionedOut =>
        if !state.isVisible && state.isMounted {
          if !callbacks.isScheduledToShow {
            document := document.(followCursor := false);
          }
          if popper.handle.Some? {
            popper := popper.(handle := Some(popper.handle.value.(listenersEnabled := false)));
          }
          state := state.(isMounted := false);
        }
    }

    /** `onTransitionEnd(duration, callback)`. */
    method OnTransitionEnd(duration: int, k: Completion)
      modifies this
      ensures Model() == TransitionEndStep(old(Model()), duration, k) && attached == old(attached) && listeners == old(listeners)
    {
      if duration == 0 {
        Complete(k);
        return;
      }
      callbacks := callbacks.(transitionListener := Some(k));
    }

    /** `runMountCallback`, then the mount callback `show` installed. */
    method RunMountCallback()
      modifies this
      ensures Model() == Lifecycle.RunMountCallback(old(Model())) && attached == old(attached) && listeners == old(listeners)
    {
      if !callbacks.hasMountCallbackRun && callbacks.mountCallback.Some? {
        callbacks := callbacks.(hasMountCallbackRun := true);
        var duration := callbacks.mountCallback.value;
        if !state.isVisible {
          return;
        }
        OnTransitionEnd(duration, TransitionedIn);
      }
    }

    /** `scheduleShow(event?)`. */
    method ScheduleShow(ev: Option<Event>, env: Env)
      modifies this
      ensures Model() == ScheduleShowStep(old(Model()), ev, env) && attached == old(attached) && listeners == old(listeners)
    {
      timers := Timers(false, false, false);
      if state.isVisible {
        return;
      }
      if props.target != "" {
        if SpawnsDelegateChild(ev) {
          spawnedChildren := spawnedChildren + 1;
        }
        return;
      }
      callbacks := callbacks.(isScheduledToShow := true);
      ArmShow(env);
    }

    /** `scheduleShow` once `isScheduledToShow` is set: the `wait` gate, follow-cursor set-up, the delay. */
    method ArmShow(env: Env)
      modifies this
      ensures Model() == ScheduleShowArmed(old(Model()), env) && attached == old(attached) && listeners == old(listeners)
    {
      if props.wait {
        return;
      }
      if HasFollowCursor(Model(), env) && !state.isMounted {
        if popper.handle.None? {
          CreatePopperInstance();
        }
        document := document.(followCursor := true);
      }
      document := document.(click := true);
      var delay := GetValue(props.delay, 0, DefaultDelay);
      if delay != 0 {
        timers := timers.(showTimer := true);
      } else {
        ShowWith(ShowDuration(props), env);
      }
    }

    /** `scheduleHide()`. */
    method ScheduleHide()
      modifies this
      ensures Model() == ScheduleHideStep(old(Model())) && attached == old(attached) && listeners == old(listeners)
    {
      timers := Timers(false, false, false);
      if !state.isVisible {
        document := document.(followCursor := false);
        return;
      }
      callbacks := callbacks.(isScheduledToShow := false);
      var delay := GetValue(props.delay, 1, DefaultDelay);
      if delay != 0 {
        timers := timers.(hideTimer := true);
      } else {
        timers := timers.(frame := true);
      }
    }

    /** `show(duration)`. */
    method ShowWith(duration: int, env: Env)
      modifies this
      ensures Model() == ShowStep(old(Model()), duration, env) && attached == old(attached) && listeners == old(listeners)
    {
      if state.isDestroyed || !state.isEnabled || (env.usingTouch && !props.touch) {
        return;
      }
      if env.targetDisabled {
        return;
      }
      if env.showVetoed {
        return;
      }
      document := document.(click := true);
      state := state.(isVisible := true);
      callbacks := callbacks.(mountCallback := Some(duration));
      Mount(env);
    }

    /** `hide(duration)`. */
    method HideWith(duration: int, env: Env)
      modifies this
      ensures Model() == HideStep(old(Model()), duration, env) && attached == old(attached) && listeners == old(listeners)
    {
      if state.isDestroyed || !state.isEnabled {
        return;
      }
      if env.hideVetoed {
        return;
      }
      document := document.(click := false);
      state := state.(isVisible := false, isShown := false);
      OnTransitionEnd(duration, TransitionedOut);
    }

    /* --------------------------------- handlers --------------------------------- */

    /** `onTrigger(event)`. */
    method HandleTrigger(ev: Event, env: Env)
      modifies this
      ensures Model() == OnTriggerStep(old(Model()), ev, env) && attached == old(attached) && listeners == old(listeners)
    {
      if !state.isEnabled || IsEventListenerStopped(ev.eventType, props.touchHold, env) {
        return;
      }
      if !state.isVisible {
        memory := memory.(lastTriggerEventType := ev.eventType);
        if ev.isMouseEvent {
          memory := memory.(hasMouseMoveEvent := true);
        }
      }
      if ev.eventType == "click" && props.hideOnClick != HideOnClickFalse && state.isVisible {
        ScheduleHide();
      } else {
        ScheduleShow(Some(ev), env);
      }
    }

    /** `onMouseLeave(event)`. */
    method HandleMouseLeave(ev: Event, env: Env)
      modifies this
      ensures Model() == OnMouseLeaveStep(old(Model()), ev, env) && attached == old(attached) && listeners == old(listeners)
    {
      if IsEventListenerStopped(ev.eventType, props.touchHold, env) {
        return;
      }
      if props.interactive {
        document := document.(bodyMouseLeave := true, mouseMove := true);
        return;
      }
      ScheduleHide();
    }

    /** `onBlur(event)`. */
    method HandleBlur(ev: Event)
      modifies this
      ensures Model() == OnBlurStep(old(Model()), ev) && attached == old(attached) && listeners == old(listeners)
    {
      if !ev.onReference {
        return;
      }
      if props.interactive && ev.relatedInPopper {
        return;
      }
      ScheduleHide();
    }

    /** `onMouseMove(event)`. */
    method HandleMouseMove(ev: Event, env: Env)
      modifies this
      ensures Model() == OnMouseMoveStep(old(Model()), ev, env) && attached == old(attached) && listeners == old(listeners)
    {
      if ev.onReference || ev.inPopper {
        return;
      }
      if env.mouseMoveVetoed {
        return;
      }
      if ev.outsideBorder {
        CleanupInteractiveMouseListeners();
        ScheduleHide();
      }
    }

    /** `onDocumentClick(event)`. */
    method HandleDocumentClick(ev: Event, env: Env)
      modifies this
      ensures Model() == DocumentClickStep(old(Model()), ev, env) && attached == old(attached) && listeners == old(listeners)
    {
      if props.interactive && ev.inPopper {
        return;
      }
      if ev.onReference {
        if env.usingTouch {
          return;
        }
        if state.isVisible && Strings.Contains(props.trigger, "click") {
          return;
        }
      }
      if props.hideOnClick == HideOnClickTrue {
        timers := Timers(false, false, false);
        HideWith(HideDuration(props), env);
      }
    }

    /* ------------------------------ public methods ------------------------------ */

    /** `show(duration?)`, the duration defaulting to `getValue(duration, 0, 275)`. */
    method Show(duration: Option<int>, env: Env)
      modifies this
      ensures Model() == Apply(old(Model()), Op.Show(duration), env) && attached == old(attached) && listeners == old(listeners)
      ensures old(Valid()) ==> Valid()
    {
      ghost var m := Model();
      ShowWith(if duration.Some? then duration.value else ShowDuration(props), env);
      KeepsInv(m, Op.Show(duration), env, Model());
    }

    /** `hide(duration?)`, the duration defaulting to `getValue(duration, 1, 275)`. */
    method Hide(duration: Option<int>, env: Env)
      modifies this
      ensures Model() == Apply(old(Model()), Op.Hide(duration), env) && attached == old(attached) && listeners == old(listeners)
      ensures old(Valid()) ==> Valid()
    {
      ghost var m := Model();
      HideWith(if duration.Some? then duration.value else HideDuration(props), env);
      KeepsInv(m, Op.Hide(duration), env, Model());
    }

    /** `enable()`. */
    method Enable()
      modifies this
      ensures Model() == EnableStep(old(Model())) && attached == old(attached) && listeners == old(listeners)
      ensures old(Valid()) ==> Valid()
    {
      ghost var m := Model();
      state := state.(isEnabled := true);
      KeepsInv(m, Op.Enable, NoEnv, Model());
    }

    /** `disable()`. */
    method Disable()
      modifies this
      ensures Model() == DisableStep(old(Model())) && attached == old(attached) && listeners == old(listeners)
      ensures old(Valid()) ==> Valid()
    {
      ghost var m := Model();
      state := state.(isEnabled := false);
      KeepsInv(m, Op.Disable, NoEnv, Model());
    }

    /** `clearDelayTimeouts()`. */
    method ClearDelayTimeouts()
      modifies this
      ensures Model() == Lifecycle.ClearDelayTimeouts(old(Model())) && attached == old(attached) && listeners == old(listeners)
      ensures old(Valid()) ==> Valid()
    {
      ghost var m := Model();
      timers := Timers(false, false, false);
      KeepsInv(m, Op.ClearTimeouts, NoEnv, Model());
    }

    /** `set(options)`. */
    method Set(o: Options)
      modifies this
      ensures Model() == SetStep(old(Model()), o)
      ensures attached == if old(state.isDestroyed) then old(attached)
                          else old(attached) - ListenerSet(old(listeners)) + ListenerSet(listeners)
      ensures old(Valid()) ==> Valid()
    {
      ghost var m := Model();
      if !state.isDestroyed {
        SetLive(o);
      }
      KeepsInv(m, Op.Set(o), NoEnv, Model());
    }

    /** `set(options)` on an instance that is not destroyed. */
    method SetLive(o: Options)
      requires !state.isDestroyed
      modifies this
      ensures Model() == SetStep(old(Model()), o)
      ensures attached == old(attached) - ListenerSet(old(listeners)) + ListenerSet(listeners)
    {
      ghost var m := Model();
      var prevProps := props;
      ReplaceProps(o);
      CleanupInteractiveMouseListeners();
      UpdatePopperInstance(o, prevProps);
      assert Model() == SetPopper(CleanupInteractive(Rewire(m, Merge(m.props, o))), o, m.props);
    }

    /** The part of `set` that swaps the props and rewires the triggers. */
    method ReplaceProps(o: Options)
      modifies `props, `listeners, `attached
      ensures Model() == Rewire(old(Model()), Merge(old(props), o))
      ensures attached == old(attached) - ListenerSet(old(listeners)) + ListenerSet(listeners)
    {
      RemoveTriggersFromReference();
      props := Merge(props, o);
      AddTriggersToReference();
    }

    /** The Popper part of `set`: recreate the instance when a dependency changed, else update it. */
    method UpdatePopperInstance(o: Options, prevProps: Props)
      modifies this
      ensures Model() == SetPopper(old(Model()), o, prevProps) && attached == old(attached) && listeners == old(listeners)
    {
      if popper.handle.Some? && NeedsNewPopper(o, prevProps) {
        popper := popper.(handle := DestroyPopper(popper.handle));
        CreatePopperInstance();
        if state.isVisible {
          EnableEventListeners();
        }
        if props.followCursor != FollowCursorOff && memory.hasMouseMoveEvent {
          PositionVirtualReferenceNearCursor();
        }
      }
    }

    /** `setContent(content)`. */
    method SetContent(content: string)
      modifies this
      ensures Model() == SetContentStep(old(Model()), content)
      ensures attached == if old(state.isDestroyed) then old(attached)
                          else old(attached) - ListenerSet(old(listeners)) + ListenerSet(listeners)
      ensures old(Valid()) ==> Valid()
    {
      Set(ContentOptions(content));
    }

    /** `destroy()`; clearing `reference._tippy` is `Registry.DestroyTippy`. */
    method Destroy(env: Env)
      modifies this
      ensures Model() == DestroyStep(old(Model()), env)
      ensures attached == if old(state.isDestroyed) then old(attached) else old(attached) - ListenerSet(old(listeners))
      ensures old(Valid()) ==> Valid()
    {
      ghost var m := Model();
      if !state.isDestroyed {
        if state.isMounted {
          HideWith(0, env);
        }
        RemoveTriggersFromReference();
        popper := popper.(handle := DestroyPopper(popper.handle));
        state := state.(isDestroyed := true);
      }
      KeepsInv(m, Op.Destroy, env, Model());
    }

    /* ---------------------------------- events ---------------------------------- */

    /** An event of type `l.eventType` on the event-listeners target, reaching `l` if it is attached. */
    method Deliver(l: Listener, ev: Event, env: Env)
      modifies this
      ensures Model() == Apply(old(Model()), Op.Deliver(l, ev), env) && attached == old(attached) && listeners == old(listeners)
      ensures old(Valid()) ==> Valid()
    {
      ghost var m := Model();
      if l in listeners {
        var e := ev.(eventType := l.eventType);
        match l.handler
        case OnTrigger => HandleTrigger(e, env);
        case OnMouseLeave => HandleMouseLeave(e, env);
        case OnBlur => HandleBlur(e);
        case OnDelegateShow =>
          if e.matchesTarget {
            ScheduleShow(Some(e), env);
          }
        case OnDelegateHide =>
          if e.matchesTarget {
            ScheduleHide();
          }
      }
      KeepsInv(m, Op.Deliver(l, ev), env, Model());
    }

    /** A click anywhere in the document, seen by `onDocumentClick` while it is registered. */
    method DocumentClick(ev: Event, env: Env)
      modifies this
      ensures Model() == Apply(old(Model()), Op.DocumentClick(ev), env) && attached == old(attached) && listeners == old(listeners)
      ensures old(Valid()) ==> Valid()
    {
      ghost var m := Model();
      if document.click {
        HandleDocumentClick(ev, env);
      }
      KeepsInv(m, Op.DocumentClick(ev), env, Model());
    }

    /** A `mousemove` on the document, seen by the follow-cursor listener while it is registered. */
    method CursorMove(ev: Event)
      modifies this
      ensures Model() == Apply(old(Model()), Op.CursorMove(ev), NoEnv) && attached == old(attached) && listeners == old(listeners)
      ensures old(Valid()) ==> Valid()
    {
      ghost var m := Model();
      if document.followCursor {
        PositionVirtualReferenceNearCursor();
      }
      KeepsInv(m, Op.CursorMove(ev), NoEnv, Model());
    }

    /** A `mousemove` on the document, seen by the interactive `onMouseMove` while it is registered. */
    method InteractiveMouseMove(ev: Event, env: Env)
      modifies this
      ensures Model() == Apply(old(Model()), Op.InteractiveMouseMove(ev), env) && attached == old(attached) && listeners == old(listeners)
      ensures old(Valid()) ==> Valid()
    {
      ghost var m := Model();
      if document.mouseMove {
        HandleMouseMove(ev, env);
      }
      KeepsInv(m, Op.InteractiveMouseMove(ev), env, Model());
    }

    /** The cursor leaving `document.body` while the interactive listener is registered. */
    method BodyMouseLeave()
      modifies this
      ensures Model() == Apply(old(Model()), Op.BodyMouseLeave, NoEnv) && attached == old(attached) && listeners == old(listeners)
      ensures old(Valid()) ==> Valid()
    {
      ghost var m := Model();
      if document.bodyMouseLeave {
        ScheduleHide();
      }
      KeepsInv(m, Op.BodyMouseLeave, NoEnv, Model());
    }

    /** The popper's `mouseenter` listener. */
    method PopperMouseEnter()
      modifies this
      ensures Model() == PopperMouseEnterStep(old(Model())) && attached == old(attached) && listeners == old(listeners)
      ensures old(Valid()) ==> Valid()
    {
      ghost var m := Model();
      if props.interactive && state.isVisible && memory.lastTriggerEventType == "mouseenter" {
        timers := Timers(false, false, false);
      }
      KeepsInv(m, Op.PopperMouseEnter, NoEnv, Model());
    }

    /** The popper's `mouseleave` listener. */
    method PopperMouseLeave()
      modifies this
      ensures Model() == PopperMouseLeaveStep(old(Model())) && attached == old(attached) && listeners == old(listeners)
      ensures old(Valid()) ==> Valid()
    {
      ghost var m := Model();
      if props.interactive && memory.lastTriggerEventType == "mouseenter" {
        document := document.(mouseMove := true);
      }
      KeepsInv(m, Op.PopperMouseLeave, NoEnv, Model());
    }

    /** The show delay elapsing: `show()`. */
    method ShowTimerFires(env: Env)
      modifies this
      ensures Model() == FireShowTimer(old(Model()), env) && attached == old(attached) && listeners == old(listeners)
      ensures old(Valid()) ==> Valid()
    {
      ghost var m := Model();
      FireShow(env);
      KeepsInv(m, Op.ShowTimerFires, env, Model());
    }

    /** The body of the show timeout's callback. */
    method FireShow(env: Env)
      modifies this
      ensures Model() == FireShowTimer(old(Model()), env) && attached == old(attached) && listeners == old(listeners)
    {
      ghost var m := Model();
      if timers.showTimer {
        timers := timers.(showTimer := false);
        assert Model() == m.(timers := m.timers.(showTimer := false));
        ShowWith(ShowDuration(props), env);
      }
    }

    /** The hide delay elapsing: `hide()` if still visible. */
    method HideTimerFires(env: Env)
      modifies this
      ensures Model() == FireHideTimer(old(Model()), env) && attached == old(attached) && listeners == old(listeners)
      ensures old(Valid()) ==> Valid()
    {
      ghost var m := Model();
      if timers.hideTimer {
        timers := timers.(hideTimer := false);
        assert Model() == m.(timers := m.timers.(hideTimer := false));
        if state.isVisible {
          HideWith(HideDuration(props), env);
        }
      }
      assert Model() == FireHideTimer(m, env);
      KeepsInv(m, Op.HideTimerFires, env, Model());
    }

    /** The animation frame of a zero-delay hide: `hide()`. */
    method FrameFires(env: Env)
      modifies this
      ensures Model() == FireFrame(old(Model()), env) && attached == old(attached) && listeners == old(listeners)
      ensures old(Valid()) ==> Valid()
    {
      ghost var m := Model();
      if timers.frame {
        timers := timers.(frame := false);
        HideWith(HideDuration(props), env);
      }
      KeepsInv(m, Op.FrameFires, env, Model());
    }

    /** Popper's `onCreate` or `onUpdate`: `applyMutations`, then `runMountCallback`. */
    method PopperUpdates()
      modifies this
      ensures Model() == FirePopperUpdate(old(Model())) && attached == old(attached) && listeners == old(listeners)
      ensures old(Valid()) ==> Valid()
    {
      ghost var m := Model();
      if popper.handle.Some? && !popper.handle.value.destroyed {
        popper := popper.(hasPadding := true);
        RunMountCallback();
      }
      KeepsInv(m, Op.PopperUpdates, NoEnv, Model());
    }

    /** A `transitionend` event on the tooltip (`onTooltip`) or on one of its children. */
    method TransitionEnds(onTooltip: bool)
      modifies this
      ensures Model() == FireTransitionEnd(old(Model()), onTooltip) && attached == old(attached) && listeners == old(listeners)
      ensures old(Valid()) ==> Valid()
    {
      ghost var m := Model();
      match callbacks.transitionListener
      case None =>
      case Some(k) =>
        if onTooltip {
          callbacks := callbacks.(transitionListener := None);
          Complete(k);
        }
      KeepsInv(m, Op.TransitionEnds(onTooltip), NoEnv, Model());
    }
  }

  lemma WireTokensStep(ts: seq<string>, i: nat, p: Props, isIE: bool)
    requires i < |ts|
    ensures WireTokens(ts[..i + 1], p, isIE) == WireTokens(ts[..i], p, isIE) + TokenWiring(ts[i], p, isIE)
  {
    assert ts[..i + 1] == ts[..i] + [ts[i]];
    WireTokensAppend(ts[..i], ts[i], p, isIE);
  }

  lemma AppendAssoc(a: seq<Listener>, b: seq<Listener>, c: seq<Listener>)
    ensures a + b + c == a + (b + c)
  {
  }

  /** A step of a valid instance leads to a valid instance. */
  lemma KeepsInv(m: Core, op: Op, env: Env, r: Core)
    requires r == Apply(m, op, env)
    ensures Inv(m) ==> Inv(r)
  {
    if Inv(m) {
      ApplyInv(m, op, env);
    }
  }

  /** Surroundings for the steps that do not consult them. */
  const NoEnv: Env := Env(false, false, false, false, false, false)

  /** The references that carry an instance (`reference._tippy`) and the global `idCounter`. */
  class Registry {
    var owners: map<nat, Tippy>
    var idCounter: nat

    constructor ()
      ensures owners == map[] && idCounter == 1
    {
      owners := map[];
      idCounter := 1;
    }

    /**
     * `createTippy(reference, props)`: `null` when the props forbid a second instance on a
     * reference that has one, and then nothing changes; otherwise a fresh instance with the
     * next id, recorded on the reference.
     */
    method CreateTippy(reference: nat, p: Props, isIE: bool, env: Env) returns (t: Tippy?)
      modifies this
      ensures t == null <==> CreateRefused(p, reference in old(owners))
      ensures t == null ==> owners == old(owners) && idCounter == old(idCounter)
      ensures t != null ==>
        && fresh(t) && t.Valid() && t.Model() == CreateStep(p, isIE, env)
        && t.id == old(idCounter) && t.reference == reference
        && owners == old(owners)[reference := t] && idCounter == old(idCounter) + 1
    {
      if !p.multiple && reference in owners {
        return null;
      }
      var id := idCounter;
      idCounter := idCounter + 1;
      t := new Tippy(id, reference, p, isIE, env);
      owners := owners[reference := t];
    }

    /** `destroy()` on an instance, which also clears `reference._tippy` the first time. */
    method DestroyTippy(t: Tippy, env: Env)
      modifies this, t
      ensures t.Model() == DestroyStep(old(t.Model()), env)
      ensures old(t.Valid()) ==> t.Valid()
      ensures owners == if old(t.state.isDestroyed) then old(owners) else old(owners) - {t.reference}
      ensures idCounter == old(idCounter)
    {
      var wasDestroyed := t.state.isDestroyed;
      t.Destroy(env);
      if !wasDestroyed {
        owners := owners - {t.reference};
      }
    }
  }
}
