/**
 * What the default props (src/props.ts) make a fresh instance do: no Popper instance at
 * construction, four listeners, a second instance refused, a hover that shows at once,
 * and touch events kept away from the trigger handlers.
 */
module Defaults {
  import opened Wrappers
  import opened Strings
  import opened Props
  import opened Wiring
  import opened Lifecycle
  import opened Invariant
  import opened Behaviour

  /** The listeners of the default `trigger: 'mouseenter focus'`. */
  function DefaultListeners(isIE: bool): seq<Listener>
  {
    [Listener("mouseenter", OnTrigger, false), Listener("mouseleave", OnMouseLeave, false),
     Listener("focus", OnTrigger, false), Listener(BlurEventType(isIE), OnBlur, false)]
  }

  /** Without `showOnInit` and with `lazy`, construction only records the props and wires the triggers. */
  lemma CreateQuiet(p: Props, isIE: bool, env: Env)
    requires !p.showOnInit && p.lazy
    ensures CreateStep(p, isIE, env) == InitialCore(p, isIE).(listeners := WiringOf(p, isIE))
  {
  }

  /** A default instance: enabled and hidden, no Popper instance (`lazy`), the four default listeners. */
  lemma DefaultCreate(isIE: bool, env: Env)
    ensures var c := CreateStep(DefaultProps, isIE, env);
      && c.state == TippyState(true, false, false, false, false)
      && c.popper.handle.None? && c.popper.count == 0
      && c.timers == Timers(false, false, false)
      && c.listeners == DefaultListeners(isIE)
  {
    DefaultWiring(isIE);
    CreateQuiet(DefaultProps, isIE, env);
  }

  /** With `multiple: false` a reference that already has an instance refuses a second one. */
  lemma DefaultRefusesSecond()
    ensures CreateRefused(DefaultProps, true)
    ensures forall p: Props :: !CreateRefused(p, false)
    ensures forall p: Props, b: bool :: p.multiple ==> !CreateRefused(p, b)
  {
  }

  /** The default trigger events are not touch events. */
  lemma DefaultEventsNotTouch()
    ensures !Contains("mouseenter", "touch") && !Contains("focus", "touch")
  {
    if Contains("mouseenter", "touch") {
      ContainsFirstChar("mouseenter", "touch");
    }
    if Contains("focus", "touch") {
      ContainsFirstChar("focus", "touch");
    }
  }

  /** `touchstart` and `touchend` are touch events. */
  lemma TouchHoldEventsAreTouch()
    ensures Contains("touchstart", "touch") && Contains("touchend", "touch")
  {
    assert "touchstart"[..5] == "touch";
    assert "touchend"[..5] == "touch";
  }

  /** Under the default `touchHold: false`, touch input stops the touch events and nothing else. */
  lemma DefaultTouchFiltering(env: Env)
    requires env.usingTouch
    ensures IsEventListenerStopped("touchstart", DefaultProps.touchHold, env)
    ensures !IsEventListenerStopped("mouseenter", DefaultProps.touchHold, env)
    ensures !IsEventListenerStopped("focus", DefaultProps.touchHold, env)
  {
    DefaultEventsNotTouch();
    TouchHoldEventsAreTouch();
  }

  /** On a hidden, enabled instance with no delay and no target, an unfiltered trigger shows at once. */
  lemma TriggerShowsAtOnce(c: Core, l: Listener, ev: Event, env: Env)
    requires Safe(c) && !c.state.isVisible && c.state.isEnabled && !c.state.isDestroyed
    requires c.props.target == "" && !c.props.wait && ShowDelay(c.props) == 0
    requires l in c.listeners && l.handler == OnTrigger
    requires !IsEventListenerStopped(l.eventType, c.props.touchHold, env)
    requires !(env.usingTouch && !c.props.touch) && !env.targetDisabled && !env.showVetoed
    ensures var r := Apply(c, Deliver(l, ev), env);
      && r.state.isVisible && r.state.isMounted && r.popper.handle.Some?
      && r.timers == Timers(false, false, false)
  {
    var e := ev.(eventType := l.eventType);
    var c1 := RecordTrigger(c, e);
    assert Apply(c, Deliver(l, ev), env) == ScheduleShowStep(c1, Some(e), env);
    ScheduleShowZeroDelay(c1, Some(e), env);
    ScheduleShowSafe(c1, Some(e), env);
  }

  /**
   * Hovering a fresh default instance shows it at once: the zero delay arms no timer, the
   * Popper instance is created on demand, and touch input does not block it (`touch: true`).
   */
  lemma DefaultHoverShows(isIE: bool, env0: Env, ev: Event, env: Env)
    requires !env.targetDisabled && !env.showVetoed
    ensures var c := CreateStep(DefaultProps, isIE, env0);
      var r := Apply(c, Deliver(Listener("mouseenter", OnTrigger, false), ev), env);
      && r.state.isVisible && r.state.isMounted && r.popper.handle.Some?
      && r.timers == Timers(false, false, false)
  {
    var c := CreateStep(DefaultProps, isIE, env0);
    DefaultCreate(isIE, env0);
    CreateInv(DefaultProps, isIE, env0);
    DefaultEventsNotTouch();
    DefaultTimings(0);
    TriggerShowsAtOnce(c, Listener("mouseenter", OnTrigger, false), ev, env);
  }
}
