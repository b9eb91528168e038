/**
 * The lifecycle engine of one instance (src/createTippy.ts) as pure steps over the
 * closure's state. The DOM, Popper.js and the browser's timers are abstract: a pending
 * timer or animation frame is a flag, the Popper instance a handle, a document listener
 * a flag, and the answer of `onShow`/`onHide` and the other foreign hooks an input.
 */
module Lifecycle {
  import opened Wrappers
  import opened Strings
  import opened Props
  import opened Wiring

  /** `instance.state`. */
  datatype TippyState = TippyState(
    isEnabled: bool,
    isVisible: bool,
    isDestroyed: bool,
    isMounted: bool,
    isShown: bool)

  /** `showTimeoutId`, `hideTimeoutId` and `animationFrameId`, each still pending or not. */
  datatype Timers = Timers(showTimer: bool, hideTimer: bool, frame: bool)

  /** The callback one `transitionend` listener runs: the tail of `show` or of `hide`. */
  datatype Completion = TransitionedIn | TransitionedOut

  /**
   * `isScheduledToShow`, `hasMountCallbackRun`, `currentMountCallback` (the duration it
   * captured) and the `transitionend` listener currently registered on the tooltip.
   */
  datatype Callbacks = Callbacks(
    isScheduledToShow: bool,
    hasMountCallbackRun: bool,
    mountCallback: Option<int>,
    transitionListener: Option<Completion>)

  /**
   * One Popper.js instance: which creation it is (`serial`), whether its scroll/resize
   * listeners are enabled and whether `destroy()` was called on it.
   */
  datatype PopperHandle = PopperHandle(serial: nat, listenersEnabled: bool, destroyed: bool)

  /**
   * `instance.popperInstance`, the number of instances created so far, and whether
   * `currentComputedPadding` has been computed.
   */
  datatype PopperSlot = PopperSlot(handle: Option<PopperHandle>, count: nat, hasPadding: bool)

  /** `lastTriggerEventType` (empty before the first trigger) and whether `lastMouseMoveEvent` is set. */
  datatype EventMemory = EventMemory(lastTriggerEventType: string, hasMouseMoveEvent: bool)

  /**
   * The listeners on `document` and `document.body`: `onDocumentClick`, the follow-cursor
   * `mousemove`, the interactive `mouseleave` on the body and the interactive `mousemove`.
   */
  datatype DocumentListeners = DocumentListeners(
    click: bool,
    followCursor: bool,
    bodyMouseLeave: bool,
    mouseMove: bool)

  /**
   * What the surroundings answer while one step runs: the global `isUsingTouch` flag,
   * `'ontouchstart' in window`, a `disabled` attribute on the listeners target, and whether
   * the `onShow`, `onHide` and `onMouseMove` hooks return `false`.
   */
  datatype Env = Env(
    usingTouch: bool,
    supportsTouch: bool,
    targetDisabled: bool,
    showVetoed: bool,
    hideVetoed: bool,
    mouseMoveVetoed: bool)

  /**
   * A DOM event as the handlers inspect it: its type, whether it is a `MouseEvent`, whether
   * its target is (inside) the listeners target, whether it is inside the popper, whether a
   * focus event's `relatedTarget` is inside the popper, whether `closest(target, props.target)`
   * finds an element and whether that element already carries an instance, and whether the
   * cursor is outside the interactive border.
   */
  datatype Event = Event(
    eventType: string,
    isMouseEvent: bool,
    onReference: bool,
    inPopper: bool,
    relatedInPopper: bool,
    matchesTarget: bool,
    matchHasInstance: bool,
    outsideBorder: bool)

  /**
   * The closure's state: the instance's `state` and `props`, the recorded `listeners`, the
   * private variables grouped as above, and the number of delegate child instances requested.
   */
  datatype Core = Core(
    isIE: bool,
    state: TippyState,
    props: Props,
    listeners: seq<Listener>,
    timers: Timers,
    callbacks: Callbacks,
    popper: PopperSlot,
    memory: EventMemory,
    document: DocumentListeners,
    spawnedChildren: nat)

  /* ----------------------------- decisions ----------------------------- */

  /** `isEventListenerStopped`: touch events for non-touch handlers and the reverse. */
  predicate IsEventListenerStopped(eventType: string, touchHold: bool, env: Env)
  {
    var isTouchEvent := Contains(eventType, "touch");
    (env.supportsTouch && env.usingTouch && touchHold && !isTouchEvent)
    || (env.usingTouch && !touchHold && isTouchEvent)
  }

  /** The `onTrigger` toggle: a click on a visible tooltip hides unless `hideOnClick` is `false`. */
  predicate TriggerHides(c: Core, ev: Event)
  {
    ev.eventType == "click" && c.props.hideOnClick != HideOnClickFalse && c.state.isVisible
  }

  /** Whether `onDocumentClick` goes on to clear the timeouts and call `hide()`. */
  predicate DocumentClickHides(c: Core, ev: Event, env: Env)
  {
    && !(c.props.interactive && ev.inPopper)
    && !(ev.onReference && (env.usingTouch || (c.state.isVisible && Contains(c.props.trigger, "click"))))
    && c.props.hideOnClick == HideOnClickTrue
  }

  /** `createDelegateChildTippy`: a child is created for a matching target without an instance. */
  predicate SpawnsDelegateChild(ev: Option<Event>)
  {
    ev.Some? && ev.value.matchesTarget && !ev.value.matchHasInstance
  }

  /** `getCorrectedPadding`: the computed padding of one side, corrected for the arrow. */
  function GetCorrectedPadding(p: Props, computed: int): (r: int)
    ensures r >= computed
    ensures r == computed <==> !p.arrow
    ensures p.arrow ==> r - computed == (if p.arrowType == "round" then 18 else 16)
  {
    if p.arrow then computed + (if p.arrowType == "round" then 18 else 16) else computed
  }

  /** `hasFollowCursorBehavior`. */
  predicate HasFollowCursor(c: Core, env: Env)
  {
    c.props.followCursor != FollowCursorOff && !env.usingTouch && c.memory.lastTriggerEventType != "focus"
  }

  /** The default `duration` argument of `show()` and of `hide()`. */
  function ShowDuration(p: Props): int
  {
    GetValue(p.duration, 0, DefaultDurationFallback)
  }

  function HideDuration(p: Props): int
  {
    GetValue(p.duration, 1, DefaultDurationFallback)
  }

  /* ------------------------------- steps ------------------------------- */

  /** The state right after the closure's declarations, before any initial mutation. */
  function InitialCore(p: Props, isIE: bool): Core
  {
    Core(isIE, TippyState(true, false, false, false, false), p, [], Timers(false, false, false),
         Callbacks(false, false, None, None), PopperSlot(None, 0, false), EventMemory("", false),
         DocumentListeners(false, false, false, false), 0)
  }

  /** `clearDelayTimeouts`. */
  function ClearDelayTimeouts(c: Core): Core
  {
    c.(timers := Timers(false, false, false))
  }

  /** `createPopperInstance`: a new handle, created with `eventsEnabled: false`. */
  function CreatePopper(c: Core): Core
  {
    c.(popper := c.popper.(handle := Some(PopperHandle(c.popper.count + 1, false, false)),
                           count := c.popper.count + 1))
  }

  /** `popperInstance.enableEventListeners()`, when asked for and a handle exists. */
  function EnableListenersIf(c: Core, b: bool): Core
  {
    if b && c.popper.handle.Some? then
      c.(popper := c.popper.(handle := Some(c.popper.handle.value.(listenersEnabled := true))))
    else c
  }

  function DisableListeners(h: Option<PopperHandle>): Option<PopperHandle>
  {
    if h.Some? then Some(h.value.(listenersEnabled := false)) else None
  }

  function DestroyPopper(h: Option<PopperHandle>): Option<PopperHandle>
  {
    if h.Some? then Some(h.value.(destroyed := true)) else None
  }

  /**
   * `positionVirtualReferenceNearCursor` without its geometry: records the mouse event,
   * stops before the padding exists, and drops the follow-cursor listener for
   * `followCursor: 'initial'` once visible.
   */
  function PositionNearCursor(c: Core): Core
  {
    CursorEffect(c.(memory := c.memory.(hasMouseMoveEvent := true)))
  }

  function CursorEffect(c: Core): Core
  {
    if !c.popper.hasPadding then c
    else if c.props.followCursor == Initial && c.state.isVisible then
      c.(document := c.document.(followCursor := false))
    else c
  }

  /** `mount`: ensures a Popper instance, then appends the popper unless it is already there. */
  function MountStep(c: Core, env: Env): Core
  {
    MountAppend(MountPosition(MountPopper(c.(callbacks := c.callbacks.(hasMountCallbackRun := false)), env), env))
  }

  /** The Popper instance part of `mount`: create one, or update the existing one. */
  function MountPopper(c: Core, env: Env): Core
  {
    var follow := HasFollowCursor(c, env);
    var shouldEnable := !follow && !(c.props.followCursor == Initial && env.usingTouch);
    if c.popper.handle.None? then EnableListenersIf(CreatePopper(c), shouldEnable)
    else if !follow then EnableListenersIf(c, shouldEnable)
    else c
  }

  /** The cursor part of `mount`: position at the last mouse event when following the cursor. */
  function MountPosition(c: Core, env: Env): Core
  {
    TouchInitialPosition(
      if HasFollowCursor(c, env) && c.memory.hasMouseMoveEvent then PositionNearCursor(c) else c, env)
  }

  /** `followCursor: 'initial'` is allowed on touch devices. */
  function TouchInitialPosition(c: Core, env: Env): Core
  {
    if env.usingTouch && c.memory.hasMouseMoveEvent && c.props.followCursor == Initial then PositionNearCursor(c)
    else c
  }

  /** `if (!currentParentNode.contains(popper))`: append, `onMount`, `isMounted = true`. */
  function MountAppend(c: Core): Core
  {
    if c.state.isMounted then c else c.(state := c.state.(isMounted := true))
  }

  /** `show(duration)`. */
  function ShowStep(c: Core, duration: int, env: Env): Core
  {
    if c.state.isDestroyed || !c.state.isEnabled || (env.usingTouch && !c.props.touch) then c
    else if env.targetDisabled then c
    else if env.showVetoed then c
    else MountStep(ShowBegin(c, duration), env)
  }

  /** What `show` records before mounting: the document click listener, visibility, the mount callback. */
  function ShowBegin(c: Core, duration: int): Core
  {
    c.(document := c.document.(click := true), state := c.state.(isVisible := true),
       callbacks := c.callbacks.(mountCallback := Some(duration)))
  }

  /** The transition-out callback of `hide`: unmounts the popper. */
  function Unmount(c: Core): Core
  {
    c.(document := if c.callbacks.isScheduledToShow then c.document else c.document.(followCursor := false),
       popper := c.popper.(handle := DisableListeners(c.popper.handle)),
       state := c.state.(isMounted := false))
  }

  /**
   * Runs a completion: the transition-in one sets `isShown`; the transition-out wrapper
   * calls its callback only while not visible and still mounted.
   */
  function RunCompletion(c: Core, k: Completion): Core
  {
    match k
    case TransitionedIn => c.(state := c.state.(isShown := true))
    case TransitionedOut => if !c.state.isVisible && c.state.isMounted then Unmount(c) else c
  }

  /**
   * `onTransitionEnd(duration, callback)`: a zero duration runs the callback at once (and
   * leaves a previously registered listener in place); otherwise the new listener replaces
   * the previous one.
   */
  function TransitionEndStep(c: Core, duration: int, k: Completion): Core
  {
    if duration == 0 then RunCompletion(c, k)
    else c.(callbacks := c.callbacks.(transitionListener := Some(k)))
  }

  /** The `transitionend` event: the listener reacts to the tooltip only, removing itself first. */
  function FireTransitionEnd(c: Core, onTooltip: bool): Core
  {
    match c.callbacks.transitionListener
    case None => c
    case Some(k) =>
      if onTooltip then RunCompletion(c.(callbacks := c.callbacks.(transitionListener := None)), k) else c
  }

  /** `hide(duration)`. */
  function HideStep(c: Core, duration: int, env: Env): Core
  {
    if c.state.isDestroyed || !c.state.isEnabled then c
    else if env.hideVetoed then c
    else TransitionEndStep(HideBegin(c), duration, TransitionedOut)
  }

  /** What `hide` records before its transition: no document click listener, neither visible nor shown. */
  function HideBegin(c: Core): Core
  {
    c.(document := c.document.(click := false), state := c.state.(isVisible := false, isShown := false))
  }

  /** `runMountCallback`: runs the callback `show` installed, once per mount. */
  function RunMountCallback(c: Core): Core
  {
    if !c.callbacks.hasMountCallbackRun && c.callbacks.mountCallback.Some? then
      MountCallback(c.(callbacks := c.callbacks.(hasMountCallbackRun := true)))
    else c
  }

  /** The mount callback of `show`: returns at once when no longer visible, else transitions in. */
  function MountCallback(c: Core): Core
  {
    match c.callbacks.mountCallback
    case None => c
    case Some(duration) => if !c.state.isVisible then c else TransitionEndStep(c, duration, TransitionedIn)
  }

  /** Popper's `onCreate`/`onUpdate`: `applyMutations` computes the padding, then the mount callback runs. */
  function FirePopperUpdate(c: Core): Core
  {
    if c.popper.handle.Some? && !c.popper.handle.value.destroyed then
      RunMountCallback(c.(popper := c.popper.(hasPadding := true)))
    else c
  }

  /** `scheduleShow(event?)`. */
  function ScheduleShowStep(c: Core, ev: Option<Event>, env: Env): Core
  {
    ScheduleShowCleared(ClearDelayTimeouts(c), ev, env)
  }

  /** `scheduleShow` after `clearDelayTimeouts()`. */
  function ScheduleShowCleared(c: Core, ev: Option<Event>, env: Env): Core
  {
    if c.state.isVisible then c
    else if c.props.target != "" then
      (if SpawnsDelegateChild(ev) then c.(spawnedChildren := c.spawnedChildren + 1) else c)
    else ScheduleShowArmed(c.(callbacks := c.callbacks.(isScheduledToShow := true)), env)
  }

  /** `scheduleShow` once `isScheduledToShow` is set: the `wait` gate, then the delay. */
  function ScheduleShowArmed(c: Core, env: Env): Core
  {
    if c.props.wait then c
    else StartShowDelay(AddDocumentClick(FollowCursorPrepare(c, env)), env)
  }

  /** Follow-cursor tooltips listen to `mousemove` from the trigger on. */
  function FollowCursorPrepare(c: Core, env: Env): Core
  {
    if HasFollowCursor(c, env) && !c.state.isMounted then AddFollowCursor(EnsurePopper(c))
    else c
  }

  function AddFollowCursor(c: Core): Core
  {
    c.(document := c.document.(followCursor := true))
  }

  /** `addDocumentClickListener`. */
  function AddDocumentClick(c: Core): Core
  {
    c.(document := c.document.(click := true))
  }

  function EnsurePopper(c: Core): Core
  {
    if c.popper.handle.None? then CreatePopper(c) else c
  }

  /** A nonzero show delay starts the show timer; a zero one shows at once. */
  function StartShowDelay(c: Core, env: Env): Core
  {
    if GetValue(c.props.delay, 0, DefaultDelay) != 0 then c.(timers := c.timers.(showTimer := true))
    else ShowStep(c, ShowDuration(c.props), env)
  }

  /** `scheduleHide()`. */
  function ScheduleHideStep(c: Core): Core
  {
    ScheduleHideCleared(ClearDelayTimeouts(c))
  }

  /** `scheduleHide` after `clearDelayTimeouts()`. */
  function ScheduleHideCleared(c: Core): Core
  {
    if !c.state.isVisible then c.(document := c.document.(followCursor := false))
    else StartHideDelay(c.(callbacks := c.callbacks.(isScheduledToShow := false)))
  }

  /** A nonzero hide delay starts the hide timer; a zero one requests an animation frame. */
  function StartHideDelay(c: Core): Core
  {
    if GetValue(c.props.delay, 1, DefaultDelay) != 0 then c.(timers := c.timers.(hideTimer := true))
    else c.(timers := c.timers.(frame := true))
  }

  /** The show timer firing: `show()`. */
  function FireShowTimer(c: Core, env: Env): Core
  {
    if c.timers.showTimer then ShowStep(c.(timers := c.timers.(showTimer := false)), ShowDuration(c.props), env)
    else c
  }

  /** The hide timer firing: `hide()` only if still visible. */
  function FireHideTimer(c: Core, env: Env): Core
  {
    if c.timers.hideTimer then HideIfVisible(c.(timers := c.timers.(hideTimer := false)), env) else c
  }

  function HideIfVisible(c: Core, env: Env): Core
  {
    if c.state.isVisible then HideStep(c, HideDuration(c.props), env) else c
  }

  /** The animation frame of a zero-delay hide firing: `hide()`. */
  function FireFrame(c: Core, env: Env): Core
  {
    if c.timers.frame then HideStep(c.(timers := c.timers.(frame := false)), HideDuration(c.props), env) else c
  }

  /** `onTrigger(event)`. */
  function OnTriggerStep(c: Core, ev: Event, env: Env): Core
  {
    if !c.state.isEnabled || IsEventListenerStopped(ev.eventType, c.props.touchHold, env) then c
    else TriggerDispatch(RecordTrigger(c, ev), ev, env)
  }

  /** A trigger on a hidden tooltip records its type (and the mouse event). */
  function RecordTrigger(c: Core, ev: Event): Core
  {
    if !c.state.isVisible then
      c.(memory := EventMemory(ev.eventType, c.memory.hasMouseMoveEvent || ev.isMouseEvent))
    else c
  }

  function TriggerDispatch(c: Core, ev: Event, env: Env): Core
  {
    if TriggerHides(c, ev) then ScheduleHideStep(c) else ScheduleShowStep(c, Some(ev), env)
  }

  /** `onMouseLeave(event)`: interactive tooltips start watching the cursor instead of hiding. */
  function OnMouseLeaveStep(c: Core, ev: Event, env: Env): Core
  {
    if IsEventListenerStopped(ev.eventType, c.props.touchHold, env) then c
    else if c.props.interactive then c.(document := c.document.(bodyMouseLeave := true, mouseMove := true))
    else ScheduleHideStep(c)
  }

  /** `onBlur(event)`. */
  function OnBlurStep(c: Core, ev: Event): Core
  {
    if !ev.onReference then c
    else if c.props.interactive && ev.relatedInPopper then c
    else ScheduleHideStep(c)
  }

  /** `onDelegateShow(event)`. */
  function OnDelegateShowStep(c: Core, ev: Event, env: Env): Core
  {
    if ev.matchesTarget then ScheduleShowStep(c, Some(ev), env) else c
  }

  /** `onDelegateHide(event)`. */
  function OnDelegateHideStep(c: Core, ev: Event): Core
  {
    if ev.matchesTarget then ScheduleHideStep(c) else c
  }

  /** The handler of one reference listener. */
  function HandleStep(c: Core, h: Handler, ev: Event, env: Env): Core
  {
    match h
    case OnTrigger => OnTriggerStep(c, ev, env)
    case OnMouseLeave => OnMouseLeaveStep(c, ev, env)
    case OnBlur => OnBlurStep(c, ev)
    case OnDelegateShow => OnDelegateShowStep(c, ev, env)
    case OnDelegateHide => OnDelegateHideStep(c, ev)
  }

  /** An event of type `l.eventType` on the listeners target reaches `l` only if it is recorded. */
  function DeliverStep(c: Core, l: Listener, ev: Event, env: Env): Core
  {
    if l in c.listeners then HandleStep(c, l.handler, ev.(eventType := l.eventType), env) else c
  }

  /** `cleanupInteractiveMouseListeners`. */
  function CleanupInteractive(c: Core): Core
  {
    c.(document := c.document.(bodyMouseLeave := false, mouseMove := false))
  }

  /** `onMouseMove(event)` of an interactive tooltip. */
  function OnMouseMoveStep(c: Core, ev: Event, env: Env): Core
  {
    if ev.onReference || ev.inPopper then c
    else if env.mouseMoveVetoed then c
    else if ev.outsideBorder then ScheduleHideStep(CleanupInteractive(c))
    else c
  }

  /** The popper's `mouseenter` listener: keeps an interactive tooltip from hiding. */
  function PopperMouseEnterStep(c: Core): Core
  {
    if c.props.interactive && c.state.isVisible && c.memory.lastTriggerEventType == "mouseenter"
    then ClearDelayTimeouts(c) else c
  }

  /** The popper's `mouseleave` listener. */
  function PopperMouseLeaveStep(c: Core): Core
  {
    if c.props.interactive && c.memory.lastTriggerEventType == "mouseenter" then
      c.(document := c.document.(mouseMove := true))
    else c
  }

  /** `onDocumentClick(event)`. */
  function DocumentClickStep(c: Core, ev: Event, env: Env): Core
  {
    if DocumentClickHides(c, ev, env) then HideStep(ClearDelayTimeouts(c), HideDuration(c.props), env) else c
  }

  function EnableStep(c: Core): Core
  {
    c.(state := c.state.(isEnabled := true))
  }

  function DisableStep(c: Core): Core
  {
    c.(state := c.state.(isEnabled := false))
  }

  /** `set(options)`. */
  function SetStep(c: Core, o: Options): Core
  {
    if c.state.isDestroyed then c
    else SetPopper(CleanupInteractive(Rewire(c, Merge(c.props, o))), o, c.props)
  }

  /** `removeTriggersFromReference`, the new props, `addTriggersToReference`. */
  function Rewire(c: Core, next: Props): Core
  {
    c.(props := next, listeners := WiringOf(next, c.isIE))
  }

  /** The Popper part of `set`: recreate it when a dependency changed, otherwise only update it. */
  function SetPopper(c: Core, o: Options, prev: Props): Core
  {
    if c.popper.handle.None? || !NeedsNewPopper(o, prev) then c else RecreatePopper(c)
  }

  function RecreatePopper(c: Core): Core
  {
    SetFollowCursor(EnableListenersIf(CreatePopper(DestroyHandle(c)), c.state.isVisible))
  }

  function DestroyHandle(c: Core): Core
  {
    c.(popper := c.popper.(handle := DestroyPopper(c.popper.handle)))
  }

  function SetFollowCursor(c: Core): Core
  {
    if c.props.followCursor != FollowCursorOff && c.memory.hasMouseMoveEvent then PositionNearCursor(c) else c
  }

  /** `setContent(content)`. */
  function SetContentStep(c: Core, content: string): Core
  {
    SetStep(c, ContentOptions(content))
  }

  /** `destroy()`: hides a mounted popper with `hide(0)`, detaches the listeners, destroys the Popper. */
  function DestroyStep(c: Core, env: Env): Core
  {
    if c.state.isDestroyed then c
    else FinishDestroy(if c.state.isMounted then HideStep(c, 0, env) else c)
  }

  function FinishDestroy(c: Core): Core
  {
    c.(listeners := [], popper := c.popper.(handle := DestroyPopper(c.popper.handle)),
       state := c.state.(isDestroyed := true))
  }

  /** `createTippy` once the instance is accepted: wiring, a non-lazy Popper, `showOnInit`. */
  function CreateStep(p: Props, isIE: bool, env: Env): Core
  {
    ShowOnInit(CreateEager(InitialCore(p, isIE).(listeners := WiringOf(p, isIE))), env)
  }

  function CreateEager(c: Core): Core
  {
    if !c.props.lazy then CreatePopper(c) else c
  }

  function ShowOnInit(c: Core, env: Env): Core
  {
    if c.props.showOnInit then ScheduleShowStep(c, None, env) else c
  }

  /** `createTippy` returns `null` when the props forbid a second instance on the reference. */
  predicate CreateRefused(p: Props, referenceHasInstance: bool)
  {
    !p.multiple && referenceHasInstance
  }

  /* ---------------------------- operations ----------------------------- */

  /** Everything that can happen to an instance: its public methods and the events it reacts to. */
  datatype Op =
    | Show(showDuration: Option<int>)
    | Hide(hideDuration: Option<int>)
    | Enable
    | Disable
    | Destroy
    | Set(options: Options)
    | SetContent(newContent: string)
    | ClearTimeouts
    | Deliver(listener: Listener, event: Event)
    | DocumentClick(clickEvent: Event)
    | CursorMove(moveEvent: Event)
    | InteractiveMouseMove(interactiveEvent: Event)
    | BodyMouseLeave
    | PopperMouseEnter
    | PopperMouseLeave
    | ShowTimerFires
    | HideTimerFires
    | FrameFires
    | PopperUpdates
    | TransitionEnds(onTooltip: bool)

  function Apply(c: Core, op: Op, env: Env): Core
  {
    match op
    case Show(d) => ShowStep(c, if d.Some? then d.value else ShowDuration(c.props), env)
    case Hide(d) => HideStep(c, if d.Some? then d.value else HideDuration(c.props), env)
    case Enable => EnableStep(c)
    case Disable => DisableStep(c)
    case Destroy => DestroyStep(c, env)
    case Set(o) => SetStep(c, o)
    case SetContent(s) => SetContentStep(c, s)
    case ClearTimeouts => ClearDelayTimeouts(c)
    case Deliver(l, ev) => DeliverStep(c, l, ev, env)
    case DocumentClick(ev) => if c.document.click then DocumentClickStep(c, ev, env) else c
    case CursorMove(_) => if c.document.followCursor then PositionNearCursor(c) else c
    case InteractiveMouseMove(ev) => if c.document.mouseMove then OnMouseMoveStep(c, ev, env) else c
    case BodyMouseLeave => if c.document.bodyMouseLeave then ScheduleHideStep(c) else c
    case PopperMouseEnter => PopperMouseEnterStep(c)
    case PopperMouseLeave => PopperMouseLeaveStep(c)
    case ShowTimerFires => FireShowTimer(c, env)
    case HideTimerFires => FireHideTimer(c, env)
    case FrameFires => FireFrame(c, env)
    case PopperUpdates => FirePopperUpdate(c)
    case TransitionEnds(t) => FireTransitionEnd(c, t)
  }

  /** One operation with the answers of its surroundings. */
  datatype Step = Step(op: Op, env: Env)

  function Run(c: Core, steps: seq<Step>): Core
    decreases |steps|
  {
    if steps == [] then c else Run(Apply(c, steps[0].op, steps[0].env), steps[1..])
  }

  /* ----------------------------- invariant ----------------------------- */

  /** At most one of the show timer, the hide timer and the animation frame is pending. */
  predicate AtMostOnePending(t: Timers)
  {
    !(t.showTimer && t.hideTimer) && !(t.showTimer && t.frame) && !(t.hideTimer && t.frame)
  }

  /** The handle is the latest one created, and is destroyed exactly when the instance is. */
  predicate PopperConsistent(s: PopperSlot, isDestroyed: bool)
  {
    s.handle.Some? ==> s.handle.value.serial == s.count && (s.handle.value.destroyed <==> isDestroyed)
  }

  /**
   * The part of the invariant that is about the lifecycle: visible implies mounted, mounted
   * implies a Popper instance, at most one pending delay, no reference listener once
   * destroyed, and the handle is consistent.
   */
  predicate Safe(c: Core)
  {
    && (c.state.isVisible ==> c.state.isMounted)
    && (c.state.isMounted ==> c.popper.handle.Some?)
    && AtMostOnePending(c.timers)
    && (c.state.isDestroyed ==> c.listeners == [])
    && PopperConsistent(c.popper, c.state.isDestroyed)
  }

  /** The listeners on the reference are exactly the wiring of the current props, none once destroyed. */
  predicate Wired(c: Core)
  {
    c.listeners == (if c.state.isDestroyed then [] else WiringOf(c.props, c.isIE))
  }

  /** What every reachable state keeps. */
  predicate Inv(c: Core)
  {
    Safe(c) && Wired(c)
  }

  /** `d` has the props, the listeners and the destroyed flag of `c`. */
  predicate SameWiring(c: Core, d: Core)
  {
    d.isIE == c.isIE && d.props == c.props && d.listeners == c.listeners
    && d.state.isDestroyed == c.state.isDestroyed
  }
}
