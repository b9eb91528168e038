# tippy.js instance lifecycle, modelled in Dafny

This project models the lifecycle engine of one tippy.js tooltip instance. That engine is the
closure `createTippy` returns (`src/createTippy.ts`), together with the configuration record it
reads (`src/props.ts`).

- **Instance state.** An instance has five state flags: `isEnabled`, `isVisible`,
  `isDestroyed`, `isMounted` and `isShown`.
- **Public methods.** The model covers `show`, `hide`, `enable`, `disable`,
  `clearDelayTimeouts`, `set`, `setContent` and `destroy`.
- **Scheduling.** `scheduleShow` and `scheduleHide` sit between the triggers and `show`/`hide`.
  The show timer, the hide timer and the animation frame are pending slots, and dedicated
  operations fire them.
- **Deferred callbacks.** The mount callback runs from the Popper.js `onCreate`/`onUpdate`
  hooks. The `transitionend` listener runs the transition-in or transition-out tail of
  `show`/`hide`.
- **Trigger wiring.** `on`, `addTriggersToReference` and `removeTriggersFromReference` keep a
  recorded listener list whose entries are `(eventType, handler, passive)`.
- **Events.** The handlers are `onTrigger`, `onMouseLeave`, `onBlur`, `onDelegateShow`,
  `onDelegateHide`, `onDocumentClick`, the interactive `onMouseMove`, and the popper's own
  `mouseenter`/`mouseleave`.

The model is layered:

- `props.dfy` (module `Props`) holds the props record, `defaultProps`, `getValue`, the options
  record of `set` with its merge, and `POPPER_INSTANCE_DEPENDENCIES` with the test `set` applies
  to recreate the Popper instance.
- `strings.dfy` (module `Strings`) holds the string built-ins the wiring and the touch filter
  use: `trim` (with the full ECMAScript set of white space and line terminator characters), `split(' ')`, `join` and `includes`.
- `wiring.dfy` (module `Wiring`) gives, as a pure function of the props, the listener records
  `addTriggersToReference` produces, and the lemmas that characterise them.
- `lifecycle.dfy` (module `Lifecycle`) expresses every operation of the closure as a pure step
  on a `Core` value, which mirrors the closure's variables. It also holds the decision
  predicates (`isEventListenerStopped`, the `onTrigger` toggle, the `onDocumentClick` test,
  `getCorrectedPadding`), the operation type `Op` with `Apply`/`Run`, and the invariant `Inv`:
  - visible ⇒ mounted ⇒ a Popper instance exists;
  - at most one delay slot is pending;
  - the Popper handle is consistent with the destroyed flag;
  - the recorded listeners are exactly the wiring of the current props, and none once destroyed.
- `invariant.dfy` (module `Invariant`) proves that creation establishes `Inv` and that every
  operation preserves it.
- `behaviour.dfy` (module `Behaviour`) proves what each method, scheduler and callback
  promises, including that destroyed is terminal.
- `defaults.dfy` (module `Defaults`) proves what a default instance does.
- `instance.dfy` (module `Instance`) is the imperative model.
  - Class `Tippy` keeps the closure's variables as fields. Its methods reassign them as the
    source does, and it loops over the trigger tokens and over the recorded listeners.
  - Each method is proved to move the object exactly as the matching pure step does and to
    preserve `Valid()`. `Valid()` is `Inv` plus the fact that the set of listeners attached to
    the DOM target equals the recorded list.
  - Class `Registry` models `reference._tippy` and the global `idCounter`: `createTippy`
    returns `null` for a second instance, and `destroy` clears the reference's slot.

Foreign answers become inputs of type `Env`. These are the global `isUsingTouch` flag,
`'ontouchstart' in window`, a `disabled` attribute on the target, and `false` returned by
`onShow`/`onHide`/`onMouseMove`. An event is reduced to the facts its handler inspects
(`Event`).

Behaviour kept as the code has it:

- **Delays and durations.**
  - A show or hide delay counts when it is nonzero (the JavaScript truthiness of a number).
    A zero show delay calls `show` synchronously. A zero hide delay goes through an animation
    frame.
  - The default duration of `show` is `getValue(duration, 0, 275)` and that of `hide` is
    `getValue(duration, 1, 275)`. The fallback is `defaultProps.duration[1]` in both cases.
  - `onTransitionEnd` with duration 0 runs the callback at once and leaves a previously
    registered listener in place.
  - A delayed hide calls `hide` only if the instance is still visible when the timer fires.
- **Scheduling and creation order.**
  - `scheduleShow` adds the document click listener before `show` decides whether it is
    blocked.
  - `createTippy` takes an id only after the `multiple` check.
- **Guards.**
  - `enable`/`disable` have no destroyed guard.
  - `destroy` calls `hide(0)`, which has its guards, so a disabled (or vetoed) mounted
    instance is destroyed while still mounted. `Behaviour.DestroyDisabledStaysMounted` states
    this.
- **After `destroy`.** A destroyed instance keeps `isDestroyed`, its props and its empty
  listener list, and it gets no new Popper instance. It never becomes visible or mounted
  again. `Behaviour.StillDestroyed` states exactly this, and the rows below say "destroyed,
  as defined above" for it. The other fields are not frozen:
  - `enable` and `disable` still flip `isEnabled`;
  - a transition-out listener registered before a `destroy` whose `hide(0)` was refused (a
    disabled or vetoed instance) still unmounts the instance when its `transitionend`
    arrives;
  - a transition-in listener left in place by a zero-duration hide can still set `isShown`;
  - the popper's `mouseenter`, a document click and the other handlers still clear the
    delay timers.

## Model

| member | source | states |
|---|---|---|
| Props.GetValue | src/props.ts:13-15 | a scalar timing is its own value for both indices; a pair gives the entry at the index, or the default when that entry is null or the index is past the pair |
| Props.DefaultTimings | src/props.ts:13-15 | by default the show and hide delays are 0, `show` takes 325 and `hide` 275, and a null entry of a duration pair falls back to 275 |
| Props.DependencyKeys | src/props.ts:58-69 | the dependency list has exactly ten distinct keys, and a key is a dependency exactly when it is arrow, arrowType, boundary, distance, flip, flipBehavior, flipOnUpdate, offset, placement or popperOptions |
| Props.AnyChangedIff | src/createTippy.ts:988-994 | the `.some` over a key list holds exactly when some key of the list is owned by the options with a value different from the previous prop |
| Props.NeedsNewPopperIff | src/createTippy.ts:986-994 | `set`'s recreation test holds exactly when some dependency key is owned by the options with a changed value |
| Props.OtherKeysKeepPopper | src/props.ts:54-69 | options that change only non-dependency keys never force recreation |
| Props.ContentKeepsPopper | src/createTippy.ts:1015-1017 | the options of `setContent` never force recreation |
| Props.MergeContent | src/createTippy.ts:1015-1017 | merging `{ content }` into the props replaces the content and keeps every other prop |
| Props.MergeNothing | src/createTippy.ts:968-976 | merging an options object that owns no key leaves the props unchanged |
| Strings.Trim | src/createTippy.ts:308 | the trimmed string neither starts nor ends with white space (ECMAScript WhiteSpace and LineTerminator, all Unicode space separators included) and is no longer than the input |
| Strings.TrimIsInfix | src/createTippy.ts:308 | the trimmed string occurs in the input at a position where everything before and everything after it is white space in the ECMAScript sense |
| Strings.TrimSpaceSeparators | src/createTippy.ts:308 | the Unicode space separators, such as the ideographic space and the thin space, are trimmed like an ASCII space |
| Strings.Split | src/createTippy.ts:309 | splitting gives at least one piece and no piece contains a space |
| Strings.JoinSplit | src/createTippy.ts:309 | joining the pieces with single spaces gives back the input |
| Strings.SplitJoin | src/createTippy.ts:309 | splitting the join of space-free pieces gives back those pieces |
| Strings.Contains | src/createTippy.ts:582 | `includes` holds exactly when the substring occurs at some position |
| Wiring.WireTokensAppend | src/createTippy.ts:307-342 | wiring one more token appends exactly that token's listeners after the earlier ones |
| Wiring.InWireTokens | src/createTippy.ts:307-342 | a listener is wired for a token list exactly when one of its tokens wires it |
| Wiring.TokenWiringShape | src/createTippy.ts:311-341 | every record one token produces is non-passive, is never produced by "manual", and, without a target, is the token's own trigger listener, `mouseleave` for `mouseenter` or the blur listener for `focus`; with a target it is one of the delegate records of `mouseenter`, `focus` or `click` |
| Wiring.InWiring | src/createTippy.ts:301-343 | a listener is wired exactly when it is one of the touch pair or one of the trigger tokens wires it |
| Wiring.TokensIgnoreSpaceSeparators | src/createTippy.ts:307-309 | a trigger padded with the ideographic and thin spaces splits into the single token `mouseenter`, so it is wired as `mouseenter` |
| Wiring.TokensOfTwoWords | src/createTippy.ts:307-309 | two white-space-free words joined by one space split into exactly those two tokens |
| Wiring.ManualWiresNothing | src/createTippy.ts:311-313 | a `manual` trigger without the touch pair wires nothing |
| Wiring.NonDelegateAdds | src/createTippy.ts:316-326 | without a target, every token other than "manual" wires its trigger listener, `mouseenter` also `mouseleave`, and `focus` also `blur` (`focusout` on IE) |
| Wiring.NonDelegateOnly | src/createTippy.ts:301-326 | without a target, every wired record is one of the touch pair, a token's trigger listener, or the paired `mouseleave`/blur listener of the corresponding token |
| Wiring.DelegateTokenWiring | src/createTippy.ts:327-340 | with a target, `mouseenter` wires `mouseover`+`mouseout`, `focus` wires `focusin`+`focusout` and `click` wires `click`, on the delegate handlers |
| Wiring.DelegateAdds | src/createTippy.ts:327-340 | with a target, each of those delegate records is wired when its token is in the trigger |
| Wiring.DelegateOnly | src/createTippy.ts:302-340 | with a target, nothing else is wired, not even the touch pair |
| Wiring.TouchPairIff | src/createTippy.ts:302-305 | the passive `touchstart`/`touchend` listeners are wired exactly when `touchHold` is set and there is no target |
| Wiring.MouseenterFocusWiring | src/createTippy.ts:307-326 | a `mouseenter focus` trigger without target or `touchHold` wires exactly `mouseenter`, `mouseleave`, `focus` and the blur listener, in that order |
| Wiring.DefaultTokens | src/props.ts:47 | the default trigger splits into `mouseenter` and `focus` |
| Wiring.DefaultWiring | src/props.ts:45-47 | the default props wire exactly those four listeners |
| Wiring.ListenerSetAppend | src/createTippy.ts:289-296 | attaching two record lists attaches the union of their listeners |
| Lifecycle.GetCorrectedPadding | src/createTippy.ts:358-363 | the corrected padding is never below the computed one, equals it exactly when there is no arrow, and exceeds it by 18 for a round arrow and 16 otherwise |
| Invariant.CreateInv | src/createTippy.ts:118-132 | a newly created instance satisfies the invariant |
| Invariant.SetStepInv | src/createTippy.ts:951-1010 | `set` preserves the invariant: the listeners are rewired for the merged props and a recreated Popper handle is consistent |
| Invariant.DestroyStepInv | src/createTippy.ts:1162-1193 | `destroy` preserves the invariant |
| Invariant.ShowStepSafe | src/createTippy.ts:1022-1102 | `show` keeps visible ⇒ mounted ⇒ a Popper instance, at most one pending delay, and the props and listeners |
| Invariant.HideStepSafe | src/createTippy.ts:1107-1157 | `hide` keeps the lifecycle invariant and the props and listeners |
| Invariant.ScheduleShowSafe | src/createTippy.ts:814-860 | `scheduleShow` keeps the lifecycle invariant and the wiring |
| Invariant.ScheduleHideSafe | src/createTippy.ts:865-889 | `scheduleHide` keeps the lifecycle invariant and the wiring |
| Invariant.ApplyInv | src/createTippy.ts:87-149 | every operation, whether public method, listener event, timer, frame, Popper callback or transition end, preserves the invariant |
| Invariant.RunInv | src/createTippy.ts:87-149 | every sequence of operations preserves the invariant |
| Invariant.ReachableInv | src/createTippy.ts:47-149 | every state reachable from creation satisfies the invariant |
| Behaviour.MountEffect | src/createTippy.ts:738-809 | `mount` marks the instance mounted with a Popper instance, re-arms the mount callback, and touches no timer, props or listeners |
| Behaviour.MountPopperEffect | src/createTippy.ts:741-763 | the Popper part of `mount` leaves a Popper instance in place and changes no state flag, callback, timer, document listener or the wiring |
| Behaviour.MountPositionEffect | src/createTippy.ts:765-795 | the cursor positioning part of `mount` changes no state flag, callback, timer, document click listener, Popper handle or the wiring |
| Behaviour.ShowBlockedNoOp | src/createTippy.ts:1037-1054 | a `show` on a destroyed, disabled, touch-excluded, disabled-target or vetoed instance changes nothing |
| Behaviour.ShowProceeds | src/createTippy.ts:1056-1101 | an unblocked `show` makes the instance visible and mounted with a Popper instance, installs a fresh mount callback for the duration and the document click listener, and leaves `isShown` and the timers alone |
| Behaviour.ShowVisibleIff | src/createTippy.ts:1037-1059 | after `show` the instance is visible exactly when it already was or `show` was not blocked |
| Behaviour.ShowKeepsTimers | src/createTippy.ts:1022-1102 | `show` touches no timer and keeps the props and listeners |
| Behaviour.HideBlockedNoOp | src/createTippy.ts:1122-1128 | a `hide` on a destroyed, disabled or vetoed instance changes nothing |
| Behaviour.HideProceeds | src/createTippy.ts:1130-1156 | an unblocked `hide` clears `isVisible` and `isShown` at once and drops the document click listener; with a nonzero duration it stays mounted and registers the transition-out listener, with duration 0 it unmounts at once |
| Behaviour.UnmountOnlyWhenHidden | src/createTippy.ts:239-256 | only the transition-out callback unmounts, and only while the instance is not visible |
| Behaviour.MountCallbackOnce | src/createTippy.ts:594-600 | running the mount callback twice is running it once |
| Behaviour.MountRearms | src/createTippy.ts:739 | `mount` re-arms the mount callback and keeps the installed one |
| Behaviour.MountCallbackWhenHidden | src/createTippy.ts:1065-1068 | a mount callback that finds the instance hidden only marks itself as run and never sets `isShown` |
| Behaviour.MountCallbackWhenVisible | src/createTippy.ts:1065-1098 | a mount callback that finds the instance visible sets `isShown` at once for duration 0, and otherwise registers the transition-in listener |
| Behaviour.PopperUpdateIdempotent | src/createTippy.ts:711-725 | a second Popper update after the first changes nothing more |
| Behaviour.TransitionEndZero | src/createTippy.ts:261-265 | with duration 0 the callback runs at once and the registered listener stays as it was |
| Behaviour.TransitionEndReplaces | src/createTippy.ts:267-283 | with a nonzero duration the new listener replaces any registered one, and nothing else changes yet |
| Behaviour.TransitionEndFiresOnce | src/createTippy.ts:271-281 | the listener ignores events from other elements, removes itself, and fires at most once |
| Behaviour.ScheduleShowWhenVisible | src/createTippy.ts:815-819 | `scheduleShow` on a visible instance only clears the pending delays |
| Behaviour.ScheduleShowTimers | src/createTippy.ts:814-860 | after `scheduleShow` no hide timer or frame is pending, and the show timer is pending exactly when the instance was hidden, not a delegate, not gated by `wait`, and the show delay is nonzero |
| Behaviour.ScheduleShowZeroDelay | src/createTippy.ts:849-859 | with a zero show delay no timer is pending, and the instance is visible exactly when `show` is not blocked |
| Behaviour.ScheduleShowDelegate | src/createTippy.ts:821-824 | a delegate's `scheduleShow` never shows it and at most requests one more child instance |
| Behaviour.ScheduleHideWhenHidden | src/createTippy.ts:866-870 | `scheduleHide` on a hidden instance clears the delays and removes the follow-cursor listener |
| Behaviour.ScheduleHideWhenVisible | src/createTippy.ts:872-888 | `scheduleHide` on a visible instance changes no state, cancels a scheduled show, and sets the hide timer for a nonzero delay or the animation frame for a zero one |
| Behaviour.ZeroHideDelayWaitsForFrame | src/createTippy.ts:883-888 | with a zero hide delay the instance is still visible after `scheduleHide` and hidden once the frame fires |
| Behaviour.StaleHideTimer | src/createTippy.ts:877-881 | a hide timer firing on a hidden instance only clears its own slot |
| Behaviour.LiveHideTimer | src/createTippy.ts:877-881 | a hide timer firing on a visible instance calls `hide` with the default duration |
| Behaviour.IdleTimers | src/createTippy.ts:942-946 | firing a slot that is not pending changes nothing |
| Behaviour.OnTriggerIgnored | src/createTippy.ts:466-469 | `onTrigger` on a disabled instance or for a stopped event changes nothing |
| Behaviour.OnTriggerToggle | src/createTippy.ts:471-488 | otherwise a click on a visible tooltip whose `hideOnClick` is not `false` schedules a hide, and every other trigger schedules a show of the recorded trigger |
| Behaviour.RecordTriggerWhenHidden | src/createTippy.ts:471-478 | a trigger on a hidden instance remembers its event type and whether it was a mouse event |
| Behaviour.NothingStoppedWithoutTouch | src/createTippy.ts:580-589 | without touch input no event is stopped |
| Behaviour.StoppedWithTouch | src/createTippy.ts:580-589 | with touch input, a non-`touchHold` instance stops exactly the touch events, a `touchHold` one on a touch-capable device stops exactly the others, and on other devices it stops none |
| Behaviour.DeliverUnrecorded | src/createTippy.ts:289-296 | an event reaches a handler only through a recorded listener |
| Behaviour.DocumentClickKeeps | src/createTippy.ts:895-902 | a click inside an interactive popper, or with `hideOnClick` other than `true`, never hides |
| Behaviour.DefaultOutsideClickHides | src/createTippy.ts:904-921 | with the default props a click outside the reference clears the delays and calls `hide` |
| Behaviour.TouchClickOnReferenceKeeps | src/createTippy.ts:904-908 | a click on the reference while touch is in use does not hide |
| Behaviour.SetDestroyedNoOp | src/createTippy.ts:960-962 | `set` on a destroyed instance changes nothing |
| Behaviour.SetRewires | src/createTippy.ts:968-981 | otherwise `set` replaces the props by the merged ones, the listeners by the wiring of the new props alone, and keeps the state and timers |
| Behaviour.SetPopperFrame | src/createTippy.ts:986-1007 | the Popper part of `set` keeps the props, listeners, state and timers |
| Behaviour.SetPopperIff | src/createTippy.ts:985-1008 | `set` creates a new Popper instance exactly when one exists and a dependency key changed; otherwise the handle is untouched |
| Behaviour.SetRecreates | src/createTippy.ts:995-1004 | a recreated handle is the next one created, not destroyed, and has its listeners enabled exactly when the instance is visible |
| Behaviour.SetContentKeepsPopper | src/createTippy.ts:1015-1017 | `setContent` never touches the Popper instance |
| Behaviour.SetContentProps | src/createTippy.ts:1015-1017 | `setContent` on a live instance changes the content and no other prop |
| Behaviour.DestroyEnds | src/createTippy.ts:1162-1193 | `destroy` always ends destroyed, with no listeners, any Popper handle destroyed and the props kept |
| Behaviour.DestroyIdempotent | src/createTippy.ts:1163-1165 | a second `destroy` returns at once |
| Behaviour.DestroyUnmounts | src/createTippy.ts:1169-1171 | on an enabled mounted instance whose `onHide` agrees, `destroy` hides with `hide(0)` and unmounts at once |
| Behaviour.DestroyDisabledStaysMounted | src/createTippy.ts:1122-1124 | as written, `destroy` on a disabled mounted instance leaves it mounted and as visible as it was |
| Behaviour.StillDestroyedTrans | src/createTippy.ts:1162-1193 | staying destroyed (as defined above: destroyed, same props, no listeners, no new Popper instance, never newly visible or newly mounted) composes over consecutive steps |
| Behaviour.HideWhenDestroyed | src/createTippy.ts:865-889 | on a destroyed instance `scheduleHide` and the interactive cleanup keep it destroyed, as defined above |
| Behaviour.CallWhenDestroyed | src/createTippy.ts:928-1193 | on a destroyed instance every public method keeps it destroyed, as defined above, including `enable` and `disable`, which have no guard |
| Behaviour.ListenerEventWhenDestroyed | src/createTippy.ts:466-574 | on a destroyed instance no reference, document or cursor event revives it |
| Behaviour.TimerWhenDestroyed | src/createTippy.ts:849-888 | on a destroyed instance no delay timer or frame revives it |
| Behaviour.PopperMouseWhenDestroyed | src/createTippy.ts:136-149 | on a destroyed instance the popper's `mouseenter`/`mouseleave` do not revive it |
| Behaviour.AsyncEventWhenDestroyed | src/createTippy.ts:261-284 | on a destroyed instance a Popper update or a `transitionend` does not revive it |
| Behaviour.PopperUpdateWhenDestroyed | src/createTippy.ts:711-725 | a Popper `onCreate`/`onUpdate` arriving after `destroy` keeps the instance destroyed, as defined above |
| Behaviour.TransitionEndWhenDestroyed | src/createTippy.ts:271-281 | a `transitionend` arriving after `destroy` keeps the instance destroyed, as defined above |
| Behaviour.ApplyWhenDestroyed | src/createTippy.ts:1162-1193 | on a destroyed instance every operation keeps it destroyed, with the same props, no listeners, no new Popper instance, and never newly visible or mounted |
| Behaviour.RunWhenDestroyed | src/createTippy.ts:1162-1193 | the same holds for every sequence of operations |
| Behaviour.DestroyIsTerminal | src/createTippy.ts:1162-1193 | after `destroy`, whatever happens, the instance stays destroyed: same props, no listeners, no new Popper instance, never newly visible or newly mounted |
| Defaults.CreateQuiet | src/createTippy.ts:122-132 | without `showOnInit` and with `lazy`, construction only records the props and wires the triggers |
| Defaults.DefaultCreate | src/props.ts:26-47 | a default instance is enabled and hidden, has no Popper instance, no pending delay and the four default listeners |
| Defaults.DefaultRefusesSecond | src/createTippy.ts:53-56 | with `multiple: false` a reference that already has an instance refuses a second one, and nothing else is refused |
| Defaults.DefaultEventsNotTouch | src/createTippy.ts:582 | the default trigger events are not touch events |
| Defaults.TouchHoldEventsAreTouch | src/createTippy.ts:582 | `touchstart` and `touchend` are touch events |
| Defaults.DefaultTouchFiltering | src/props.ts:45-46 | under the default `touchHold: false`, touch input stops the touch events and neither default trigger |
| Defaults.TriggerShowsAtOnce | src/createTippy.ts:466-489 | on a hidden enabled instance with no delay, no target and no `wait`, an unfiltered recorded trigger shows and mounts at once with no timer pending |
| Defaults.DefaultHoverShows | src/props.ts:13 | on a fresh default instance a `mouseenter` shows the tooltip at once |
| Instance.Tippy.constructor | src/createTippy.ts:59-132 | the initial fields, wiring, eager Popper and `showOnInit` give exactly the creation step, and the object is valid |
| Instance.Tippy.On | src/createTippy.ts:289-296 | one record is appended and its listener attached |
| Instance.Tippy.AddTokenTriggers | src/createTippy.ts:310-341 | the records of one token are appended and attached |
| Instance.Tippy.AddTokensTriggers | src/createTippy.ts:307-342 | the loop over the tokens appends and attaches exactly their wiring |
| Instance.Tippy.AddTriggersToReference | src/createTippy.ts:301-343 | the full wiring of the current props is appended and attached |
| Instance.Tippy.RemoveTriggersFromReference | src/createTippy.ts:348-353 | every recorded listener is detached and the record list becomes empty |
| Instance.Tippy.RunMountCallback | src/createTippy.ts:594-600 | the object moves exactly as the mount-callback step |
| Instance.Tippy.ScheduleShow | src/createTippy.ts:814-860 | the object moves exactly as the `scheduleShow` step |
| Instance.Tippy.ScheduleHide | src/createTippy.ts:865-889 | the object moves exactly as the `scheduleHide` step |
| Instance.Tippy.Show | src/createTippy.ts:1022-1102 | the object moves as the `show` operation and stays valid |
| Instance.Tippy.Hide | src/createTippy.ts:1107-1157 | the object moves as the `hide` operation and stays valid |
| Instance.Tippy.Enable | src/createTippy.ts:928-930 | the object moves as `enable` and stays valid |
| Instance.Tippy.Disable | src/createTippy.ts:935-937 | the object moves as `disable` and stays valid |
| Instance.Tippy.ClearDelayTimeouts | src/createTippy.ts:942-946 | all three delay slots are cleared and the object stays valid |
| Instance.Tippy.Set | src/createTippy.ts:951-1010 | the object moves as `set`, the attached listeners become exactly the new wiring, and it stays valid |
| Instance.Tippy.SetContent | src/createTippy.ts:1015-1017 | the object moves as `setContent` and stays valid |
| Instance.Tippy.Destroy | src/createTippy.ts:1162-1193 | the object moves as `destroy`, every attached listener is detached once, and it stays valid |
| Instance.Tippy.CreatePopperInstance | src/createTippy.ts:605-733 | the object moves exactly as the Popper creation step, with the listener records untouched |
| Instance.Tippy.EnableEventListeners | src/createTippy.ts:749 | the existing Popper handle has its listeners enabled and nothing else in the lifecycle changes |
| Instance.Tippy.MountPopperInstance | src/createTippy.ts:741-763 | the object moves exactly as the Popper part of `mount` |
| Instance.Tippy.PositionVirtualReferenceNearCursor | src/createTippy.ts:368-439 | the object moves exactly as the cursor positioning step |
| Instance.Tippy.Mount | src/createTippy.ts:738-809 | the object moves exactly as the `mount` step, with the listener records untouched |
| Instance.Tippy.CleanupInteractiveMouseListeners | src/createTippy.ts:169-172 | the object moves exactly as the interactive cleanup step |
| Instance.Tippy.OnTransitionEnd | src/createTippy.ts:261-284 | the object moves exactly as the `onTransitionEnd` step |
| Instance.Tippy.Complete | src/createTippy.ts:239-256 | the object runs the transition-in or transition-out callback exactly as the lifecycle says |
| Instance.Tippy.ShowWith | src/createTippy.ts:1022-1102 | `show(duration)` moves the object exactly as the `show` step |
| Instance.Tippy.HideWith | src/createTippy.ts:1107-1157 | `hide(duration)` moves the object exactly as the `hide` step |
| Instance.Tippy.ArmShow | src/createTippy.ts:826-859 | the part of `scheduleShow` after the visibility and delegate tests moves the object exactly as the lifecycle says |
| Instance.Tippy.FireShow | src/createTippy.ts:851-853 | the show timer's callback moves the object exactly as the lifecycle says |
| Instance.Tippy.HandleTrigger | src/createTippy.ts:466-489 | `onTrigger` moves the object exactly as its step |
| Instance.Tippy.HandleMouseLeave | src/createTippy.ts:525-537 | `onMouseLeave` moves the object exactly as its step |
| Instance.Tippy.HandleBlur | src/createTippy.ts:542-556 | `onBlur` moves the object exactly as its step |
| Instance.Tippy.HandleMouseMove | src/createTippy.ts:495-520 | the interactive `onMouseMove` moves the object exactly as its step |
| Instance.Tippy.HandleDocumentClick | src/createTippy.ts:895-922 | `onDocumentClick` moves the object exactly as its step |
| Instance.Tippy.ReplaceProps | src/createTippy.ts:968-981 | the props become the merged ones, the old records are detached and exactly the new wiring is recorded and attached |
| Instance.Tippy.SetLive | src/createTippy.ts:964-1009 | `set` on a live instance moves the object as the `set` step and attaches exactly the new wiring |
| Instance.Tippy.UpdatePopperInstance | src/createTippy.ts:986-1008 | the Popper part of `set` moves the object exactly as the lifecycle says |
| Instance.Tippy.CursorMove | src/createTippy.ts:846 | the document `mousemove` listener that `followCursor` installs moves the object as the lifecycle says and keeps it valid |
| Instance.Tippy.BodyMouseLeave | src/createTippy.ts:529-533 | the body `mouseleave` installed by an interactive instance moves the object as the lifecycle says and keeps it valid |
| Instance.Tippy.Deliver | src/createTippy.ts:466-574 | a reference event runs the handler of a recorded listener as the lifecycle says |
| Instance.Tippy.DocumentClick | src/createTippy.ts:895-922 | the document click moves the object as the lifecycle says |
| Instance.Tippy.InteractiveMouseMove | src/createTippy.ts:495-520 | the interactive `mousemove` moves the object as the lifecycle says |
| Instance.Tippy.PopperMouseEnter | src/createTippy.ts:136-144 | the popper's `mouseenter` moves the object as the lifecycle says |
| Instance.Tippy.PopperMouseLeave | src/createTippy.ts:145-149 | the popper's `mouseleave` moves the object as the lifecycle says |
| Instance.Tippy.ShowTimerFires | src/createTippy.ts:851-853 | the show timer firing moves the object as the lifecycle says |
| Instance.Tippy.HideTimerFires | src/createTippy.ts:877-881 | the hide timer firing moves the object as the lifecycle says |
| Instance.Tippy.FrameFires | src/createTippy.ts:883-887 | the animation frame firing moves the object as the lifecycle says |
| Instance.Tippy.PopperUpdates | src/createTippy.ts:711-725 | a Popper `onCreate`/`onUpdate` moves the object as the lifecycle says |
| Instance.Tippy.TransitionEnds | src/createTippy.ts:267-281 | a `transitionend` moves the object as the lifecycle says |
| Instance.Registry.CreateTippy | src/createTippy.ts:47-132 | returns `null` exactly when `multiple` is false and the reference has an instance, changing nothing; otherwise a fresh valid instance with the next id, recorded on the reference |
| Instance.Registry.DestroyTippy | src/createTippy.ts:1162-1193 | destroys the instance and clears `reference._tippy` on the first destroy only |

## Left out

- Popper.js geometry and its configuration object (`createPopperInstance`'s modifiers, `applyMutations`, flip and `preventOverflow`) are a foreign library. The handle records only which creation it is, whether its listeners are enabled and whether it is destroyed, and `update`/`scheduleUpdate` calls are not tracked.
- `positionVirtualReferenceNearCursor` is kept only for its flags (the mouse event recorded, nothing before padding exists, the `'initial'` listener removed once visible). The rectangle and window arithmetic in floating point is not modelled.
- `evaluateProps` is not modelled as a function. The props given to creation stand for its result, so data-attribute overrides and a function `content` count as already applied. In `set` it is the identity, because `set` evaluates with attributes ignored (`src/createTippy.ts:971-978`) and `content` is modelled as a string.
- `validateOptions`, `createPopperElement`, `updatePopperElement`, `getChildren`, `reflow`, `isCursorOutsideInteractiveBorder`, `closest` and `getValue` live in files that are not part of this model. `getValue` is modelled as its documented behaviour, and the border and `closest` answers are facts of `Event`.
- `makeSticky`, CSS transition and visibility styles, `aria` attributes, `console.warn` diagnostics and `process.env` checks have no effect on the modelled state.
- `isIE` is a per-instance constant, and `isUsingTouch` is an input instead of the global listener module.
- The hooks `onTrigger`, `onMount`, `onShown`, `onHidden`, `onCreate` and `onUntrigger` are not modelled. For `onShow`, `onHide` and the interactive `onMouseMove`, only the `false` answer counts.
- `createDelegateChildTippy` is a counter of requested child instances. The child's own `createTippy` and the `querySelectorAll` traversal are DOM work.
- The `destroyTargetInstances` argument of `destroy` (destroying the children's instances) is not modelled, because it walks the DOM.
- `wait` is a flag saying whether a gate is configured. What the user's `wait` function does later is outside the instance. `triggerTarget` and `appendTo` are not modelled: the event target and the parent node are abstract.
- Props that only style the popper (`animation`, `theme`, `maxWidth`, `zIndex` and so on) are not fields of `Props`.
- JavaScript's `undefined` values in options are treated as absent keys, and `popperOptions` is an identity number.
- build/addons.js re-exports addons and has no logic.
- Timers are pending flags, not clocks. Two timers of the same kind cannot be pending together, as `clearDelayTimeouts` precedes every new timer in the source.
