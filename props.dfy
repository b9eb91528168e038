/**
 * The configuration record of an instance (src/props.ts): the default values that drive the
 * lifecycle engine, the options record accepted by `set`, and the list of keys whose change
 * forces the positioning engine handle to be recreated.
 */
module Props {
  import opened Wrappers

  /** A `delay` or `duration` value: one number, or a `[show, hide]` pair whose entries may be null. */
  datatype Timing = Scalar(value: int) | Pair(first: Option<int>, second: Option<int>)

  /** `hideOnClick`: `true`, `false` or `'toggle'`. */
  datatype HideOnClick = HideOnClickTrue | HideOnClickFalse | HideOnClickToggle

  /** `followCursor`: `false`, `true`, `'horizontal'`, `'vertical'` or `'initial'`. */
  datatype FollowCursor = FollowCursorOff | FollowCursorOn | Horizontal | Vertical | Initial

  /** `offset`: a number or a string such as "10, 20". */
  datatype Offset = OffsetNumber(n: int) | OffsetString(s: string)

  /**
   * The props the lifecycle engine and `set` read. `target` is the delegation selector, the
   * empty string standing for an absent one; `wait` records whether a `wait` gate is configured;
   * `popperOptions` is the identity of the options object (it is compared with `!==`).
   */
  datatype Props = Props(
    arrow: bool,
    arrowType: string,
    boundary: string,
    content: string,
    delay: Timing,
    distance: int,
    duration: Timing,
    flip: bool,
    flipBehavior: string,
    flipOnUpdate: bool,
    followCursor: FollowCursor,
    hideOnClick: HideOnClick,
    ignoreAttributes: bool,
    interactive: bool,
    lazy: bool,
    multiple: bool,
    offset: Offset,
    placement: string,
    popperOptions: nat,
    showOnInit: bool,
    target: string,
    touch: bool,
    touchHold: bool,
    trigger: string,
    wait: bool)

  /** `defaultProps`. The object literal `{}` given as `popperOptions` has identity 0. */
  const DefaultProps: Props := Props(
    arrow := false,
    arrowType := "sharp",
    boundary := "scrollParent",
    content := "",
    delay := Scalar(0),
    distance := 10,
    duration := Pair(Some(325), Some(275)),
    flip := true,
    flipBehavior := "flip",
    flipOnUpdate := false,
    followCursor := FollowCursorOff,
    hideOnClick := HideOnClickTrue,
    ignoreAttributes := false,
    interactive := false,
    lazy := true,
    multiple := false,
    offset := OffsetNumber(0),
    placement := "top",
    popperOptions := 0,
    showOnInit := false,
    target := "",
    touch := true,
    touchHold := false,
    trigger := "mouseenter focus",
    wait := false)

  /** The default `delay` is the scalar 0; `getValue` falls back to it. */
  const DefaultDelay: int := 0

  /** `(defaultProps.duration as [number, number])[1]`, the fallback of both `show` and `hide`. */
  const DefaultDurationFallback: int := 275

  /**
   * `getValue(value, index, defaultValue)`: the entry at `index` of a pair (the default when
   * that entry is null or beyond the pair), or the scalar itself.
   */
  function GetValue(t: Timing, index: nat, default: int): (r: int)
    ensures t.Scalar? ==> r == t.value
    ensures t.Pair? && index == 0 ==> r == (if t.first.Some? then t.first.value else default)
    ensures t.Pair? && index == 1 ==> r == (if t.second.Some? then t.second.value else default)
    ensures t.Pair? && index > 1 ==> r == default
  {
    match t
    case Scalar(v) => v
    case Pair(a, b) =>
      var e := if index == 0 then a else if index == 1 then b else None;
      if e.Some? then e.value else default
  }

  /** The keys of `Props`. */
  datatype PropKey =
    | Arrow | ArrowType | Boundary | Content | Delay | Distance | Duration | Flip
    | FlipBehavior | FlipOnUpdate | FollowCursorKey | HideOnClickKey | IgnoreAttributes
    | Interactive | Lazy | Multiple | OffsetKey | Placement | PopperOptions | ShowOnInit
    | Target | Touch | TouchHold | Trigger | Wait

  /** `POPPER_INSTANCE_DEPENDENCIES`: if `set` changes one of these, the handle is recreated. */
  const PopperInstanceDependencies: seq<PropKey> :=
    [Arrow, ArrowType, Boundary, Distance, Flip, FlipBehavior, FlipOnUpdate, OffsetKey, Placement, PopperOptions]

  predicate IsPopperDependency(k: PropKey)
  {
    k in PopperInstanceDependencies
  }

  /** The argument of `set`: a partial props object; `None` is a key the object does not own. */
  datatype Options = Options(
    arrow: Option<bool>,
    arrowType: Option<string>,
    boundary: Option<string>,
    content: Option<string>,
    delay: Option<Timing>,
    distance: Option<int>,
    duration: Option<Timing>,
    flip: Option<bool>,
    flipBehavior: Option<string>,
    flipOnUpdate: Option<bool>,
    followCursor: Option<FollowCursor>,
    hideOnClick: Option<HideOnClick>,
    ignoreAttributes: Option<bool>,
    interactive: Option<bool>,
    lazy: Option<bool>,
    multiple: Option<bool>,
    offset: Option<Offset>,
    placement: Option<string>,
    popperOptions: Option<nat>,
    showOnInit: Option<bool>,
    target: Option<string>,
    touch: Option<bool>,
    touchHold: Option<bool>,
    trigger: Option<string>,
    wait: Option<bool>)

  /** `{}`. */
  const NoOptions: Options := Options(
    None, None, None, None, None, None, None, None, None, None, None, None, None,
    None, None, None, None, None, None, None, None, None, None, None, None)

  /** `{ content }`, the argument `setContent` passes to `set`. */
  function ContentOptions(content: string): Options
  {
    NoOptions.(content := Some(content))
  }

  function Pick<T>(o: Option<T>, current: T): T
  {
    if o.Some? then o.value else current
  }

  /**
   * `{ ...props, ...options }`: every key the options own overrides the current value. The
   * `ignoreAttributes` rule of `set` (the option if owned, else the previous value) is the same.
   */
  function Merge(p: Props, o: Options): Props
  {
    Props(
      arrow := Pick(o.arrow, p.arrow),
      arrowType := Pick(o.arrowType, p.arrowType),
      boundary := Pick(o.boundary, p.boundary),
      content := Pick(o.content, p.content),
      delay := Pick(o.delay, p.delay),
      distance := Pick(o.distance, p.distance),
      duration := Pick(o.duration, p.duration),
      flip := Pick(o.flip, p.flip),
      flipBehavior := Pick(o.flipBehavior, p.flipBehavior),
      flipOnUpdate := Pick(o.flipOnUpdate, p.flipOnUpdate),
      followCursor := Pick(o.followCursor, p.followCursor),
      hideOnClick := Pick(o.hideOnClick, p.hideOnClick),
      ignoreAttributes := Pick(o.ignoreAttributes, p.ignoreAttributes),
      interactive := Pick(o.interactive, p.interactive),
      lazy := Pick(o.lazy, p.lazy),
      multiple := Pick(o.multiple, p.multiple),
      offset := Pick(o.offset, p.offset),
      placement := Pick(o.placement, p.placement),
      popperOptions := Pick(o.popperOptions, p.popperOptions),
      showOnInit := Pick(o.showOnInit, p.showOnInit),
      target := Pick(o.target, p.target),
      touch := Pick(o.touch, p.touch),
      touchHold := Pick(o.touchHold, p.touchHold),
      trigger := Pick(o.trigger, p.trigger),
      wait := Pick(o.wait, p.wait))
  }

  function Differs<T(==)>(o: Option<T>, current: T): bool
  {
    o.Some? && o.value != current
  }

  /** `hasOwnProperty(options, k) && options[k] !== prevProps[k]`. */
  predicate Changed(o: Options, p: Props, k: PropKey)
  {
    match k
    case Arrow => Differs(o.arrow, p.arrow)
    case ArrowType => Differs(o.arrowType, p.arrowType)
    case Boundary => Differs(o.boundary, p.boundary)
    case Content => Differs(o.content, p.content)
    case Delay => Differs(o.delay, p.delay)
    case Distance => Differs(o.distance, p.distance)
    case Duration => Differs(o.duration, p.duration)
    case Flip => Differs(o.flip, p.flip)
    case FlipBehavior => Differs(o.flipBehavior, p.flipBehavior)
    case FlipOnUpdate => Differs(o.flipOnUpdate, p.flipOnUpdate)
    case FollowCursorKey => Differs(o.followCursor, p.followCursor)
    case HideOnClickKey => Differs(o.hideOnClick, p.hideOnClick)
    case IgnoreAttributes => Differs(o.ignoreAttributes, p.ignoreAttributes)
    case Interactive => Differs(o.interactive, p.interactive)
    case Lazy => Differs(o.lazy, p.lazy)
    case Multiple => Differs(o.multiple, p.multiple)
    case OffsetKey => Differs(o.offset, p.offset)
    case Placement => Differs(o.placement, p.placement)
    case PopperOptions => Differs(o.popperOptions, p.popperOptions)
    case ShowOnInit => Differs(o.showOnInit, p.showOnInit)
    case Target => Differs(o.target, p.target)
    case Touch => Differs(o.touch, p.touch)
    case TouchHold => Differs(o.touchHold, p.touchHold)
    case Trigger => Differs(o.trigger, p.trigger)
    case Wait => Differs(o.wait, p.wait)
  }

  /** `keys.some(prop => hasOwnProperty(options, prop) && options[prop] !== prevProps[prop])`. */
  predicate AnyChanged(keys: seq<PropKey>, o: Options, p: Props)
  {
    |keys| > 0 && (Changed(o, p, keys[0]) || AnyChanged(keys[1..], o, p))
  }

  /** The test `set` applies to decide whether the positioning handle must be recreated. */
  predicate NeedsNewPopper(o: Options, p: Props)
  {
    AnyChanged(PopperInstanceDependencies, o, p)
  }

  /** `.some` over a list holds exactly when one of its keys changed. */
  lemma {:induction false} AnyChangedIff(keys: seq<PropKey>, o: Options, p: Props)
    ensures AnyChanged(keys, o, p) <==> exists i :: 0 <= i < |keys| && Changed(o, p, keys[i])
  {
    if |keys| > 0 {
      AnyChangedIff(keys[1..], o, p);
      if exists i :: 0 <= i < |keys| && Changed(o, p, keys[i]) {
        var i :| 0 <= i < |keys| && Changed(o, p, keys[i]);
        if i > 0 { assert keys[1..][i - 1] == keys[i]; }
      }
    }
  }

  /** The recreation test holds exactly when some dependency key is owned by the options with a new value. */
  lemma NeedsNewPopperIff(o: Options, p: Props)
    ensures NeedsNewPopper(o, p) <==> exists k :: IsPopperDependency(k) && Changed(o, p, k)
  {
    AnyChangedIff(PopperInstanceDependencies, o, p);
    if exists k :: IsPopperDependency(k) && Changed(o, p, k) {
      var k :| IsPopperDependency(k) && Changed(o, p, k);
      var i :| 0 <= i < |PopperInstanceDependencies| && PopperInstanceDependencies[i] == k;
    }
  }

  /** The dependency list is exactly these ten keys, each listed once. */
  lemma DependencyKeys(k: PropKey)
    ensures |PopperInstanceDependencies| == 10
    ensures IsPopperDependency(k) <==>
      (k.Arrow? || k.ArrowType? || k.Boundary? || k.Distance? || k.Flip? || k.FlipBehavior?
       || k.FlipOnUpdate? || k.OffsetKey? || k.Placement? || k.PopperOptions?)
    ensures forall i, j :: 0 <= i < j < 10 ==> PopperInstanceDependencies[i] != PopperInstanceDependencies[j]
  {
  }

  /** Options that change no dependency key never force recreation (whatever else they change). */
  lemma OtherKeysKeepPopper(o: Options, p: Props)
    requires forall k :: Changed(o, p, k) ==> !IsPopperDependency(k)
    ensures !NeedsNewPopper(o, p)
  {
    NeedsNewPopperIff(o, p);
  }

  /** Merging the options of `setContent` replaces the content and nothing else. */
  lemma MergeContent(content: string, p: Props)
    ensures Merge(p, ContentOptions(content)) == p.(content := content)
  {
  }

  /** `setContent` never forces recreation. */
  lemma ContentKeepsPopper(content: string, p: Props)
    ensures !NeedsNewPopper(ContentOptions(content), p)
  {
    forall k | Changed(ContentOptions(content), p, k) ensures !IsPopperDependency(k) {
      assert k.Content?;
    }
    OtherKeysKeepPopper(ContentOptions(content), p);
  }

  /** `set({})` keeps the props as they are. */
  lemma MergeNothing(p: Props)
    ensures Merge(p, NoOptions) == p
  {
  }

  /**
   * The defaults: show and hide durations, the zero delay, and a `duration` pair with a null
   * entry falling back to 275 on both sides.
   */
  lemma DefaultTimings(x: int)
    ensures GetValue(DefaultProps.delay, 0, DefaultDelay) == 0
    ensures GetValue(DefaultProps.delay, 1, DefaultDelay) == 0
    ensures GetValue(DefaultProps.duration, 0, DefaultDurationFallback) == 325
    ensures GetValue(DefaultProps.duration, 1, DefaultDurationFallback) == 275
    ensures GetValue(Pair(None, Some(x)), 0, DefaultDurationFallback) == 275
    ensures GetValue(Pair(Some(x), None), 1, DefaultDurationFallback) == 275
  {
  }
}
