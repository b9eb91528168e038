/**
 * Trigger wiring of one instance (src/createTippy.ts, `on`, `addTriggersToReference`,
 * `removeTriggersFromReference`): which `(eventType, handler, options)` records the
 * whitespace-separated `trigger` prop, the delegation `target` and `touchHold` produce.
 */
module Wiring {
  import opened Props
  import opened Strings

  /** The handlers the instance attaches to its event-listeners target. */
  datatype Handler = OnTrigger | OnMouseLeave | OnBlur | OnDelegateShow | OnDelegateHide

  /** One entry of `listeners`; `passive` is the `PASSIVE` options object, otherwise `false`. */
  datatype Listener = Listener(eventType: string, handler: Handler, passive: bool)

  /** The event type a `focus` trigger is paired with: `focusout` on IE, `blur` elsewhere. */
  function BlurEventType(isIE: bool): string
  {
    if isIE then "focusout" else "blur"
  }

  /** `trigger.trim().split(' ')`. */
  function Tokens(trigger: string): seq<string>
  {
    Split(Trim(trigger))
  }

  /** The two passive touch listeners, added only with `touchHold` and no `target`. */
  function TouchHoldWiring(p: Props): seq<Listener>
  {
    if p.touchHold && p.target == "" then
      [Listener("touchstart", OnTrigger, true), Listener("touchend", OnMouseLeave, true)]
    else []
  }

  /** The listeners one trigger token adds. */
  function TokenWiring(t: string, p: Props, isIE: bool): seq<Listener>
  {
    if t == "manual" then []
    else if p.target == "" then
      [Listener(t, OnTrigger, false)]
      + (if t == "mouseenter" then [Listener("mouseleave", OnMouseLeave, false)]
         else if t == "focus" then [Listener(BlurEventType(isIE), OnBlur, false)]
         else [])
    else if t == "mouseenter" then
      [Listener("mouseover", OnDelegateShow, false), Listener("mouseout", OnDelegateHide, false)]
    else if t == "focus" then
      [Listener("focusin", OnDelegateShow, false), Listener("focusout", OnDelegateHide, false)]
    else if t == "click" then
      [Listener("click", OnDelegateShow, false)]
    else []
  }

  /** The listeners of a list of tokens, in order (the `forEach` of `addTriggersToReference`). */
  function WireTokens(ts: seq<string>, p: Props, isIE: bool): seq<Listener>
  {
    if ts == [] then [] else TokenWiring(ts[0], p, isIE) + WireTokens(ts[1..], p, isIE)
  }

  /** Everything `addTriggersToReference` records for the props `p`, in order. */
  function WiringOf(p: Props, isIE: bool): seq<Listener>
  {
    TouchHoldWiring(p) + WireTokens(Tokens(p.trigger), p, isIE)
  }

  /** The listeners a record list stands for, as the DOM target holds them. */
  function ListenerSet(ls: seq<Listener>): set<Listener>
  {
    set l | l in ls
  }

  /** The listeners of two record lists together. */
  lemma ListenerSetAppend(a: seq<Listener>, b: seq<Listener>)
    ensures ListenerSet(a + b) == ListenerSet(a) + ListenerSet(b)
  {
  }

  /** Wiring one more token appends exactly that token's listeners (the loop step). */
  lemma {:induction false} WireTokensAppend(ts: seq<string>, t: string, p: Props, isIE: bool)
    ensures WireTokens(ts + [t], p, isIE) == WireTokens(ts, p, isIE) + TokenWiring(t, p, isIE)
  {
    if ts == [] {
      assert [t][1..] == [];
    } else {
      assert (ts + [t])[1..] == ts[1..] + [t];
      WireTokensAppend(ts[1..], t, p, isIE);
    }
  }

  /** A listener is wired for a list of tokens exactly when one of the tokens wires it. */
  lemma {:induction false} InWireTokens(ts: seq<string>, p: Props, isIE: bool, l: Listener)
    ensures l in WireTokens(ts, p, isIE) <==> exists i :: 0 <= i < |ts| && l in TokenWiring(ts[i], p, isIE)
  {
    if ts != [] {
      InWireTokens(ts[1..], p, isIE, l);
      if exists i :: 0 <= i < |ts| && l in TokenWiring(ts[i], p, isIE) {
        var i :| 0 <= i < |ts| && l in TokenWiring(ts[i], p, isIE);
        if i > 0 { assert ts[1..][i - 1] == ts[i]; }
      }
      if l in WireTokens(ts[1..], p, isIE) {
        var i :| 0 <= i < |ts[1..]| && l in TokenWiring(ts[1..][i], p, isIE);
        assert ts[i + 1] == ts[1..][i];
      }
    }
  }

  /** The records one token can produce, by shape. */
  lemma TokenWiringShape(t: string, p: Props, isIE: bool, l: Listener)
    requires l in TokenWiring(t, p, isIE)
    ensures !l.passive && t != "manual"
    ensures p.target == "" ==>
      || l == Listener(t, OnTrigger, false)
      || (t == "mouseenter" && l == Listener("mouseleave", OnMouseLeave, false))
      || (t == "focus" && l == Listener(BlurEventType(isIE), OnBlur, false))
    ensures p.target != "" ==>
      || (t == "mouseenter" && (l == Listener("mouseover", OnDelegateShow, false) || l == Listener("mouseout", OnDelegateHide, false)))
      || (t == "focus" && (l == Listener("focusin", OnDelegateShow, false) || l == Listener("focusout", OnDelegateHide, false)))
      || (t == "click" && l == Listener("click", OnDelegateShow, false))
  {
  }

  /** A listener is wired exactly when the touch pair or one of the trigger tokens wires it. */
  lemma InWiring(p: Props, isIE: bool, l: Listener)
    ensures l in WiringOf(p, isIE) <==>
      l in TouchHoldWiring(p) || exists t :: t in Tokens(p.trigger) && l in TokenWiring(t, p, isIE)
  {
    var ts := Tokens(p.trigger);
    InWireTokens(ts, p, isIE, l);
    if exists t :: t in ts && l in TokenWiring(t, p, isIE) {
      var t :| t in ts && l in TokenWiring(t, p, isIE);
      var i :| 0 <= i < |ts| && ts[i] == t;
    }
  }

  /** A word without white space is its own single token. */
  lemma TokensOfWord(w: string)
    requires |w| > 0 && forall i :: 0 <= i < |w| ==> !IsWhitespace(w[i])
    ensures Tokens(w) == [w]
  {
    assert TrimStart(w) == w;
    assert TrimEnd(w) == w;
    assert ' ' !in w;
  }

  /** A trigger padded with Unicode space separators still names just its token. */
  lemma TokensIgnoreSpaceSeparators()
    ensures Tokens("\U{3000}mouseenter\U{2009}\U{3000}") == ["mouseenter"]
  {
    TrimSpaceSeparators();
    assert forall i :: 0 <= i < 10 ==> !IsWhitespace("mouseenter"[i]);
    TokensOfWord("mouseenter");
  }

  /** Two words joined by one space are exactly those two tokens. */
  lemma TokensOfTwoWords(a: string, b: string)
    requires |a| > 0 && forall i :: 0 <= i < |a| ==> !IsWhitespace(a[i])
    requires |b| > 0 && forall i :: 0 <= i < |b| ==> !IsWhitespace(b[i])
    ensures Tokens(a + " " + b) == [a, b]
  {
    var s := a + " " + b;
    assert !IsWhitespace(s[0]) by { assert s[0] == a[0]; }
    assert !IsWhitespace(s[|s| - 1]) by { assert s[|s| - 1] == b[|b| - 1]; }
    assert Trim(s) == s;
    assert s[..|a|] == a && s[|a| + 1..] == b;
    assert ' ' !in a;
    SplitAt(s, |a|);
    assert ' ' !in b;
  }

  /** `trigger: 'manual'` without the touch pair wires nothing. */
  lemma ManualWiresNothing(p: Props, isIE: bool)
    requires p.trigger == "manual" && !(p.touchHold && p.target == "")
    ensures WiringOf(p, isIE) == []
  {
    TokensOfWord("manual");
    assert WireTokens(["manual"], p, isIE) == TokenWiring("manual", p, isIE) + WireTokens([], p, isIE);
  }

  /**
   * Without a `target`, every token other than "manual" adds its own trigger listener, a
   * `mouseenter` token also `mouseleave` and a `focus` token also the blur listener.
   */
  lemma NonDelegateAdds(p: Props, isIE: bool, t: string)
    requires p.target == "" && t in Tokens(p.trigger) && t != "manual"
    ensures Listener(t, OnTrigger, false) in WiringOf(p, isIE)
    ensures t == "mouseenter" ==> Listener("mouseleave", OnMouseLeave, false) in WiringOf(p, isIE)
    ensures t == "focus" ==> Listener(BlurEventType(isIE), OnBlur, false) in WiringOf(p, isIE)
  {
    assert Listener(t, OnTrigger, false) in TokenWiring(t, p, isIE);
    InWiring(p, isIE, Listener(t, OnTrigger, false));
    if t == "mouseenter" {
      assert Listener("mouseleave", OnMouseLeave, false) in TokenWiring(t, p, isIE);
      InWiring(p, isIE, Listener("mouseleave", OnMouseLeave, false));
    }
    if t == "focus" {
      assert Listener(BlurEventType(isIE), OnBlur, false) in TokenWiring(t, p, isIE);
      InWiring(p, isIE, Listener(BlurEventType(isIE), OnBlur, false));
    }
  }

  /** Without a `target`, nothing else is wired: each record comes from the touch pair or a token. */
  lemma NonDelegateOnly(p: Props, isIE: bool, l: Listener)
    requires p.target == "" && l in WiringOf(p, isIE)
    ensures || (p.touchHold && l == Listener("touchstart", OnTrigger, true))
            || (p.touchHold && l == Listener("touchend", OnMouseLeave, true))
            || (l.eventType in Tokens(p.trigger) && l.eventType != "manual" && l == Listener(l.eventType, OnTrigger, false))
            || ("mouseenter" in Tokens(p.trigger) && l == Listener("mouseleave", OnMouseLeave, false))
            || ("focus" in Tokens(p.trigger) && l == Listener(BlurEventType(isIE), OnBlur, false))
  {
    InWiring(p, isIE, l);
    if l !in TouchHoldWiring(p) {
      var t :| t in Tokens(p.trigger) && l in TokenWiring(t, p, isIE);
      TokenWiringShape(t, p, isIE, l);
    }
  }

  /** The listeners a token wires with a `target`: the delegate handlers on the container events. */
  lemma DelegateTokenWiring(t: string, p: Props, isIE: bool)
    requires p.target != ""
    ensures t == "mouseenter" ==> TokenWiring(t, p, isIE) == [Listener("mouseover", OnDelegateShow, false), Listener("mouseout", OnDelegateHide, false)]
    ensures t == "focus" ==> TokenWiring(t, p, isIE) == [Listener("focusin", OnDelegateShow, false), Listener("focusout", OnDelegateHide, false)]
    ensures t == "click" ==> TokenWiring(t, p, isIE) == [Listener("click", OnDelegateShow, false)]
  {
  }

  /**
   * With a `target`, `mouseenter` becomes `mouseover` + `mouseout`, `focus` becomes
   * `focusin` + `focusout` and `click` stays `click`, all on the delegate handlers.
   */
  lemma DelegateAdds(p: Props, isIE: bool, t: string, l: Listener)
    requires p.target != "" && t in Tokens(p.trigger)
    requires || (t == "mouseenter" && l in [Listener("mouseover", OnDelegateShow, false), Listener("mouseout", OnDelegateHide, false)])
             || (t == "focus" && l in [Listener("focusin", OnDelegateShow, false), Listener("focusout", OnDelegateHide, false)])
             || (t == "click" && l == Listener("click", OnDelegateShow, false))
    ensures l in WiringOf(p, isIE)
  {
    DelegateTokenWiring(t, p, isIE);
    InWiring(p, isIE, l);
  }

  /** With a `target`, only those delegate records are wired, each from its token. */
  lemma DelegateOnly(p: Props, isIE: bool, l: Listener)
    requires p.target != "" && l in WiringOf(p, isIE)
    ensures || ("mouseenter" in Tokens(p.trigger) && (l == Listener("mouseover", OnDelegateShow, false) || l == Listener("mouseout", OnDelegateHide, false)))
            || ("focus" in Tokens(p.trigger) && (l == Listener("focusin", OnDelegateShow, false) || l == Listener("focusout", OnDelegateHide, false)))
            || ("click" in Tokens(p.trigger) && l == Listener("click", OnDelegateShow, false))
  {
    InWiring(p, isIE, l);
    var t :| t in Tokens(p.trigger) && l in TokenWiring(t, p, isIE);
    TokenWiringShape(t, p, isIE, l);
  }

  /** The passive touch listeners are wired exactly when `touchHold` is set and there is no `target`. */
  lemma TouchPairIff(p: Props, isIE: bool)
    ensures Listener("touchstart", OnTrigger, true) in WiringOf(p, isIE) <==> p.touchHold && p.target == ""
    ensures Listener("touchend", OnMouseLeave, true) in WiringOf(p, isIE) <==> p.touchHold && p.target == ""
  {
    var ts := Tokens(p.trigger);
    forall t | t in ts ensures Listener("touchstart", OnTrigger, true) !in TokenWiring(t, p, isIE)
                        && Listener("touchend", OnMouseLeave, true) !in TokenWiring(t, p, isIE) {
      if Listener("touchstart", OnTrigger, true) in TokenWiring(t, p, isIE) {
        TokenWiringShape(t, p, isIE, Listener("touchstart", OnTrigger, true));
      }
      if Listener("touchend", OnMouseLeave, true) in TokenWiring(t, p, isIE) {
        TokenWiringShape(t, p, isIE, Listener("touchend", OnMouseLeave, true));
      }
    }
    InWiring(p, isIE, Listener("touchstart", OnTrigger, true));
    InWiring(p, isIE, Listener("touchend", OnMouseLeave, true));
  }

  /** Without a `target`, `mouseenter` wires the trigger and `mouseleave` listeners. */
  lemma MouseenterWiring(p: Props, isIE: bool)
    requires p.target == ""
    ensures TokenWiring("mouseenter", p, isIE) == [Listener("mouseenter", OnTrigger, false), Listener("mouseleave", OnMouseLeave, false)]
  {
  }

  /** Without a `target`, `focus` wires the trigger and blur listeners. */
  lemma FocusWiring(p: Props, isIE: bool)
    requires p.target == ""
    ensures TokenWiring("focus", p, isIE) == [Listener("focus", OnTrigger, false), Listener(BlurEventType(isIE), OnBlur, false)]
  {
  }

  /** The default trigger string splits into `mouseenter` and `focus`. */
  lemma DefaultTokens()
    ensures Tokens(DefaultProps.trigger) == ["mouseenter", "focus"]
  {
    assert DefaultProps.trigger == "mouseenter" + " " + "focus";
    assert forall i :: 0 <= i < 10 ==> !IsWhitespace("mouseenter"[i]);
    assert forall i :: 0 <= i < 5 ==> !IsWhitespace("focus"[i]);
    TokensOfTwoWords("mouseenter", "focus");
  }

  /** A `mouseenter focus` trigger without `target` or `touchHold` wires four listeners. */
  lemma MouseenterFocusWiring(p: Props, isIE: bool)
    requires Tokens(p.trigger) == ["mouseenter", "focus"] && p.target == "" && !p.touchHold
    ensures WiringOf(p, isIE) ==
      [Listener("mouseenter", OnTrigger, false), Listener("mouseleave", OnMouseLeave, false),
       Listener("focus", OnTrigger, false), Listener(BlurEventType(isIE), OnBlur, false)]
  {
    MouseenterWiring(p, isIE);
    FocusWiring(p, isIE);
    WireTokensAppend(["mouseenter"], "focus", p, isIE);
    WireTokensAppend([], "mouseenter", p, isIE);
    assert [] + ["mouseenter"] == ["mouseenter"];
    assert ["mouseenter"] + ["focus"] == ["mouseenter", "focus"];
  }

  /** The default `trigger: 'mouseenter focus'` wires exactly four listeners. */
  lemma DefaultWiring(isIE: bool)
    ensures WiringOf(DefaultProps, isIE) ==
      [Listener("mouseenter", OnTrigger, false), Listener("mouseleave", OnMouseLeave, false),
       Listener("focus", OnTrigger, false), Listener(BlurEventType(isIE), OnBlur, false)]
  {
    DefaultTokens();
    MouseenterFocusWiring(DefaultProps, isIE);
  }
}
