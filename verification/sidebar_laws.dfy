/** Properties of the layout state controller that relate several
    transitions: initial state, the cookie text, controlled mode, toggling
    parity, and the independence of the desktop and mobile flags. */
module SidebarLaws {
  import opened Wrappers
  import Text
  import opened SidebarProvider
  import Runs
  import Listeners

  /** With no `defaultOpen` and no `open` prop, the sidebar starts expanded,
      and the mobile sheet starts closed. */
  lemma InitialStateExpanded(props: ProviderProps)
    requires props.defaultOpen.None? && props.openProp.None?
    ensures State(Init(props)) == Expanded
    ensures !Init(props).openMobile
  {
  }

  /** An explicit `defaultOpen` is taken as is, including `false`. */
  lemma InitialStateFollowsDefault(props: ProviderProps, b: bool)
    requires props.defaultOpen == Some(b) && props.openProp.None?
    ensures Open(Init(props)) == b
  {
  }

  /** The derived state is `expanded` exactly when the observed value is
      open, whatever the mobile flag or the mode. */
  lemma StateIgnoresMobileFlags(s: SidebarState, openMobile: bool, isMobile: bool)
    ensures State(s) == Expanded <==> Open(s)
    ensures State(s.(openMobile := openMobile, isMobile := isMobile)) == State(s)
    ensures ExpansionText(State(s)) == (if Open(s) then "expanded" else "collapsed")
  {
  }

  lemma MaxAgeText()
    ensures Text.DecimalText(CookieMaxAge) == "604800"
  {
    assert Text.DecimalText(6) == "6";
    assert Text.DecimalText(60) == "60";
    assert Text.DecimalText(604) == "604";
    assert Text.DecimalText(6048) == "6048";
    assert Text.DecimalText(60480) == "60480";
    assert Text.DecimalText(604800) == "604800";
  }

  /** The exact cookie text for an open sidebar: a week's max-age over the
      whole site. */
  lemma CookieTextOpen()
    ensures Cookie(true) == "sidebar_state=true; path=/; max-age=604800"
  {
    MaxAgeText();
    assert "sidebar_state" + "=" + "true" == "sidebar_state=true";
    assert "sidebar_state=true" + "; path=/; max-age=" == "sidebar_state=true; path=/; max-age=";
    assert "sidebar_state=true; path=/; max-age=" + "604800" == "sidebar_state=true; path=/; max-age=604800";
  }

  /** The exact cookie text for a collapsed sidebar. */
  lemma CookieTextClosed()
    ensures Cookie(false) == "sidebar_state=false; path=/; max-age=604800"
  {
    MaxAgeText();
    assert "sidebar_state" + "=" + "false" == "sidebar_state=false";
    assert "sidebar_state=false" + "; path=/; max-age=" == "sidebar_state=false; path=/; max-age=";
    assert "sidebar_state=false; path=/; max-age=" + "604800" == "sidebar_state=false; path=/; max-age=604800";
  }

  /** The cookie records the value: different values give different texts. */
  lemma CookieDeterminesValue(a: bool, b: bool)
    requires Cookie(a) == Cookie(b)
    ensures a == b
  {
  }

  /** Uncontrolled with no `open` prop, `setOpen` makes the observed value
      the resolved one. */
  lemma UncontrolledSetOpenTakesEffect(s: SidebarState, u: Update, doc: bool)
    requires !s.props.hasOnOpenChange && s.props.openProp.None?
    ensures Open(SetOpen(s, u, doc).state) == Resolve(u, Open(s))
  {
  }

  /** Controlled mode: `setOpen` reports the value and changes nothing
      itself; once the owner feeds that value back as the `open` prop, the
      observed value is the reported one. */
  lemma ControlledFeedback(s: SidebarState, u: Update, doc: bool)
    requires s.props.hasOnOpenChange
    ensures var r := SetOpen(s, u, doc);
            && r.state == s
            && r.effects[0] == NotifyOpenChange(Resolve(u, Open(s)))
            && Open(Apply(r.state, OpenPropEvent(Some(r.effects[0].open)), doc).state) == Resolve(u, Open(s))
  {
  }

  /** In controlled mode a desktop toggle only asks the owner for the
      flipped value; the internal flag is not touched. */
  lemma ControlledToggleOnlyNotifies(s: SidebarState, doc: bool)
    requires s.props.hasOnOpenChange && !s.isMobile
    ensures Toggle(s, doc).state == s
    ensures Toggle(s, doc).effects[0] == NotifyOpenChange(!Open(s))
  {
  }

  /** An `open` prop without `onOpenChange` pins the observed value:
      `setOpen` writes the internal flag (and the cookie) but the sidebar
      does not move. */
  lemma OpenPropWithoutCallbackPins(s: SidebarState, u: Update, doc: bool)
    requires !s.props.hasOnOpenChange && s.props.openProp.Some?
    ensures Open(SetOpen(s, u, doc).state) == Open(s)
    ensures SetOpen(s, u, doc).state.internalOpen == Resolve(u, Open(s))
  {
  }

  /** Without `onOpenChange` and with the mode unchanged, two toggles give
      back the observed value and the mobile flag; with no `open` prop they
      give back the whole state. */
  lemma ToggleTwice(s: SidebarState, doc: bool)
    requires !s.props.hasOnOpenChange
    ensures var t := Toggle(Toggle(s, doc).state, doc).state;
            && Open(t) == Open(s)
            && t.openMobile == s.openMobile
            && (s.props.openProp.None? ==> t == s)
  {
  }

  /** With an `open` prop but no `onOpenChange`, two toggles need not give
      back the internal flag: both write the negation of the pinned value. */
  lemma ToggleTwiceInternalDrift()
    ensures var s := SidebarState(ProviderProps(None, Some(true), false), true, false, false);
            Toggle(Toggle(s, true).state, true).state.internalOpen != s.internalOpen
  {
  }

  /** A run takes its first event, then runs the rest. */
  lemma RunFirst(s: SidebarState, events: seq<Event>, doc: bool)
    requires |events| > 0
    ensures var first := Apply(s, events[0], doc);
            var rest := Run(first.state, events[1..], doc);
            Run(s, events, doc) == Step(rest.state, first.effects + rest.effects)
  {
  }

  /** Desktop, uncontrolled, no `open` prop: after `n` toggles the observed
      value is the original one exactly when `n` is even, the mobile flag is
      untouched, and each toggle wrote one cookie when a document exists. */
  lemma {:induction false} ToggleParity(s: SidebarState, n: nat, doc: bool)
    requires !s.props.hasOnOpenChange && s.props.openProp.None? && !s.isMobile
    ensures var r := Run(s, Toggles(n), doc);
            && (Open(r.state) == Open(s) <==> n % 2 == 0)
            && r.state.openMobile == s.openMobile
            && r.state.props == s.props && !r.state.isMobile
            && CookieWrites(r.effects) == (if doc then n else 0)
    decreases n
  {
    if n > 0 {
      var t := Toggle(s, doc);
      DesktopToggleStep(s, doc);
      var rest := Run(t.state, Toggles(n - 1), doc);
      assert Toggles(n)[0] == ToggleEvent;
      assert Toggles(n)[1..] == Toggles(n - 1);
      RunFirst(s, Toggles(n), doc);
      assert Run(s, Toggles(n), doc) == Step(rest.state, t.effects + rest.effects);
      ToggleParity(t.state, n - 1, doc);
      CookieWritesAppend(t.effects, rest.effects);
    }
  }

  /** One uncontrolled desktop toggle with no `open` prop: the internal
      flag flips and, with a document, one cookie is written. */
  lemma DesktopToggleStep(s: SidebarState, doc: bool)
    requires !s.props.hasOnOpenChange && s.props.openProp.None? && !s.isMobile
    ensures Toggle(s, doc).state == s.(internalOpen := !s.internalOpen)
    ensures CookieWrites(Toggle(s, doc).effects) == (if doc then 1 else 0)
  {
    var t := Toggle(s, doc);
    if doc {
      assert t.effects == [WriteCookie(Cookie(!Open(s)))];
      assert CookieWrites(t.effects) == 1 + CookieWrites([]);
    } else {
      assert t.effects == [];
    }
  }

  /** Events a descendant can cause while the layout is mobile without
      calling `setOpen` directly. */
  predicate MobileLocal(ev: Event) {
    ev.ToggleEvent? || ev.KeyDownEvent? || ev.SetOpenMobileEvent?
  }

  /** In mobile mode, toggles, shortcuts and sheet changes never touch the
      desktop flag or the props, and never write the cookie. */
  lemma {:induction false} MobileEventsKeepDesktop(s: SidebarState, events: seq<Event>, doc: bool)
    requires s.isMobile
    requires forall i :: 0 <= i < |events| ==> MobileLocal(events[i])
    ensures var r := Run(s, events, doc);
            && r.state.internalOpen == s.internalOpen
            && r.state.props == s.props
            && r.state.isMobile
            && CookieWrites(r.effects) == 0
    decreases |events|
  {
    if |events| > 0 {
      var first := Apply(s, events[0], doc);
      assert first.state.internalOpen == s.internalOpen && first.state.props == s.props && first.state.isMobile;
      assert CookieWrites(first.effects) == 0 by {
        assert forall i :: 0 <= i < |first.effects| ==> !first.effects[i].WriteCookie?;
        if |first.effects| > 0 {
          assert first.effects == [PreventDefault];
        }
      }
      RunFirst(s, events, doc);
      MobileEventsKeepDesktop(first.state, events[1..], doc);
      CookieWritesAppend(first.effects, Run(first.state, events[1..], doc).effects);
    }
  }

  /** Switching to mobile, interacting there, and switching back gives the
      desktop view the same observed value it had before. */
  lemma ModeRoundTripKeepsDesktop(s: SidebarState, events: seq<Event>, doc: bool)
    requires !s.isMobile
    requires forall i :: 0 <= i < |events| ==> MobileLocal(events[i])
    ensures var r := Run(s, [ViewportEvent(true)] + events + [ViewportEvent(false)], doc);
            && r.state.internalOpen == s.internalOpen
            && Open(r.state) == Open(s)
            && !r.state.isMobile
  {
    var mobile := s.(isMobile := true);
    Runs.FoldAppend(StepOf(doc), s, [ViewportEvent(true)], events);
    Runs.FoldAppend(StepOf(doc), s, [ViewportEvent(true)] + events, [ViewportEvent(false)]);
    RunFirst(s, [ViewportEvent(true)], doc);
    assert Run(s, [ViewportEvent(true)], doc).state == mobile;
    MobileEventsKeepDesktop(mobile, events, doc);
  }

  /** The shortcut is case-sensitive and needs Meta or Ctrl: key `B` with
      both Meta and Ctrl held, and a bare `b`, change nothing. */
  lemma NonShortcutsIgnored(s: SidebarState, doc: bool)
    ensures KeyDown(s, KeyEvent("B", true, true), doc) == Step(s, [])
    ensures KeyDown(s, KeyEvent("b", false, false), doc) == Step(s, [])
  {
  }

  /** Ctrl+b on mobile: default prevented, the mobile sheet flips once, and
      nothing else happens. */
  lemma CtrlBOnMobile(s: SidebarState, doc: bool)
    requires s.isMobile
    ensures KeyDown(s, KeyEvent("b", false, true), doc)
            == Step(s.(openMobile := !s.openMobile), [PreventDefault])
  {
  }

  /** A trigger click without an `onClick` prop, on desktop, does what the
      keyboard shortcut does except for `preventDefault`; on mobile it adds a
      blur exactly when it opens the sheet. */
  lemma TriggerAgreesWithShortcut(s: SidebarState, doc: bool)
    ensures var click := TriggerClick(s, false, doc);
            var key := KeyDown(s, KeyEvent("b", false, true), doc);
            && click.state == key.state
            && key.effects == [PreventDefault] + Toggle(s, doc).effects
            && click.effects == (if s.isMobile && !s.openMobile then [Blur] else []) + key.effects[1..]
  {
  }

  /** Two trigger clicks without a callback restore the observed value and
      the mobile flag when the mode does not change in between. */
  lemma TriggerTwice(s: SidebarState, hasOnClick: bool, doc: bool)
    requires !s.props.hasOnOpenChange
    ensures var t := TriggerClick(TriggerClick(s, hasOnClick, doc).state, hasOnClick, doc).state;
            Open(t) == Open(s) && t.openMobile == s.openMobile
  {
    ToggleTwice(s, doc);
  }

  /** Mounting the provider adds exactly one window listener, and its
      cleanup gives the window's listeners back as they were. */
  lemma KeyListenerMountThenCleanup(window: Listeners.Registry, id: nat)
    requires Listeners.Listener("keydown", id) !in window
    ensures |MountKeyListener(window, id)| == |window| + 1
    ensures CleanupKeyListener(MountKeyListener(window, id), id) == window
  {
    Listeners.AddThenRemove(window, Listeners.Listener("keydown", id));
  }

  /** No provider: `useSidebar` fails with the documented message. */
  lemma MissingProviderFails()
    ensures UseSidebar(None) == Failure("useSidebar must be used within a SidebarProvider.")
  {
  }
}
