/** The `SidebarProvider` layout state controller: the desktop open flag
    (internal or controlled), the mobile open flag, the responsive mode, and
    the transitions `setOpen`, `setOpenMobile`, `toggleSidebar` and the
    keyboard shortcut. Each transition is a pure function returning the next
    state together with the side effects the code performs, in order. */
module SidebarProvider {
  import opened Wrappers
  import Text
  import Listeners
  import Runs

  const CookieName: string := "sidebar_state"
  /** Seven days, in seconds. */
  const CookieMaxAge: nat := 60 * 60 * 24 * 7
  const KeyboardShortcut: string := "b"
  const MissingProviderMessage: string := "useSidebar must be used within a SidebarProvider."

  /** The provider's own props. Only the presence of `onOpenChange` matters
      here; calling it is an effect. */
  datatype ProviderProps = ProviderProps(
    defaultOpen: Option<bool>,
    openProp: Option<bool>,
    hasOnOpenChange: bool)

  /** The provider's state: props, the internal desktop flag, the mobile
      flag, and the current answer of the mobile-breakpoint hook. */
  datatype SidebarState = SidebarState(
    props: ProviderProps,
    internalOpen: bool,
    openMobile: bool,
    isMobile: bool)

  /** Argument of `setOpen` / `setOpenMobile`: a value, or a function of the
      current value. */
  datatype Update = Value(v: bool) | Updater(f: bool -> bool)

  /** Side effects, in the order the code performs them. */
  datatype Effect =
    | NotifyOpenChange(open: bool)   // call of the `onOpenChange` prop
    | WriteCookie(cookie: string)    // assignment to `document.cookie`
    | PreventDefault                 // `event.preventDefault()` on a key event
    | CallOnClick                    // the trigger's own `onClick` prop
    | Blur                           // `currentTarget.blur()` on the trigger

  /** The next state and the effects performed on the way there. */
  datatype Step = Step(state: SidebarState, effects: seq<Effect>)

  /** A keyboard event, as far as the shortcut handler reads it. */
  datatype KeyEvent = KeyEvent(key: string, metaKey: bool, ctrlKey: bool)

  /** The derived `state()`. */
  datatype Expansion = Expanded | Collapsed

  function ExpansionText(e: Expansion): string {
    match e
    case Expanded => "expanded"
    case Collapsed => "collapsed"
  }

  /** A fresh provider: the internal flag is `defaultOpen ?? true`, the
      mobile flag is closed, and the breakpoint hook has not mounted yet. */
  function Init(props: ProviderProps): (s: SidebarState)
    ensures s.internalOpen == (props.defaultOpen != Some(false))
    ensures !s.openMobile && !s.isMobile && s.props == props
  {
    SidebarState(props, props.defaultOpen.GetOr(true), false, false)
  }

  /** The observed `open()`: the `open` prop when defined, else the internal flag. */
  function Open(s: SidebarState): (b: bool)
    ensures s.props.openProp.Some? ==> b == s.props.openProp.value
    ensures s.props.openProp.None? ==> b == s.internalOpen
  {
    s.props.openProp.GetOr(s.internalOpen)
  }

  /** The derived `state()`: it follows the observed value only. */
  function State(s: SidebarState): (e: Expansion)
    ensures e == Expanded <==> Open(s)
    ensures ExpansionText(e) == (if Open(s) then "expanded" else "collapsed")
  {
    if Open(s) then Expanded else Collapsed
  }

  /** The value `setOpen` stores: a plain value regardless of the current
      one, or the updater applied to the current one. */
  function Resolve(u: Update, current: bool): (b: bool)
    ensures u.Value? ==> b == u.v
    ensures u.Updater? ==> b == u.f(current)
  {
    match u
    case Value(v) => v
    case Updater(f) => f(current)
  }

  /** The cookie text written for an open value. */
  function Cookie(open: bool): (c: string)
    ensures Text.IsPrefix(CookieName + "=", c)
  {
    CookieName + "=" + (if open then "true" else "false")
      + "; path=/; max-age=" + Text.DecimalText(CookieMaxAge)
  }

  function CookieEffects(hasDocument: bool, open: bool): seq<Effect> {
    if hasDocument then [WriteCookie(Cookie(open))] else []
  }

  /** `setOpen(u)`: resolve `u` against the observed value; with an
      `onOpenChange` prop, report the value and keep the internal flag,
      otherwise store it; then, when a document exists, write the cookie. */
  function SetOpen(s: SidebarState, u: Update, hasDocument: bool): (r: Step)
    ensures r.state.props == s.props && r.state.openMobile == s.openMobile && r.state.isMobile == s.isMobile
    ensures |r.effects| == (if s.props.hasOnOpenChange then 1 else 0) + (if hasDocument then 1 else 0)
    ensures s.props.hasOnOpenChange ==>
              r.state.internalOpen == s.internalOpen && r.effects[0] == NotifyOpenChange(Resolve(u, Open(s)))
    ensures !s.props.hasOnOpenChange ==> r.state.internalOpen == Resolve(u, Open(s))
    ensures hasDocument ==> r.effects[|r.effects| - 1] == WriteCookie(Cookie(Resolve(u, Open(s))))
    ensures !hasDocument ==> forall i :: 0 <= i < |r.effects| ==> !r.effects[i].WriteCookie?
  {
    var v := Resolve(u, Open(s));
    var next := if s.props.hasOnOpenChange then s else s.(internalOpen := v);
    var notify := if s.props.hasOnOpenChange then [NotifyOpenChange(v)] else [];
    Step(next, notify + CookieEffects(hasDocument, v))
  }

  /** `setOpenMobile(u)`: the mobile flag's own signal setter; no cookie. */
  function SetOpenMobile(s: SidebarState, u: Update): (r: Step)
    ensures r.state == s.(openMobile := Resolve(u, s.openMobile))
    ensures r.effects == []
  {
    Step(s.(openMobile := Resolve(u, s.openMobile)), [])
  }

  /** `toggleSidebar()`: on mobile flip the mobile flag only; on desktop
      call `setOpen` with the negating updater. */
  function Toggle(s: SidebarState, hasDocument: bool): (r: Step)
    ensures s.isMobile ==> r.state == s.(openMobile := !s.openMobile) && r.effects == []
    ensures !s.isMobile ==> r.state.openMobile == s.openMobile
    ensures !s.isMobile && hasDocument ==> WriteCookie(Cookie(!Open(s))) in r.effects
    ensures !s.isMobile ==> r == SetOpen(s, Value(!Open(s)), hasDocument)
  {
    if s.isMobile then Step(s.(openMobile := !s.openMobile), [])
    else SetOpen(s, Updater(b => !b), hasDocument)
  }

  /** The shortcut: key exactly `b` (case-sensitive) with Meta or Ctrl held. */
  predicate IsShortcut(e: KeyEvent)
    ensures e.key == "b" && (e.metaKey || e.ctrlKey) ==> IsShortcut(e)
    ensures e.key != "b" || (!e.metaKey && !e.ctrlKey) ==> !IsShortcut(e)
  {
    e.key == KeyboardShortcut && (e.metaKey || e.ctrlKey)
  }

  /** The window `keydown` handler: on the shortcut, prevent the browser's
      default and toggle once; any other key does nothing. */
  function KeyDown(s: SidebarState, e: KeyEvent, hasDocument: bool): (r: Step)
    ensures IsShortcut(e) ==> r.state == Toggle(s, hasDocument).state
                               && r.effects == [PreventDefault] + Toggle(s, hasDocument).effects
    ensures !IsShortcut(e) ==> r == Step(s, [])
  {
    if IsShortcut(e) then
      var t := Toggle(s, hasDocument);
      Step(t.state, [PreventDefault] + t.effects)
    else Step(s, [])
  }

  /** `SidebarTrigger`'s click handler: the trigger's own `onClick`, a blur
      when about to open the mobile sheet, then one toggle. */
  function TriggerClick(s: SidebarState, hasOnClick: bool, hasDocument: bool): (r: Step)
    ensures r.state == Toggle(s, hasDocument).state
    ensures (Blur in r.effects) <==> s.isMobile && !s.openMobile
    ensures (CallOnClick in r.effects) <==> hasOnClick
    ensures r.effects == (if hasOnClick then [CallOnClick] else [])
                         + (if s.isMobile && !s.openMobile then [Blur] else [])
                         + Toggle(s, hasDocument).effects
  {
    var pre := (if hasOnClick then [CallOnClick] else [])
               + (if s.isMobile && !s.openMobile then [Blur] else []);
    var t := Toggle(s, hasDocument);
    assert Blur !in t.effects && CallOnClick !in t.effects;
    Step(t.state, pre + t.effects)
  }

  /** `useSidebar()`: the nearest provider's state, or the documented error. */
  function UseSidebar(context: Option<SidebarState>): (r: Result<SidebarState, string>)
    ensures context.None? <==> r == Failure(MissingProviderMessage)
    ensures context.Some? ==> r == Success(context.value)
  {
    match context
    case None => Failure(MissingProviderMessage)
    case Some(s) => Success(s)
  }

  /** The window listeners of the provider: the keydown handler is added on
      mount and that same handler removed on cleanup. */
  function MountKeyListener(window: Listeners.Registry, id: nat): (r: Listeners.Registry)
    ensures Listeners.Listener("keydown", id) in r
    ensures window <= r && |r - window| <= 1
  {
    Listeners.Add(window, Listeners.Listener("keydown", id))
  }

  function CleanupKeyListener(window: Listeners.Registry, id: nat): (r: Listeners.Registry)
    ensures Listeners.Listener("keydown", id) !in r
    ensures r == window - {Listeners.Listener("keydown", id)}
  {
    Listeners.Remove(window, Listeners.Listener("keydown", id))
  }

  /** Everything that can happen to a mounted provider. */
  datatype Event =
    | ToggleEvent
    | SetOpenEvent(u: Update)
    | SetOpenMobileEvent(u: Update)
    | KeyDownEvent(e: KeyEvent)
    | ViewportEvent(mobile: bool)         // the breakpoint hook changes its answer
    | OpenPropEvent(open: Option<bool>)   // the owner passes a new `open` prop

  function Apply(s: SidebarState, ev: Event, hasDocument: bool): Step {
    match ev
    case ToggleEvent => Toggle(s, hasDocument)
    case SetOpenEvent(u) => SetOpen(s, u, hasDocument)
    case SetOpenMobileEvent(u) => SetOpenMobile(s, u)
    case KeyDownEvent(e) => KeyDown(s, e, hasDocument)
    case ViewportEvent(m) => Step(s.(isMobile := m), [])
    case OpenPropEvent(o) => Step(s.(props := s.props.(openProp := o)), [])
  }

  /** `Apply` as a step function of the event loop. */
  function StepOf(hasDocument: bool): (SidebarState, Event) -> (SidebarState, seq<Effect>) {
    (s, ev) => var t := Apply(s, ev, hasDocument); (t.state, t.effects)
  }

  /** Runs events in order, collecting their effects. */
  function Run(s: SidebarState, events: seq<Event>, hasDocument: bool): Step {
    var r := Runs.Fold(StepOf(hasDocument), s, events);
    Step(r.0, r.1)
  }

  function Toggles(n: nat): (events: seq<Event>)
    ensures |events| == n
    ensures forall i :: 0 <= i < n ==> events[i].ToggleEvent?
  {
    if n == 0 then [] else [ToggleEvent] + Toggles(n - 1)
  }

  predicate IsCookieWrite(e: Effect) {
    e.WriteCookie?
  }

  function CookieWrites(effects: seq<Effect>): nat {
    if |effects| == 0 then 0
    else (if IsCookieWrite(effects[0]) then 1 else 0) + CookieWrites(effects[1..])
  }

  lemma CookieWritesAppend(a: seq<Effect>, b: seq<Effect>)
    ensures CookieWrites(a + b) == CookieWrites(a) + CookieWrites(b)
  {
    if |a| == 0 {
      assert a + b == b;
    } else {
      assert (a + b)[1..] == a[1..] + b;
      CookieWritesAppend(a[1..], b);
    }
  }
}
