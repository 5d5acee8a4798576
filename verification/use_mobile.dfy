/** The `useIsMobile` hook: a boolean that is true while the viewport is
    narrower than the mobile breakpoint, kept current by a media-query
    change listener that lives exactly as long as the hook's owner. */
module UseMobile {
  import opened Wrappers
  import Text
  import Listeners

  /** Viewport widths below this many CSS pixels are mobile. */
  const Breakpoint: nat := 768

  /** The hook's state: its current answer, the listeners registered on the
      media query list it watches, and the change listener it installed. */
  datatype MobileHook = MobileHook(
    isMobile: bool,
    query: Listeners.Registry,
    onChange: Option<Listeners.Listener>)

  /** The value the hook assigns for a given `window.innerWidth`. */
  predicate IsMobileWidth(width: int) {
    width < Breakpoint
  }

  /** The media query text: the breakpoint minus one, as a maximum width. */
  function MediaQuery(): (q: string)
    ensures |q| > 0 && q[0] == '('
  {
    "(max-width: " + Text.DecimalText(Breakpoint - 1) + "px)"
  }

  /** The hook before its owner mounts: not mobile, whatever the viewport,
      and no listener yet. */
  function Create(query: Listeners.Registry): (h: MobileHook)
    ensures !h.isMobile
    ensures h.onChange.None? && h.query == query
  {
    MobileHook(false, query, None)
  }

  /** On mount: register one change listener (callback identity `id`) on the
      media query list and measure the viewport once. */
  function Mount(h: MobileHook, width: int, id: nat): (r: MobileHook)
    ensures r.isMobile <==> width < Breakpoint
    ensures r.onChange == Some(Listeners.Listener("change", id))
    ensures h.query <= r.query
    ensures r.onChange.value in r.query
    ensures forall l :: l in r.query && l != r.onChange.value ==> l in h.query
  {
    var l := Listeners.Listener("change", id);
    MobileHook(IsMobileWidth(width), Listeners.Add(h.query, l), Some(l))
  }

  /** A media query change event: the hook re-reads `window.innerWidth` and
      ignores whether the event itself says the query matches. */
  function OnChange(h: MobileHook, width: int, eventMatches: bool): (r: MobileHook)
    ensures r.isMobile <==> width < Breakpoint
    ensures r.query == h.query && r.onChange == h.onChange
  {
    h.(isMobile := IsMobileWidth(width))
  }

  /** On cleanup: remove the listener that mount installed, and only it. */
  function Cleanup(h: MobileHook): (r: MobileHook)
    ensures h.onChange.Some? ==> h.onChange.value !in r.query
    ensures forall l :: l in h.query && Some(l) != h.onChange ==> l in r.query
    ensures r.query <= h.query
    ensures r.onChange.None? && r.isMobile == h.isMobile
  {
    match h.onChange
    case None => h
    case Some(l) => MobileHook(h.isMobile, Listeners.Remove(h.query, l), None)
  }

  /** The query text is exactly `(max-width: 767px)`. */
  lemma MediaQueryText()
    ensures MediaQuery() == "(max-width: 767px)"
  {
    assert Text.DecimalText(767) == Text.DecimalText(76) + ['7'];
    assert Text.DecimalText(76) == Text.DecimalText(7) + ['6'];
  }

  /** For whole-pixel widths, the media query's own threshold and the hook's
      comparison agree: a width satisfies `max-width: 767px` exactly when it
      is below the breakpoint. */
  lemma QueryAgreesWithBreakpoint(width: int)
    ensures width <= Text.ParseDecimal(Text.DecimalText(Breakpoint - 1)) <==> IsMobileWidth(width)
  {
    Text.ParseDecimalOfText(Breakpoint - 1);
  }

  /** The boundary: 767 pixels is mobile, 768 is not. */
  lemma BreakpointBoundary(h: MobileHook, id: nat)
    ensures Mount(h, 767, id).isMobile
    ensures !Mount(h, 768, id).isMobile
  {
  }

  /** Whatever the change event reports, the hook ends up with the same state. */
  lemma OnChangeIgnoresEvent(h: MobileHook, width: int)
    ensures OnChange(h, width, true) == OnChange(h, width, false)
  {
  }

  /** Mounting with a fresh callback registers exactly one listener, and
      cleanup removes that same listener, restoring the query's listeners. */
  lemma MountThenCleanup(h: MobileHook, width: int, id: nat)
    requires h.onChange.None?
    requires Listeners.Listener("change", id) !in h.query
    ensures |Mount(h, width, id).query| == |h.query| + 1
    ensures Cleanup(Mount(h, width, id)).query == h.query
  {
    Listeners.AddThenRemove(h.query, Listeners.Listener("change", id));
  }

  /** Change events between mount and cleanup leave the listener set alone. */
  lemma ChangesKeepListener(h: MobileHook, w0: int, w1: int, m: bool, id: nat)
    requires Listeners.Listener("change", id) !in h.query
    ensures Cleanup(OnChange(Mount(h, w0, id), w1, m)).query == h.query
  {
    Listeners.AddThenRemove(h.query, Listeners.Listener("change", id));
  }
}
