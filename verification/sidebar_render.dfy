/** The render decisions the sidebar components take from the controller:
    how `Sidebar` renders (static panel, mobile sheet or desktop panel) and
    when `SidebarMenuButton`'s tooltip is hidden. */
module SidebarRender {
  import opened Wrappers
  import opened Props
  import opened SidebarProvider

  datatype Side = Left | Right
  /** `Plain` is the variant the code calls `"sidebar"`. */
  datatype Variant = Plain | Floating | Inset
  datatype Collapsible = Offcanvas | Icon | NoCollapse

  function CollapsibleText(c: Collapsible): (t: string)
    ensures |t| > 0
  {
    match c
    case Offcanvas => "offcanvas"
    case Icon => "icon"
    case NoCollapse => "none"
  }

  /** `Sidebar`'s own props; each may be left undefined. */
  datatype SidebarProps = SidebarProps(
    side: Option<Side>,
    variant: Option<Variant>,
    collapsible: Option<Collapsible>)

  /** What `Sidebar` renders. */
  datatype Rendering =
    | StaticPanel
    | MobileSheet(open: bool, side: Side)
    | DesktopPanel(dataState: string, dataCollapsible: string, variant: Variant, side: Side)

  /** `Sidebar`: reads the controller (failing without a provider, even for
      a non-collapsible sidebar), then picks the render mode. Defaults are
      left side, plain variant and off-canvas collapsing. */
  function Sidebar(context: Option<SidebarState>, props: SidebarProps): (r: Result<Rendering, string>)
    ensures context.None? <==> r.Failure?
    ensures r.Failure? ==> r.error == MissingProviderMessage
    ensures r.Success? && props.collapsible == Some(NoCollapse) ==> r.value == StaticPanel
    ensures r.Success? && props.collapsible != Some(NoCollapse) && context.value.isMobile ==>
              r.value == MobileSheet(context.value.openMobile, props.side.GetOr(Left))
    ensures r.Success? && props.collapsible != Some(NoCollapse) && !context.value.isMobile ==>
              && r.value.DesktopPanel?
              && r.value.dataState == ExpansionText(State(context.value))
              && (r.value.dataCollapsible != "" <==> !Open(context.value))
              && r.value.dataCollapsible
                 == (if Open(context.value) then "" else CollapsibleText(props.collapsible.GetOr(Offcanvas)))
              && r.value.variant == props.variant.GetOr(Plain)
              && r.value.side == props.side.GetOr(Left)
  {
    match UseSidebar(context)
    case Failure(e) => Failure(e)
    case Success(s) =>
      var side := props.side.GetOr(Left);
      var variant := props.variant.GetOr(Plain);
      var collapsible := props.collapsible.GetOr(Offcanvas);
      if collapsible == NoCollapse then Success(StaticPanel)
      else if s.isMobile then Success(MobileSheet(s.openMobile, side))
      else
        var state := State(s);
        Success(DesktopPanel(
          ExpansionText(state),
          if state == Collapsed then CollapsibleText(collapsible) else "",
          variant, side))
  }

  /** The sheet's `onOpenChange` is `setOpenMobile` itself: closing or
      opening the sheet sets the mobile flag and the next render shows it. */
  lemma SheetBoundToMobileFlag(s: SidebarState, props: SidebarProps, b: bool)
    requires s.isMobile && props.collapsible != Some(NoCollapse)
    ensures Sidebar(Some(SetOpenMobile(s, Value(b)).state), props)
            == Success(MobileSheet(b, props.side.GetOr(Left)))
  {
  }

  /** A collapsed desktop sidebar with default props is marked off-canvas;
      an expanded one carries an empty marker. */
  lemma DefaultDesktopMarker(s: SidebarState)
    requires !s.isMobile
    ensures Open(s) ==> Sidebar(Some(s), SidebarProps(None, None, None))
                        == Success(DesktopPanel("expanded", "", Plain, Left))
    ensures !Open(s) ==> Sidebar(Some(s), SidebarProps(None, None, None))
                         == Success(DesktopPanel("collapsed", "offcanvas", Plain, Left))
  {
  }

  /** The `tooltip` prop of a menu button: a text or a bag of content props. */
  datatype TooltipSpec = TooltipText(text: string) | TooltipBag(bag: PropBag)

  /** The rule for hiding a menu-button tooltip: on mobile always, on
      desktop exactly while the sidebar is open. */
  predicate TooltipHidden(s: SidebarState)
    ensures s.isMobile ==> TooltipHidden(s)
    ensures !s.isMobile ==> (TooltipHidden(s) <==> Open(s))
  {
    State(s) != Collapsed || s.isMobile
  }

  /** `SidebarMenuButton`'s tooltip: none when the prop is absent or the empty
      text; otherwise the content props, where the caller's bag is spread
      after `side`, `align` and `hidden`. */
  function MenuButtonTooltip(context: Option<SidebarState>, tooltip: Option<TooltipSpec>)
    : (r: Result<Option<PropBag>, string>)
    ensures context.None? <==> r.Failure?
    ensures r.Success? ==> (r.value.None? <==> tooltip.None? || tooltip == Some(TooltipText("")))
    ensures r.Success? && r.value.Some? ==> "hidden" in r.value.value
    ensures r.Success? && r.value.Some? ==>
              r.value.value["hidden"]
              == (if tooltip.value.TooltipBag? && Lookup(tooltip.value.bag, "hidden") != Undefined
                  then tooltip.value.bag["hidden"] else Bool(TooltipHidden(context.value)))
    ensures r.Success? && r.value.Some? ==>
              && "side" in r.value.value && "align" in r.value.value
              && r.value.value["side"]
                 == (if tooltip.value.TooltipBag? && Lookup(tooltip.value.bag, "side") != Undefined
                     then tooltip.value.bag["side"] else Str("right"))
              && r.value.value["align"]
                 == (if tooltip.value.TooltipBag? && Lookup(tooltip.value.bag, "align") != Undefined
                     then tooltip.value.bag["align"] else Str("center"))
  {
    match UseSidebar(context)
    case Failure(e) => Failure(e)
    case Success(s) =>
      match tooltip
      case None => Success(None)
      case Some(spec) =>
        if spec == TooltipText("") then Success(None)
        else
          var given := match spec
            case TooltipText(t) => map["children" := Str(t)]
            case TooltipBag(b) => b;
          var base := map["side" := Str("right"), "align" := Str("center"), "hidden" := Bool(TooltipHidden(s))];
          Success(Some(Merge(base, given)))
  }

  /** A text tooltip is shown only while the desktop sidebar is collapsed,
      and it always carries its text. */
  lemma TextTooltipVisibility(s: SidebarState, text: string)
    requires text != ""
    ensures var r := MenuButtonTooltip(Some(s), Some(TooltipText(text)));
            && r.Success? && r.value.Some?
            && r.value.value["hidden"] == Bool(!(!Open(s) && !s.isMobile))
            && r.value.value["children"] == Str(text)
  {
  }

  /** A caller's defined `hidden` in the bag overrides the rule. */
  lemma BagHiddenOverrides(s: SidebarState, bag: PropBag, h: bool)
    requires "hidden" in bag && bag["hidden"] == Bool(h)
    ensures var r := MenuButtonTooltip(Some(s), Some(TooltipBag(bag)));
            r.Success? && r.value.Some? && r.value.value["hidden"] == Bool(h)
  {
  }
}
