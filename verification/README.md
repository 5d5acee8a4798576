# Sidebar layout controller, route matcher, Slot and tooltip timing — a Dafny model

This project models the logic of a SolidJS UI kit's sidebar and its helpers. The kit is otherwise declarative markup. Six modules model five source files:

- **SidebarProvider** (`src/components/ui/sidebar.tsx`) is the layout state controller. Its state is the desktop `open` flag, the mobile `openMobile` flag and the `isMobile` mode. The desktop flag is either the internal signal or the controlled `open` prop. The transitions are `setOpen` (a value or an updater), `setOpenMobile`, `toggleSidebar`, the Ctrl/Cmd+`b` keydown handler and the trigger's click handler. Each transition is a pure function that returns the next state and an ordered list of effects: calls of `onOpenChange`, writes of the `sidebar_state` cookie, `preventDefault`, the trigger's own `onClick`, and `blur`. `useSidebar` returns the provider's state or the error "useSidebar must be used within a SidebarProvider.". **SidebarLaws** holds the properties that span several transitions.
- **SidebarRender** (same file) models how `Sidebar` picks its render mode: a static panel, a mobile sheet bound to `openMobile`, or a desktop panel with `data-state` and `data-collapsible`. It also models when `SidebarMenuButton`'s tooltip is hidden.
- **UseMobile** (`src/hooks/use-mobile.ts`) models the breakpoint hook. It is `false` before mount and `innerWidth < 768` from mount on. It registers one media-query change listener on mount and removes that listener on cleanup.
- **Routes** (`src/components/layouts/sidebar.tsx`) models the ordered route table and the `activeRoute` scan. It proves that no pathname matches two entries, so the scan order decides nothing.
- **Slot** (`src/lib/utils/slot.tsx`) models child resolution and the prop merge of `Slot`, and models `SlotSimple`.
- **Tooltip** (`src/components/ui/tooltip.tsx`) models delay resolution through `??`: the tooltip's own delay, then the provider context, then the constants 0 and 300.

Supporting modules:

- `Wrappers` provides `Option` (undefined-or-value, with `??`) and `Result`.
- `Text` renders naturals in decimal and parses them back. It also holds prefix facts about strings.
- `Props` defines property bags and `mergeProps`.
- `Listeners` models event-listener registries.
- `Runs` folds a step function over a sequence of events.

Behaviour of the code that the model keeps:

- The controller counts as controlled when an `onOpenChange` prop is present, not when an `open` prop is present. With an `open` prop and no `onOpenChange`, `setOpen` stores its value in the internal flag, but the observed value stays pinned to the prop. So two toggles give back the observed value but not always the internal flag (`SidebarLaws.ToggleTwiceInternalDrift`).
- Every `setOpen` writes the cookie when a document exists, in both branches. Nothing reads the cookie back. The initial state comes only from `defaultOpen ?? true`.
- `Slot` merges with `mergeProps(elementProps, others)`. The owner's value wins on a shared key unless it is `undefined`. `class` is overwritten, not concatenated.
- A `Slot` whose resolved child is an empty list, or a list headed by `undefined`, reads `.props` of `undefined`. A list headed by `null` reads `.props` of `null`. All of these throw and are modelled as the error `PropsOfNothing`. A list headed by `false` renders a `div` that carries the owner's props. A list headed by `""` or `0` renders a `span` around that value, although the value alone renders nothing, because only the list is tested for truthiness.

## Model

| member | source | states |
|---|---|---|
| Text.DecimalText | src/components/ui/sidebar.tsx:84 | a number placed in a template literal renders as digits only, with no leading zero |
| Text.ParseDecimalOfText | src/components/ui/sidebar.tsx:84 | the rendered digits read back as the same number, so rendering loses nothing |
| Props.Merge | src/lib/utils/slot.tsx:52 | `mergeProps` keeps the keys of both bags; on each key the later bag's value wins unless it is undefined, otherwise the earlier value stands |
| Props.LaterDefinedWins | src/lib/utils/slot.tsx:52 | a defined owner value always survives the merge |
| Props.EarlierKeptWhenLaterUndefined | src/lib/utils/slot.tsx:52 | a key the owner lacks or leaves undefined keeps the child's value |
| Props.MergeIdempotent | src/lib/utils/slot.tsx:52 | merging the same owner bag a second time changes nothing |
| Props.MergeEmpty | src/lib/utils/slot.tsx:46-52 | an empty bag on either side gives the other bag back, as with the child's `props || {}` |
| Listeners.AddThenRemove | src/hooks/use-mobile.ts:14-18 | adding a fresh listener adds exactly one; removing that same listener restores the target |
| UseMobile.Create | src/hooks/use-mobile.ts:6 | before mount the hook says not mobile, whatever the viewport |
| UseMobile.Mount | src/hooks/use-mobile.ts:8-16 | mount registers one `change` listener and sets mobile iff `innerWidth < 768` |
| UseMobile.OnChange | src/hooks/use-mobile.ts:10-12 | a change event re-reads the width; listeners are untouched |
| UseMobile.Cleanup | src/hooks/use-mobile.ts:18 | cleanup removes the listener mount installed and no other |
| UseMobile.MediaQuery | src/hooks/use-mobile.ts:9 | the query text is a parenthesised media feature |
| UseMobile.MediaQueryText | src/hooks/use-mobile.ts:3-9 | the query is exactly `(max-width: 767px)`, the breakpoint minus one |
| UseMobile.QueryAgreesWithBreakpoint | src/hooks/use-mobile.ts:9-11 | for whole-pixel widths, satisfying the query's threshold is the same as being below 768 |
| UseMobile.BreakpointBoundary | src/hooks/use-mobile.ts:3-16 | width 767 is mobile and width 768 is desktop |
| UseMobile.OnChangeIgnoresEvent | src/hooks/use-mobile.ts:10-12 | the event's own match result has no influence on the new state |
| UseMobile.MountThenCleanup | src/hooks/use-mobile.ts:14-18 | mount adds exactly one listener and cleanup restores the query's listener set |
| UseMobile.ChangesKeepListener | src/hooks/use-mobile.ts:10-18 | change events between mount and cleanup do not disturb that restoration |
| SidebarProvider.Init | src/components/ui/sidebar.tsx:66-70 | the internal flag starts as `defaultOpen ?? true` (open unless `defaultOpen` is `false`); the mobile flag starts closed; the hook starts non-mobile |
| SidebarProvider.Open | src/components/ui/sidebar.tsx:72 | the observed value is the `open` prop when defined, otherwise the internal flag |
| SidebarProvider.State | src/components/ui/sidebar.tsx:119 | `state` is `expanded` iff the observed value is open, with text `expanded`/`collapsed` |
| SidebarProvider.Resolve | src/components/ui/sidebar.tsx:75 | a plain value is taken regardless of the current value; an updater is applied to the current observed value |
| SidebarProvider.Cookie | src/components/ui/sidebar.tsx:84 | the cookie text starts with `sidebar_state=` |
| SidebarProvider.SetOpen | src/components/ui/sidebar.tsx:74-86 | an updater is applied to the observed value; with `onOpenChange`, the only change is one call with that value; otherwise the internal flag becomes it; then exactly one cookie write of that value when a document exists, and none otherwise |
| SidebarProvider.SetOpenMobile | src/components/ui/sidebar.tsx:67 | the mobile setter changes only the mobile flag and writes no cookie |
| SidebarProvider.Toggle | src/components/ui/sidebar.tsx:89-97 | on mobile, flips only the mobile flag with no effects; on desktop, is exactly `setOpen(!open())`: the same state change, `onOpenChange` call and single cookie write |
| SidebarProvider.IsShortcut | src/components/ui/sidebar.tsx:102-104 | the shortcut is exactly the lower-case key `b` with Meta or Ctrl held |
| SidebarProvider.KeyDown | src/components/ui/sidebar.tsx:101-108 | the shortcut (`b`, with Meta or Ctrl) prevents the default and toggles exactly once; any other event changes nothing and performs nothing |
| SidebarProvider.TriggerClick | src/components/ui/sidebar.tsx:284-291 | the effects are, in order: the caller's `onClick` when supplied, a blur exactly when about to open the mobile sheet, then all of one toggle's effects; the state is the toggle's |
| SidebarLaws.TriggerAgreesWithShortcut | src/components/ui/sidebar.tsx:101-108 | without an `onClick`, a trigger click reaches the same state as Ctrl+b, and its effects are the shortcut's minus `preventDefault`, with a blur in front when it opens the mobile sheet |
| SidebarLaws.TriggerTwice | src/components/ui/sidebar.tsx:284-291 | with no `onOpenChange`, two trigger clicks restore the observed value and the mobile flag |
| SidebarProvider.UseSidebar | src/components/ui/sidebar.tsx:48-54 | with no provider the result is the documented error, otherwise the provider's state |
| SidebarProvider.MountKeyListener | src/components/ui/sidebar.tsx:111 | mounting adds the keydown handler and at most one listener |
| SidebarProvider.CleanupKeyListener | src/components/ui/sidebar.tsx:113-115 | cleanup removes that same keydown handler and nothing else |
| SidebarLaws.KeyListenerMountThenCleanup | src/components/ui/sidebar.tsx:111-115 | mount adds exactly one window listener and cleanup restores the window's listeners |
| SidebarLaws.InitialStateExpanded | src/components/ui/sidebar.tsx:67-72 | with no `defaultOpen` and no `open` prop the sidebar starts expanded with the mobile sheet closed |
| SidebarLaws.InitialStateFollowsDefault | src/components/ui/sidebar.tsx:70-72 | an explicit `defaultOpen`, `false` included, is the starting value |
| SidebarLaws.StateIgnoresMobileFlags | src/components/ui/sidebar.tsx:119 | `state` is `expanded` iff the observed value is open, independent of `openMobile` and the mode |
| SidebarLaws.MaxAgeText | src/components/ui/sidebar.tsx:31 | the max-age 60·60·24·7 renders as `604800` |
| SidebarLaws.CookieTextOpen | src/components/ui/sidebar.tsx:83-85 | the cookie for open is exactly `sidebar_state=true; path=/; max-age=604800` |
| SidebarLaws.CookieTextClosed | src/components/ui/sidebar.tsx:83-85 | the cookie for closed is exactly `sidebar_state=false; path=/; max-age=604800` |
| SidebarLaws.CookieDeterminesValue | src/components/ui/sidebar.tsx:84 | different values give different cookie texts |
| SidebarLaws.UncontrolledSetOpenTakesEffect | src/components/ui/sidebar.tsx:74-80 | uncontrolled with no `open` prop, the observed value becomes the resolved one |
| SidebarLaws.ControlledFeedback | src/components/ui/sidebar.tsx:72-77 | controlled `setOpen` leaves the state unchanged and reports the value; feeding it back as the `open` prop makes it observed |
| SidebarLaws.ControlledToggleOnlyNotifies | src/components/ui/sidebar.tsx:89-97 | a controlled desktop toggle leaves the state unchanged and first reports the flipped value |
| SidebarLaws.OpenPropWithoutCallbackPins | src/components/ui/sidebar.tsx:72-80 | with an `open` prop but no `onOpenChange`, `setOpen` writes the internal flag but the observed value does not move |
| SidebarLaws.ToggleTwice | src/components/ui/sidebar.tsx:89-97 | with no `onOpenChange` and the mode unchanged, two toggles restore the observed value and the mobile flag; with no `open` prop they restore the whole state |
| SidebarLaws.ToggleTwiceInternalDrift | src/components/ui/sidebar.tsx:72-95 | a concrete state where two toggles do not restore the internal flag (pinned `open` prop, no callback) |
| SidebarLaws.DesktopToggleStep | src/components/ui/sidebar.tsx:74-95 | an uncontrolled desktop toggle with no `open` prop flips the internal flag and writes one cookie when a document exists |
| SidebarLaws.ToggleParity | src/components/ui/sidebar.tsx:89-97 | after n desktop toggles the observed value is the original iff n is even; the mobile flag is untouched; exactly n cookies are written when a document exists |
| SidebarLaws.MobileEventsKeepDesktop | src/components/ui/sidebar.tsx:89-97 | in mobile mode, any sequence of toggles, shortcuts and sheet changes keeps the desktop flag and props and writes no cookie |
| SidebarLaws.ModeRoundTripKeepsDesktop | src/components/ui/sidebar.tsx:89-97 | switching to mobile, interacting there, and switching back leaves the desktop value as it was |
| SidebarLaws.NonShortcutsIgnored | src/components/ui/sidebar.tsx:102-105 | upper-case `B` and an unmodified `b` change nothing |
| SidebarLaws.CtrlBOnMobile | src/components/ui/sidebar.tsx:101-108 | Ctrl+b on mobile prevents the default and flips only the mobile sheet |
| SidebarLaws.MissingProviderFails | src/components/ui/sidebar.tsx:48-54 | outside a provider `useSidebar` fails with "useSidebar must be used within a SidebarProvider." |
| SidebarRender.Sidebar | src/components/ui/sidebar.tsx:164-223 | fails iff there is no provider; `collapsible = none` gives a static panel in either mode; on mobile, a sheet bound to `openMobile`; on desktop, `data-state` follows the state, and `data-collapsible` is the `collapsible` text (default `offcanvas`) when collapsed and `""` when expanded; defaults are left side and the `sidebar` variant |
| SidebarRender.SheetBoundToMobileFlag | src/components/ui/sidebar.tsx:191-194 | the sheet's change handler is `setOpenMobile`, so the next render shows the value it set |
| SidebarRender.DefaultDesktopMarker | src/components/ui/sidebar.tsx:166-223 | with default props, collapsed desktop is marked `offcanvas` and expanded desktop carries `""` |
| SidebarRender.TooltipHidden | src/components/ui/sidebar.tsx:669 | on mobile the tooltip is always hidden; on desktop it is hidden exactly while the sidebar is open |
| SidebarRender.MenuButtonTooltip | src/components/ui/sidebar.tsx:658-671 | no tooltip for an absent or empty-text `tooltip` prop; otherwise content props where `hidden`, `side` and `align` take the caller bag's defined value, else the hiding rule, `right` and `center` |
| SidebarRender.TextTooltipVisibility | src/components/ui/sidebar.tsx:660-671 | a text tooltip is hidden unless the sidebar is collapsed and not mobile, and carries its text |
| SidebarRender.BagHiddenOverrides | src/components/ui/sidebar.tsx:669-670 | a defined `hidden` in the caller's bag, spread after, overrides the rule |
| Routes.Matches | src/components/layouts/sidebar.tsx:43-48 | an entry always matches its own path; an exact entry matches nothing else; a prefix entry also matches every path below `path + "/"` |
| Routes.FirstMatch | src/components/layouts/sidebar.tsx:42-54 | the result is absent iff no entry matches; otherwise it is the key of a matching entry with no earlier match |
| Routes.ScanRoutes | src/components/layouts/sidebar.tsx:42-54 | the loop returns the first matching entry's key, in table order, or nothing |
| Routes.ActiveRoute | src/components/layouts/sidebar.tsx:39-55 | over the configured table, the active route is a given key iff that key's own entry matches |
| Routes.KeysDistinct | src/components/layouts/sidebar.tsx:26-33 | the table's keys are distinct |
| Routes.EntriesDisjoint | src/components/layouts/sidebar.tsx:26-48 | no pathname matches two configured entries |
| Routes.AtMostOneEntryMatches | src/components/layouts/sidebar.tsx:26-48 | two matching entries for one pathname are the same entry |
| Routes.ActiveIffMatches | src/components/layouts/sidebar.tsx:26-55 | a key is active iff its own entry matches, so scan order decides nothing |
| Routes.ScanOrderIrrelevant | src/components/layouts/sidebar.tsx:42-52 | scanning the same entries in any order gives the same answer |
| Routes.ActiveItemsAtMostOne | src/components/layouts/sidebar.tsx:68-173 | each menu item is active iff its route matches, and at most one item is active |
| Routes.PageBelowPrefixRoute | src/components/layouts/sidebar.tsx:48 | `/cluster/helm/x` and `/cluster/helm` both activate `helm` |
| Routes.ExtensionWithoutSlashInactive | src/components/layouts/sidebar.tsx:48 | a path that extends a prefix route's path by anything but `/` does not activate it |
| Routes.SiblingPathInactive | src/components/layouts/sidebar.tsx:48-54 | `/cluster/helmet` activates nothing |
| Routes.NoneIffNothingMatches | src/components/layouts/sidebar.tsx:42-54 | no route is active iff no configured entry matches |
| Routes.HomeOnlyAtRoot | src/components/layouts/sidebar.tsx:27-45 | `home` is active iff the pathname is exactly `/` |
| Slot.Falsy | src/lib/utils/slot.tsx:36 | lists and elements are truthy even when empty; `undefined` and `null` are falsy; text is falsy iff empty |
| Slot.FlattenItems | src/lib/utils/slot.tsx:31 | resolved lists hold no nested lists, and a non-list head stays first |
| Slot.ResolveChildren | src/lib/utils/slot.tsx:31 | resolution keeps non-lists as they are, flattens lists, and keeps truthiness |
| Slot.FlattenIdempotent | src/lib/utils/slot.tsx:31 | resolving twice is resolving once |
| Slot.Others | src/lib/utils/slot.tsx:29 | the owner bag without `children` and `ref`, everything else unchanged |
| Slot.FirstElement | src/lib/utils/slot.tsx:39 | a list stands for its first item, or `undefined` when empty; any other child stands for itself |
| Slot.ElementProps | src/lib/utils/slot.tsx:46 | reading `.props` fails exactly on `undefined` and `null`; an element's defined `props` are used as they are; any other value gives the empty bag |
| Slot.DomNodeRendersOwnerProps | src/lib/utils/slot.tsx:46-62 | a DOM node with no `props` and no truthy `type` or `component` (for example `div`, `span`, `a`) re-renders as a `div` with exactly the owner's props and `ref` |
| Slot.DomNodeAgreesWithSimple | src/lib/utils/slot.tsx:28-79 | on such a DOM node, `Slot` gives the same `div` attributes and `ref` as `SlotSimple` |
| Slot.ButtonNodeRendersTypeTag | src/lib/utils/slot.tsx:46-62 | a DOM node with a truthy `type`, such as a button (`"submit"`), re-renders under that name with the owner's props, not as a `div` |
| Slot.FalsyPrimitiveHeadRendersSpan | src/lib/utils/slot.tsx:36-43 | truthiness is tested on the list, not its head: `["", …]` and `[0, …]` render a `span` around the head, while `""` or `0` alone renders nothing |
| Slot.ElementType | src/lib/utils/slot.tsx:47 | the rendered type is a non-empty `type`, else a non-empty `component`, else `div` |
| Slot.Render | src/lib/utils/slot.tsx:28-67 | falsy child renders nothing; failure exactly for an empty list or a `null`/`undefined` head; text or number is wrapped in a span with the owner's other props; an element is re-rendered with its type and the owner's `ref` |
| Slot.RenderSimple | src/lib/utils/slot.tsx:71-79 | always a `div` with the owner's props except `children`/`ref`, the owner's ref, and the children as given |
| Slot.ElementMerge | src/lib/utils/slot.tsx:46-62 | defined owner values win; child-only or owner-undefined keys keep the child's value; `children` and `ref` come only from the child; no other keys appear |
| Slot.ClassOverwritten | src/lib/utils/slot.tsx:52 | owner `{class:a, title:x}` over child `{class:b, title:y}` gives `{class:a, title:x}`, with no concatenation |
| Slot.ListUsesFirst | src/lib/utils/slot.tsx:39 | a list with a truthy non-list head renders exactly as that head alone; the rest is ignored |
| Slot.EmptyListFails | src/lib/utils/slot.tsx:39-46 | an empty list is truthy and fails reading `.props` of `undefined` |
| Slot.FalseHeadRendersDiv | src/lib/utils/slot.tsx:39-47 | a list headed by `false` renders a `div` with the owner's props |
| Tooltip.Provider | src/components/ui/tooltip.tsx:23-29 | `delayDuration = prop ?? 0` and `skipDelayDuration = prop ?? 300` |
| Tooltip.UseContext | src/components/ui/tooltip.tsx:12-15 | with no provider the context is `{0, 300}` |
| Tooltip.Resolve | src/components/ui/tooltip.tsx:54-58 | open and close delays are the tooltip's own when defined, else the context's `delayDuration`; the skip delay always comes from the context |
| Tooltip.EmptyProviderIsDefault | src/components/ui/tooltip.tsx:12-28 | a provider with no props times tooltips like no provider |
| Tooltip.ExplicitZeroKept | src/components/ui/tooltip.tsx:56-57 | an explicit `0` delay is kept, not replaced |
| Tooltip.CloseDelayFromDelayDuration | src/components/ui/tooltip.tsx:57 | the default close delay is `delayDuration`, not `skipDelayDuration` |
| Tooltip.SidebarTooltipTiming | src/components/ui/sidebar.tsx:133 | under the sidebar's zero-delay provider, tooltips open and close at once and skip after 300 ms |

## Left out

- JSX markup, CSS class strings and `cn`/`cva` class composition are styling only.
- The Solid runtime is not modelled: signals, memos, `Show`, `Dynamic`, the internals of `splitProps` and `mergeProps` (their results are modelled by `Slot.Others` and `Props.Merge`), and reactive recomputation and its timing. Reactive reads are plain record fields.
- Browser APIs appear only as inputs or effects:
  - `document.cookie`: the write is the `WriteCookie` effect, and whether `document` exists is the `hasDocument` parameter.
  - `window.innerWidth` is a parameter.
  - `matchMedia` and `addEventListener`/`removeEventListener` are modelled as a listener registry.
  - `preventDefault` and `blur` are effects.
- Reading the cookie back and restoring state are left out, because the code does neither.
- JavaScript numbers are integers here. Widths and delays are whole numbers. `window.innerWidth` is itself a whole number, but the CSS viewport width that the media query tests can be fractional, for example 767.5 under zoom. For such widths the query's `change` event and the hook's `innerWidth < 768` comparison can disagree, and that is not modelled.
- Slot props are values of a small closed type. Event handlers are opaque identities. No handler composition is modelled, because the code performs none.
- `Slot2`'s `instanceof HTMLElement`/`innerHTML` path and the `console.log` calls are DOM and logging.
- Solid's `children` helper is modelled only as flattening of nested lists. Function children are taken as already evaluated.
- For the element `Slot` re-renders, the merged props, the `ref` and the content are reported separately. How JSX later overrides `ref` and `children` on `Dynamic` is runtime behaviour and is not modelled.
- `SidebarRail` is not modelled separately: its click handler is `toggleSidebar` itself, unless the caller passes an `onClick`. That prop is spread after the handler and replaces it.
- `SidebarMenuButton`'s `asChild` rendering and its classes are markup.
- `SidebarMenuSkeleton`'s random width is random and floating-point.
- The Kobalte wrappers (`sheet.tsx`, `collapsible.tsx`, `separator.tsx`) and the tooltip primitive's rendering are pass-throughs to a library that is not part of this model.
- `breadcrumb.tsx` and `skeleton.tsx` are markup only. Breadcrumb's `asChild` branch delegates to `Slot`.
- Not modelled: `app.tsx`, icons, the router (the pathname is an input string) and `vite.config.ts`.
- Tooltip.Resolve: a `skipDelayDuration` given to one tooltip is spread after the context's value and would override it. The model always takes the context's value, because the tooltip primitive's own props are not part of this model.
- SidebarProvider.TriggerClick: the caller's `onClick` is modelled only as an effect that changes no sidebar state. The code runs it before reading `isMobile()` and `openMobile()`. An `onClick` that changes those values would change the blur decision and the toggle, and the model does not cover that. The callback is caller code and not part of this model.
- Slot.Render: `Dynamic` receives `{...mergedProps}` after `component={elementType}`. A defined `component` key in the owner's or the child's props therefore replaces the rendered tag. The model always reports `type || component || 'div'` as the tag, because what `Dynamic` does with a replaced component belongs to the Solid runtime, which is not part of this model.
