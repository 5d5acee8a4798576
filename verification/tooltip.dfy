/** Tooltip timing: a provider publishes an open delay and a skip delay;
    each tooltip takes its own open and close delays when given and the
    provider's open delay otherwise. Delays are in milliseconds. */
module Tooltip {
  import opened Wrappers

  datatype TooltipContext = TooltipContext(delayDuration: int, skipDelayDuration: int)

  /** The context seen when no provider is above the tooltip. */
  const DefaultContext: TooltipContext := TooltipContext(0, 300)

  /** The timing handed to the tooltip primitive. */
  datatype Timing = Timing(openDelay: int, closeDelay: int, skipDelayDuration: int)

  /** `TooltipProvider`: its props, each defaulted with `??`. */
  function Provider(delayDuration: Option<int>, skipDelayDuration: Option<int>): (c: TooltipContext)
    ensures delayDuration.Some? ==> c.delayDuration == delayDuration.value
    ensures delayDuration.None? ==> c.delayDuration == 0
    ensures skipDelayDuration.Some? ==> c.skipDelayDuration == skipDelayDuration.value
    ensures skipDelayDuration.None? ==> c.skipDelayDuration == 300
  {
    TooltipContext(delayDuration.GetOr(0), skipDelayDuration.GetOr(300))
  }

  /** `useContext`: the nearest provider's value, or the default. */
  function UseContext(provider: Option<TooltipContext>): (c: TooltipContext)
    ensures provider.None? ==> c == TooltipContext(0, 300)
    ensures provider.Some? ==> c == provider.value
  {
    provider.GetOr(DefaultContext)
  }

  /** `Tooltip`: own delays first, then the context's `delayDuration` for
      both; the skip delay always comes from the context. */
  function Resolve(provider: Option<TooltipContext>, openDelay: Option<int>, closeDelay: Option<int>)
    : (t: Timing)
    ensures openDelay.Some? ==> t.openDelay == openDelay.value
    ensures closeDelay.Some? ==> t.closeDelay == closeDelay.value
    ensures openDelay.None? ==> t.openDelay == UseContext(provider).delayDuration
    ensures closeDelay.None? ==> t.closeDelay == UseContext(provider).delayDuration
    ensures t.skipDelayDuration == UseContext(provider).skipDelayDuration
  {
    var c := UseContext(provider);
    Timing(openDelay.GetOr(c.delayDuration), closeDelay.GetOr(c.delayDuration), c.skipDelayDuration)
  }

  /** A provider with no props gives the same timing as no provider at all. */
  lemma EmptyProviderIsDefault(openDelay: Option<int>, closeDelay: Option<int>)
    ensures Resolve(Some(Provider(None, None)), openDelay, closeDelay) == Resolve(None, openDelay, closeDelay)
  {
  }

  /** An explicit zero is a value, not a missing one: it beats the context. */
  lemma ExplicitZeroKept(d: int, skip: int)
    ensures Resolve(Some(TooltipContext(d, skip)), Some(0), Some(0)) == Timing(0, 0, skip)
  {
  }

  /** Without own delays, the close delay is the provider's open delay, never
      its skip delay, even when they differ. */
  lemma CloseDelayFromDelayDuration(d: int, skip: int)
    ensures Resolve(Some(Provider(Some(d), Some(skip))), None, None) == Timing(d, d, skip)
  {
  }

  /** Inside the sidebar provider, which mounts a provider with a zero delay,
      a tooltip with no own delays opens and closes at once and has the
      default skip delay. */
  lemma SidebarTooltipTiming()
    ensures Resolve(Some(Provider(Some(0), None)), None, None) == Timing(0, 0, 300)
  {
  }
}
