/** Event-listener registration on an event target (`window` or a media
    query list). A registration is a pair of event type and callback identity;
    registering the same pair twice has no further effect, as in the DOM. */
module Listeners {

  datatype Listener = Listener(event: string, id: nat)

  /** The listeners currently registered on one target. */
  type Registry = set<Listener>

  /** `target.addEventListener(event, callback)`. */
  function Add(r: Registry, l: Listener): (r': Registry)
    ensures l in r'
    ensures forall m :: m in r' && m != l ==> m in r
    ensures r <= r'
  {
    r + {l}
  }

  /** `target.removeEventListener(event, callback)`: removes that pair only. */
  function Remove(r: Registry, l: Listener): (r': Registry)
    ensures l !in r'
    ensures forall m :: m in r && m != l ==> m in r'
    ensures r' <= r
  {
    r - {l}
  }

  /** Registering a fresh callback and then removing it leaves the target as
      it was, and in between exactly one more listener is registered. */
  lemma AddThenRemove(r: Registry, l: Listener)
    requires l !in r
    ensures |Add(r, l)| == |r| + 1
    ensures Remove(Add(r, l), l) == r
  {
  }
}
