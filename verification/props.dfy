/** Property bags of components and the merge that Solid's `mergeProps`
    performs on them. */
module Props {

  /** A property value. Event handlers are opaque, told apart by identity. */
  datatype Value =
    | Undefined
    | Null
    | Bool(b: bool)
    | Num(n: int)
    | Str(s: string)
    | Handler(id: nat)

  /** The attributes and handlers passed to a component, by name. */
  type PropBag = map<string, Value>

  /** The value a bag gives for `key`: reading an absent key yields `undefined`. */
  function Lookup(bag: PropBag, key: string): (v: Value)
    ensures key !in bag ==> v == Undefined
    ensures key in bag ==> v == bag[key]
  {
    if key in bag then bag[key] else Undefined
  }

  /** `mergeProps(earlier, later)`: every key of either bag; a key takes the
      later bag's value unless that value is `undefined`, in which case the
      earlier bag's value stands. Nothing is concatenated. */
  function Merge(earlier: PropBag, later: PropBag): (r: PropBag)
    ensures r.Keys == earlier.Keys + later.Keys
    ensures forall k :: k in r ==>
              r[k] == (if Lookup(later, k) != Undefined then later[k] else Lookup(earlier, k))
  {
    map k | k in earlier.Keys + later.Keys ::
      if k in later && later[k] != Undefined then later[k] else Lookup(earlier, k)
  }

  /** A defined value in the later bag always survives the merge. */
  lemma LaterDefinedWins(earlier: PropBag, later: PropBag, k: string)
    requires k in later && later[k] != Undefined
    ensures k in Merge(earlier, later) && Merge(earlier, later)[k] == later[k]
  {
  }

  /** A key the later bag leaves undefined or lacks keeps the earlier value. */
  lemma EarlierKeptWhenLaterUndefined(earlier: PropBag, later: PropBag, k: string)
    requires k in earlier && Lookup(later, k) == Undefined
    ensures k in Merge(earlier, later) && Merge(earlier, later)[k] == earlier[k]
  {
  }

  /** Merging the same later bag again changes nothing. */
  lemma MergeIdempotent(earlier: PropBag, later: PropBag)
    ensures Merge(Merge(earlier, later), later) == Merge(earlier, later)
  {
    var once := Merge(earlier, later);
    var twice := Merge(once, later);
    assert twice.Keys == once.Keys;
    forall k | k in once
      ensures twice[k] == once[k]
    {
    }
  }

  /** Merging with an empty bag on either side gives the other bag back. */
  lemma MergeEmpty(bag: PropBag)
    ensures Merge(bag, map[]) == bag
    ensures Merge(map[], bag) == bag
  {
    assert Merge(bag, map[]).Keys == bag.Keys;
    assert Merge(map[], bag).Keys == bag.Keys;
  }
}
