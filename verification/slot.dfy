/** The `Slot` prop forwarder: it resolves its single child and either
    renders nothing, wraps text in a `span`, or re-renders the child's
    element with the owner's props merged over the child's own. */
module Slot {
  import opened Wrappers
  import opened Props

  /** A child value as the rendering runtime hands it over. Elements carry
      the fields `Slot` reads: `props`, `type` and `component`, any of which
      may be undefined. */
  datatype Child =
    | UndefinedChild
    | NullChild
    | BoolChild(b: bool)
    | NumChild(n: int)
    | TextChild(s: string)
    | ListChild(items: seq<Child>)
    | ElementChild(props: Option<PropBag>, elementType: Option<string>, component: Option<string>)

  /** What a slot renders. */
  datatype Rendered =
    | NoOutput
    | Span(attrs: PropBag, ref: Value, content: Child)
    | DynamicElement(component: string, attrs: PropBag, ref: Value, content: Child)
    | Div(attrs: PropBag, ref: Value, content: Child)

  /** Reading `.props` of `undefined` or `null` throws a TypeError. */
  datatype SlotError = PropsOfNothing

  /** JavaScript falsiness of a child. Lists and elements are objects and
      therefore truthy, even when empty. */
  predicate Falsy(c: Child)
    ensures c.ListChild? || c.ElementChild? ==> !Falsy(c)
    ensures c.UndefinedChild? || c.NullChild? ==> Falsy(c)
    ensures c.TextChild? ==> (Falsy(c) <==> |c.s| == 0)
  {
    match c
    case UndefinedChild => true
    case NullChild => true
    case BoolChild(b) => !b
    case NumChild(n) => n == 0
    case TextChild(s) => s == ""
    case _ => false
  }

  /** The children helper's flattening: nested lists are spliced into the
      enclosing list, everything else is kept in order. */
  function FlattenItems(items: seq<Child>): (r: seq<Child>)
    ensures forall i :: 0 <= i < |r| ==> !r[i].ListChild?
    ensures |items| > 0 && !items[0].ListChild? ==> |r| > 0 && r[0] == items[0]
    decreases items, 1
  {
    if |items| == 0 then [] else FlattenOne(items[0]) + FlattenItems(items[1..])
  }

  /** One item's contribution to the flattened list. */
  function FlattenOne(c: Child): (r: seq<Child>)
    ensures forall i :: 0 <= i < |r| ==> !r[i].ListChild?
    ensures !c.ListChild? ==> r == [c]
    decreases c, 0
  {
    match c
    case ListChild(inner) => FlattenItems(inner)
    case other => [other]
  }

  lemma {:induction false} FlattenAppend(a: seq<Child>, b: seq<Child>)
    ensures FlattenItems(a + b) == FlattenItems(a) + FlattenItems(b)
  {
    if |a| == 0 {
      assert a + b == b;
    } else {
      var ab := a + b;
      assert ab[0] == a[0];
      assert ab[1..] == a[1..] + b;
      FlattenAppend(a[1..], b);
      assert FlattenItems(ab) == FlattenOne(a[0]) + FlattenItems(a[1..] + b);
      assert FlattenItems(a) == FlattenOne(a[0]) + FlattenItems(a[1..]);
    }
  }

  /** A list without nested lists is already flat. */
  lemma {:induction false} FlattenFlat(items: seq<Child>)
    requires forall i :: 0 <= i < |items| ==> !items[i].ListChild?
    ensures FlattenItems(items) == items
  {
    if |items| > 0 {
      FlattenFlat(items[1..]);
    }
  }

  /** Resolving twice is resolving once. */
  lemma FlattenIdempotent(items: seq<Child>)
    ensures FlattenItems(FlattenItems(items)) == FlattenItems(items)
  {
    FlattenFlat(FlattenItems(items));
  }

  /** `children(() => props.children)`: lists are flattened, any other
      value is passed through. */
  function ResolveChildren(c: Child): (r: Child)
    ensures c.ListChild? <==> r.ListChild?
    ensures !c.ListChild? ==> r == c
    ensures r.ListChild? ==> forall i :: 0 <= i < |r.items| ==> !r.items[i].ListChild?
    ensures Falsy(r) <==> Falsy(c)
  {
    match c
    case ListChild(items) => ListChild(FlattenItems(items))
    case _ => c
  }

  /** The owner's props minus `children` and `ref` (`splitProps`). */
  function Others(owner: PropBag): (r: PropBag)
    ensures "children" !in r && "ref" !in r
    ensures forall k :: k in owner && k != "children" && k != "ref" ==> k in r && r[k] == owner[k]
    ensures r.Keys <= owner.Keys
  {
    owner - {"children", "ref"}
  }

  /** The element a truthy child stands for: the first item of a list (an
      empty list yields `undefined`), or the child itself. */
  function FirstElement(child: Child): (e: Child)
    ensures !child.ListChild? ==> e == child
    ensures child.ListChild? && |child.items| == 0 ==> e == UndefinedChild
    ensures child.ListChild? && |child.items| > 0 ==> e == child.items[0]
  {
    match child
    case ListChild(items) => if |items| == 0 then UndefinedChild else items[0]
    case _ => child
  }

  /** `(element.props) || {}`; reading it off `undefined`/`null` fails, and
      off any other non-element value gives `undefined`. */
  function ElementProps(e: Child): (r: Result<PropBag, SlotError>)
    ensures r.Failure? <==> e.UndefinedChild? || e.NullChild?
    ensures e.ElementChild? && e.props.Some? ==> r == Success(e.props.value)
    ensures !(e.ElementChild? && e.props.Some?) && r.Success? ==> r.value == map[]
  {
    match e
    case UndefinedChild => Failure(PropsOfNothing)
    case NullChild => Failure(PropsOfNothing)
    case ElementChild(Some(p), _, _) => Success(p)
    case _ => Success(map[])
  }

  /** `element.type || element.component || 'div'`: the first non-empty
      name, since the empty string is falsy. */
  function ElementType(e: Child): (name: string)
    ensures name != ""
    ensures e.ElementChild? && e.elementType.Some? && e.elementType.value != "" ==> name == e.elementType.value
    ensures (e.ElementChild? && !(e.elementType.Some? && e.elementType.value != "")
             && e.component.Some? && e.component.value != "") ==> name == e.component.value
    ensures !e.ElementChild? ==> name == "div"
  {
    match e
    case ElementChild(_, t, c) =>
      if t.Some? && t.value != "" then t.value
      else if c.Some? && c.value != "" then c.value
      else "div"
    case _ => "div"
  }

  /** `Slot`: nothing for a falsy child; a `span` around text or a number;
      otherwise the element's type, re-rendered with `mergeProps(elementProps,
      others)`. The owner's `ref` is always passed on its own. */
  function Render(owner: PropBag, children: Child): (r: Result<Rendered, SlotError>)
    ensures Falsy(children) ==> r == Success(NoOutput)
    ensures r.Failure? <==> children.ListChild? && !Falsy(children)
                            && (|FlattenItems(children.items)| == 0
                                || FlattenItems(children.items)[0].UndefinedChild?
                                || FlattenItems(children.items)[0].NullChild?)
    ensures (children.TextChild? || children.NumChild?) && !Falsy(children) ==>
              r == Success(Span(Others(owner), Lookup(owner, "ref"), children))
    ensures children.ElementChild? ==>
              r.Success? && r.value.DynamicElement?
              && r.value.component == ElementType(children)
              && r.value.ref == Lookup(owner, "ref")
  {
    var child := ResolveChildren(children);
    if Falsy(child) then Success(NoOutput)
    else
      var element := FirstElement(child);
      if element.TextChild? || element.NumChild? then
        Success(Span(Others(owner), Lookup(owner, "ref"), element))
      else
        match ElementProps(element)
        case Failure(e) => Failure(e)
        case Success(elementProps) =>
          Success(DynamicElement(ElementType(element), Merge(elementProps, Others(owner)),
                                 Lookup(owner, "ref"), element))
  }

  /** `SlotSimple`: always a `div` with the owner's props and `ref`, holding
      the children as given. */
  function RenderSimple(owner: PropBag, children: Child): (r: Rendered)
    ensures r.Div? && r.content == children && r.ref == Lookup(owner, "ref")
    ensures "children" !in r.attrs && "ref" !in r.attrs
    ensures forall k :: k in owner && k != "children" && k != "ref" ==> k in r.attrs && r.attrs[k] == owner[k]
  {
    Div(Others(owner), Lookup(owner, "ref"), children)
  }

  /** Merge on an element child: a defined owner value wins, a key the owner
      lacks or leaves undefined keeps the child's value, and `children` and
      `ref` can only come from the child's own props. */
  lemma ElementMerge(owner: PropBag, props: PropBag, t: Option<string>, c: Option<string>, k: string)
    ensures var r := Render(owner, ElementChild(Some(props), t, c));
            && r.Success? && r.value.DynamicElement?
            && (k in owner && k != "children" && k != "ref" && owner[k] != Undefined ==>
                  k in r.value.attrs && r.value.attrs[k] == owner[k])
            && (k in props && Lookup(Others(owner), k) == Undefined ==>
                  k in r.value.attrs && r.value.attrs[k] == props[k])
            && (k == "children" || k == "ref" ==> (k in r.value.attrs <==> k in props))
            && (k in r.value.attrs ==> k in props || k in Others(owner))
  {
  }

  /** `class` is overwritten, not concatenated, and the owner's `title` beats
      the child's. */
  lemma ClassOverwritten()
    ensures Render(map["class" := Str("a"), "title" := Str("x")],
                   ElementChild(Some(map["class" := Str("b"), "title" := Str("y")]), Some("a"), None))
            == Success(DynamicElement("a", map["class" := Str("a"), "title" := Str("x")], Undefined,
                                      ElementChild(Some(map["class" := Str("b"), "title" := Str("y")]), Some("a"), None)))
  {
    var owner := map["class" := Str("a"), "title" := Str("x")];
    var props := map["class" := Str("b"), "title" := Str("y")];
    assert Others(owner) == owner;
    assert Merge(props, owner) == owner;
  }

  /** Of a list, only the first item counts: when it is truthy and not a
      list, the slot renders exactly as for that item alone. */
  lemma ListUsesFirst(owner: PropBag, first: Child, rest: seq<Child>)
    requires !Falsy(first) && !first.ListChild?
    ensures Render(owner, ListChild([first] + rest)) == Render(owner, first)
  {
    FlattenAppend([first], rest);
    assert FlattenItems([first]) == [first];
  }

  /** An empty list is truthy but has no first element: rendering fails. */
  lemma EmptyListFails(owner: PropBag)
    ensures Render(owner, ListChild([])) == Failure(PropsOfNothing)
  {
  }

  /** A list headed by `false` is not empty output: `false.props` is
      undefined, so a `div` carrying the owner's props is rendered. */
  lemma FalseHeadRendersDiv(owner: PropBag, rest: seq<Child>)
    ensures Render(owner, ListChild([BoolChild(false)] + rest))
            == Success(DynamicElement("div", Others(owner), Lookup(owner, "ref"), BoolChild(false)))
  {
    FlattenAppend([BoolChild(false)], rest);
    assert FlattenItems([BoolChild(false)]) == [BoolChild(false)];
    MergeEmpty(Others(owner));
  }

  /** A DOM node with no `props` and no truthy `type` or `component` (for
      example `div`, `span` or `a`) is re-rendered as a `div` carrying exactly
      the owner's props and `ref`. */
  lemma DomNodeRendersOwnerProps(owner: PropBag)
    ensures Render(owner, ElementChild(None, None, None))
            == Success(DynamicElement("div", Others(owner), Lookup(owner, "ref"), ElementChild(None, None, None)))
  {
    MergeEmpty(Others(owner));
  }

  /** On such a DOM-node child, `Slot` produces the same `div` attributes
      and `ref` as `SlotSimple` does for any children. */
  lemma DomNodeAgreesWithSimple(owner: PropBag, children: Child)
    ensures var r := Render(owner, ElementChild(None, None, None));
            var simple := RenderSimple(owner, children);
            && r.Success? && r.value.DynamicElement? && r.value.component == "div"
            && r.value.attrs == simple.attrs && r.value.ref == simple.ref
  {
    DomNodeRendersOwnerProps(owner);
  }

  /** A DOM node with a truthy `type`, such as a button (`type` is
      `"submit"`), is re-rendered under that name, not as a `div`. */
  lemma ButtonNodeRendersTypeTag(owner: PropBag)
    ensures var r := Render(owner, ElementChild(None, Some("submit"), None));
            && r.Success? && r.value.DynamicElement?
            && r.value.component == "submit" && r.value.attrs == Others(owner)
  {
    MergeEmpty(Others(owner));
  }

  /** Truthiness is tested on the list, not on its head: a list headed by an
      empty text or by `0` wraps that value in a `span`, although the same
      value alone renders nothing. */
  lemma FalsyPrimitiveHeadRendersSpan(owner: PropBag, rest: seq<Child>)
    ensures Render(owner, ListChild([TextChild("")] + rest))
            == Success(Span(Others(owner), Lookup(owner, "ref"), TextChild("")))
    ensures Render(owner, ListChild([NumChild(0)] + rest))
            == Success(Span(Others(owner), Lookup(owner, "ref"), NumChild(0)))
    ensures Render(owner, TextChild("")) == Success(NoOutput)
    ensures Render(owner, NumChild(0)) == Success(NoOutput)
  {
    FlattenAppend([TextChild("")], rest);
    assert FlattenItems([TextChild("")]) == [TextChild("")];
    FlattenAppend([NumChild(0)], rest);
    assert FlattenItems([NumChild(0)]) == [NumChild(0)];
  }
}
