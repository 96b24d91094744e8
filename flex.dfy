/**
 * The proportional flex layout: a flex container whose children each get a
 * rigid slot of 100/count percent, the first one optionally pushed right by
 * `offset` slot widths.
 *
 * Percentages are exact reals; a style object is a map from property name to
 * value, so a property set to null is still present in it.
 */
module Flex {
  import opened Wrappers

  datatype CssValue = Percent(pct: real) | Number(n: int) | Keyword(word: string) | Null | Undefined

  type Style = map<string, CssValue>

  /** A child element: its other props, untouched here, and its style prop. */
  datatype Element<P> = Element(props: P, style: Option<Style>)

  /** The layout's props; `otherProps` are passed on to the container. */
  datatype FlexProps<P, O> = FlexProps(
    children: seq<Element<P>>,
    className: Option<string>,
    count: int,
    direction: Option<string>,
    offset: Option<int>,
    style: Option<Style>,
    wrap: Option<bool>,
    otherProps: O)

  /** The rendered container. */
  datatype Div<P, O> = Div(className: Option<string>, style: Style, otherProps: O, children: seq<Element<P>>)

  /** The properties every slot style sets, and nothing else. */
  const SlotKeys: set<string> := {"flexBasis", "flexShrink", "flexGrow", "overflow", "marginLeft"}

  /** The width of one slot, in percent of the container. */
  function Basis(count: int): real
    requires count >= 1
  {
    100.0 / count as real
  }

  /** `count` slots exactly fill the container. */
  lemma SlotsFillContainer(count: int)
    requires count >= 1
    ensures Basis(count) * count as real == 100.0
    ensures 0.0 < Basis(count) <= 100.0
  {
  }

  /** JavaScript truthiness of the numeric `offset` prop. */
  predicate Truthy(offset: Option<int>) {
    offset.Some? && offset.value != 0
  }

  /**
   * The style given to the child at `index`: basis 100/count percent, no
   * shrinking or growing, overflow hidden, and a left margin of `offset` slot
   * widths on the first child only when the offset is non-zero.
   */
  function SlotStyle(count: int, offset: Option<int>, index: nat): (s: Style)
    requires count >= 1
    ensures s.Keys == SlotKeys
    ensures s["flexBasis"] == Percent(Basis(count))
    ensures s["flexShrink"] == Number(0) && s["flexGrow"] == Number(0)
    ensures s["overflow"] == Keyword("hidden")
    ensures s["marginLeft"] != Null <==> index == 0 && Truthy(offset)
    ensures s["marginLeft"] != Null ==> s["marginLeft"] == Percent(100.0 * offset.value as real / count as real)
  {
    var margin := if Truthy(offset) && index == 0
                  then Percent(100.0 * offset.value as real / count as real)
                  else Null;
    map[
      "flexBasis" := Percent(100.0 / count as real),
      "flexShrink" := Number(0),
      "flexGrow" := Number(0),
      "overflow" := Keyword("hidden"),
      "marginLeft" := margin]
  }

  /** The first child's margin, `100 * offset / count` percent, is `offset` slot widths. */
  lemma FirstMarginIsOffsetSlots(count: int, offset: Option<int>)
    requires count >= 1
    requires Truthy(offset)
    ensures SlotStyle(count, offset, 0)["marginLeft"] == Percent(offset.value as real * Basis(count))
  {
    var c, o := count as real, offset.value as real;
    var b, m := 100.0 / c, 100.0 * o / c;
    assert b * c == 100.0;
    assert m * c == 100.0 * o;
    assert (o * b) * c == o * (b * c);
    assert (m - o * b) * c == 0.0;
  }

  /** Every property but the margin is the same for every index. */
  lemma SlotStyleIsIndexIndependent(count: int, offset: Option<int>, i: nat, j: nat, key: string)
    requires count >= 1
    requires key in SlotKeys && key != "marginLeft"
    ensures SlotStyle(count, offset, i)[key] == SlotStyle(count, offset, j)[key]
  {
  }

  /**
   * Each child keeps its props and position; its style is replaced by the
   * slot style for its index.
   */
  function LayoutChildren<P>(children: seq<Element<P>>, count: int, offset: Option<int>): (r: seq<Element<P>>)
    requires count >= 1
    ensures |r| == |children|
    ensures forall i :: 0 <= i < |r| ==>
      r[i].props == children[i].props && r[i].style == Some(SlotStyle(count, offset, i))
  {
    seq(|children|, i requires 0 <= i < |children| =>
      Element(children[i].props, Some(SlotStyle(count, offset, i))))
  }

  /**
   * A child's previous style has no influence on the result: two child lists
   * that differ only in their styles are laid out identically.
   */
  lemma LayoutDiscardsChildStyles<P>(a: seq<Element<P>>, b: seq<Element<P>>, count: int, offset: Option<int>)
    requires count >= 1
    requires |a| == |b|
    requires forall i :: 0 <= i < |a| ==> a[i].props == b[i].props
    ensures LayoutChildren(a, count, offset) == LayoutChildren(b, count, offset)
  {
    var ra, rb := LayoutChildren(a, count, offset), LayoutChildren(b, count, offset);
    assert forall i :: 0 <= i < |ra| ==> ra[i] == rb[i];
  }

  /**
   * The container style: flex display, the given direction, wrapping iff
   * `wrap` is truthy, then every property of the caller's style on top.
   */
  function ContainerStyle(direction: Option<string>, wrap: Option<bool>, style: Option<Style>): (r: Style)
    ensures r.Keys == {"display", "flexDirection", "flexWrap"} + style.GetOr(map[]).Keys
    ensures forall k :: k in style.GetOr(map[]) ==> r[k] == style.value[k]
    ensures "display" !in style.GetOr(map[]) ==> r["display"] == Keyword("flex")
    ensures "flexDirection" !in style.GetOr(map[]) ==>
      r["flexDirection"] == (if direction.Some? then Keyword(direction.value) else Undefined)
    ensures "flexWrap" !in style.GetOr(map[]) ==>
      r["flexWrap"] == Keyword(if wrap == Some(true) then "wrap" else "nowrap")
  {
    var base := map[
      "display" := Keyword("flex"),
      "flexDirection" := if direction.Some? then Keyword(direction.value) else Undefined,
      "flexWrap" := Keyword(if wrap == Some(true) then "wrap" else "nowrap")];
    base + style.GetOr(map[])
  }

  /**
   * The whole layout component: the container keeps the caller's class name
   * and other props, and its style is the flex defaults under the caller's
   * style; its children are the input children in order, each with its own
   * props and the slot style for its index in place of its old style.
   */
  function Flex<P, O>(props: FlexProps<P, O>): (d: Div<P, O>)
    requires props.count >= 1
    ensures d.className == props.className && d.otherProps == props.otherProps
    ensures forall k :: k in props.style.GetOr(map[]) ==> k in d.style && d.style[k] == props.style.value[k]
    ensures d.style.Keys == {"display", "flexDirection", "flexWrap"} + props.style.GetOr(map[]).Keys
    ensures "display" !in props.style.GetOr(map[]) ==> d.style["display"] == Keyword("flex")
    ensures "flexDirection" !in props.style.GetOr(map[]) ==>
      d.style["flexDirection"] == (if props.direction.Some? then Keyword(props.direction.value) else Undefined)
    ensures "flexWrap" !in props.style.GetOr(map[]) ==>
      d.style["flexWrap"] == Keyword(if props.wrap == Some(true) then "wrap" else "nowrap")
    ensures |d.children| == |props.children|
    ensures forall i :: 0 <= i < |d.children| ==>
      d.children[i].props == props.children[i].props &&
      d.children[i].style == Some(SlotStyle(props.count, props.offset, i))
  {
    Div(
      props.className,
      ContainerStyle(props.direction, props.wrap, props.style),
      props.otherProps,
      LayoutChildren(props.children, props.count, props.offset))
  }
}
