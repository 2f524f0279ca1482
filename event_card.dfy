/**
 * `EventCard`: a card wrapped in an element whose id is the scroll target of the
 * list pages, holding a link to the event's detail page.
 */
module EventCard {
  import opened Wrappers
  import opened JsText

  const ElementIdPrefix := "event-"
  const LinkPrefix := "/event/"

  /** The wrapper element's id, `event-${id}`. */
  function ElementId(id: string): (r: string)
    ensures StartsWith(r, ElementIdPrefix) && r[|ElementIdPrefix|..] == id
  {
    ElementIdPrefix + id
  }

  /** The link target, `/event/${id}`. */
  function LinkTarget(id: string): (r: string)
    ensures StartsWith(r, LinkPrefix) && r[|LinkPrefix|..] == id
  {
    LinkPrefix + id
  }

  /** Distinct cards get distinct element ids and distinct link targets. */
  lemma IdsInjective(a: string, b: string)
    ensures ElementId(a) == ElementId(b) <==> a == b
    ensures LinkTarget(a) == LinkTarget(b) <==> a == b
  {
    if ElementId(a) == ElementId(b) {
      assert a == ElementId(a)[|ElementIdPrefix|..];
    }
    if LinkTarget(a) == LinkTarget(b) {
      assert a == LinkTarget(a)[|LinkPrefix|..];
    }
  }

  /** What one click on the card's link does. */
  datatype ClickEffect = ClickEffect(
    defaultPrevented: bool,
    propagationStopped: bool,
    onClickCalls: nat,
    navigatesTo: Option<string>)

  /**
   * A click on the card with id `id`: with an `onClick` prop the handler runs once and
   * both the link's navigation and the bubbling are suppressed; without one the click
   * handler does nothing, so the event bubbles and the link navigates.
   */
  function Click(id: string, hasOnClick: bool): (r: ClickEffect)
    ensures hasOnClick ==> r.onClickCalls == 1 && r.defaultPrevented && r.propagationStopped
    ensures !hasOnClick ==> r.onClickCalls == 0 && !r.defaultPrevented && !r.propagationStopped
    ensures r.navigatesTo.Some? <==> !r.defaultPrevented
    ensures r.navigatesTo.Some? ==> r.navigatesTo.value == LinkTarget(id)
  {
    var prevented := hasOnClick;
    ClickEffect(
      prevented,
      hasOnClick,
      if hasOnClick then 1 else 0,
      if prevented then None else Some(LinkTarget(id)))
  }
}
