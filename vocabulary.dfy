/**
 * The XML vocabulary for queries against the event API: each builder
 * returns a fresh element. Leaves carry `str` of their argument as text;
 * wrappers take their children in argument order.
 */
module Vocabulary {
  import opened Wrappers
  import opened Decimal
  import opened Xml

  /** The argument values the builders receive: Python ints or strings. */
  datatype Scalar = Int(i: int) | Str(s: string)

  /** Python's `str` of a builder argument. */
  function ToStr(v: Scalar): (text: string) {
    match v
    case Int(i) => IntToDecimal(i)
    case Str(s) => s
  }

  /**
   * `_value_element(name, v)`: a leaf named `name` whose text is `str(v)`,
   * with no attributes and no children. An integer argument reads back
   * as the same integer.
   */
  function ValueElement(name: string, v: Scalar): (e: Element)
    ensures e.name == name && e.text == Some(ToStr(v))
    ensures e.attrs == [] && e.children == []
    ensures v.Int? ==> ParseInt(e.text.value) == Some(v.i)
  {
    if v.Int? then ParseIntRoundTrip(v.i); Element(name, Some(ToStr(v)), [], [])
    else Element(name, Some(ToStr(v)), [], [])
  }

  /** An element named `name` holding exactly `children`, in order, with no text. */
  function Wrapper(name: string, children: seq<Element>): (e: Element) {
    Element(name, None, [], children)
  }

  /** `event_iter(*children)`: an `event-iter` element whose children are the arguments, in order. */
  function EventIter(children: seq<Element>): (e: Element)
    ensures e.name == "event-iter" && e.text.None? && e.attrs == []
    ensures e.children == children
  {
    Wrapper("event-iter", children)
  }

  /** `event_iter` as written: a fresh element, then one `append` per child. */
  method BuildEventIter(children: seq<Element>) returns (e: Element)
    ensures e == EventIter(children)
  {
    e := Element("event-iter", None, [], []);
    var i := 0;
    while i < |children|
      invariant 0 <= i <= |children|
      invariant e == Element("event-iter", None, [], children[..i])
    {
      e := e.(children := e.children + [children[i]]);
      i := i + 1;
    }
    assert children[..i] == children;
  }

  /** `greater_than_id(x)`, which is `_value_element('greater-than-id', x)`. */
  function GreaterThanId(v: Scalar): (e: Element)
    ensures e == ValueElement("greater-than-id", v)
    ensures TextNodes(e) == (if ToStr(v) == "" then [] else [ToStr(v)])
  {
    ValueElement("greater-than-id", v)
  }

  /** `netapp(child, **attributes)`: the root element of every request. */
  function Netapp(child: Element, attrs: seq<Attr>): (e: Element)
    ensures e.name == "netapp" && e.attrs == attrs && e.children == [child]
  {
    Element("netapp", None, attrs, [child])
  }

  /** `timeout(text)`: a leaf `timeout` element carrying `text`. */
  function Timeout(text: string): (e: Element)
    ensures e.name == "timeout" && e.text == Some(text) && e.children == []
  {
    Element("timeout", Some(text), [], [])
  }

  // The remaining builders the client uses follow the two patterns above.
  function EventId(v: Scalar): (e: Element) { ValueElement("event-id", v) }
  function Tag(v: Scalar): (e: Element) { ValueElement("tag", v) }
  function MaxRecords(v: Scalar): (e: Element) { ValueElement("max-records", v) }
  function StartTime(v: Scalar): (e: Element) { ValueElement("start-time", v) }
  function EndTime(v: Scalar): (e: Element) { ValueElement("end-time", v) }
  function EventState(v: Scalar): (e: Element) { ValueElement("event-state", v) }
  function ObjStatus(v: Scalar): (e: Element) { ValueElement("obj-status", v) }
  function TimeRange(range: Element): (e: Element) { Wrapper("time-range", [range]) }
  function EventTimestampRange(a: Element, b: Element): (e: Element) { Wrapper("event-timestamp-range", [a, b]) }
  function EventStateFilterList(states: seq<Element>): (e: Element) { Wrapper("event-state-filter-list", states) }
  function EventSeverities(statuses: seq<Element>): (e: Element) { Wrapper("event-severities", statuses) }

  /** `map(builder, values)` for the list-valued filters. */
  function EachValue(name: string, vs: seq<Scalar>): (r: seq<Element>)
    ensures |r| == |vs|
    ensures forall i :: 0 <= i < |vs| ==> r[i] == ValueElement(name, vs[i])
  {
    if vs == [] then [] else [ValueElement(name, vs[0])] + EachValue(name, vs[1..])
  }

  /**
   * Wrapping a query in the root element keeps every path below it: what a
   * reader finds at `netapp/<q>/...` is what it finds at `<q>/...` in the
   * query itself.
   */
  lemma EnvelopeKeepsPaths(q: Element, attrs: seq<Attr>, path: seq<string>)
    requires path != [] && path[0] == q.name
    ensures Locate([Netapp(q, attrs)], ["netapp"] + path) == Locate([q], path)
  {
    var e := Netapp(q, attrs);
    assert (["netapp"] + path)[1..] == path;
    assert Named([e], "netapp") == [e];
    assert ChildrenOf([e]) == [q];
  }
}
