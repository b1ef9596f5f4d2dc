/**
 * Reading a request back: wrapped in the `netapp` root, every keyword
 * `filter` was given is found under `netapp/event-iter/...` carrying the
 * text it was built from, and nested lists keep their order.
 */
module ReadBack {
  import opened Wrappers
  import opened Decimal
  import opened Xml
  import opened Vocabulary
  import opened EventLog

  /** The children of an `event-iter` query, read from the root: `netapp/event-iter/<n>`. */
  lemma UnderQuery(q: Element, attrs: seq<Attr>, n: string)
    requires q.name == "event-iter"
    ensures Locate([Netapp(q, attrs)], ["netapp", "event-iter", n]) == Named(q.children, n)
  {
    EnvelopeKeepsPaths(q, attrs, ["event-iter", n]);
    assert ["netapp"] + ["event-iter", n] == ["netapp", "event-iter", n];
    assert Named([q], "event-iter") == [q];
    assert ChildrenOf([q]) == q.children;
  }

  /** Below the only child named `n`, the read goes on among that child's children. */
  lemma UnderChild(q: Element, attrs: seq<Attr>, c: Element, rest: seq<string>)
    requires q.name == "event-iter" && Named(q.children, c.name) == [c] && rest != []
    ensures Locate([Netapp(q, attrs)], ["netapp", "event-iter", c.name] + rest) == Locate(c.children, rest)
  {
    var path := ["event-iter", c.name] + rest;
    EnvelopeKeepsPaths(q, attrs, path);
    assert ["netapp"] + path == ["netapp", "event-iter", c.name] + rest;
    assert path[1..] == [c.name] + rest && ([c.name] + rest)[1..] == rest;
    assert Named([q], "event-iter") == [q];
    assert ChildrenOf([q]) == q.children;
    assert Locate([q], path) == Locate(q.children, [c.name] + rest);
    assert ChildrenOf([c]) == c.children + ChildrenOf([]);
    assert c.children + [] == c.children;
  }

  lemma TextsOfOne(e: Element)
    ensures TextsOf([e]) == TextNodes(e)
  {
    assert [e][1..] == [];
  }

  /** `str` of each value, in order. */
  function ToStrs(vs: seq<Scalar>): (r: seq<string>)
    ensures |r| == |vs| && forall i :: 0 <= i < |vs| ==> r[i] == ToStr(vs[i])
  {
    if vs == [] then [] else [ToStr(vs[0])] + ToStrs(vs[1..])
  }

  /**
   * A list of leaves built from values whose `str` is not empty reads
   * back, by the leaves' name, as exactly those strings in order.
   */
  lemma {:induction false} EachValueReadBack(name: string, vs: seq<Scalar>)
    requires forall i :: 0 <= i < |vs| ==> ToStr(vs[i]) != ""
    ensures Named(EachValue(name, vs), name) == EachValue(name, vs)
    ensures TextsOf(EachValue(name, vs)) == ToStrs(vs)
  {
    if vs != [] {
      var es := EachValue(name, vs);
      assert es[1..] == EachValue(name, vs[1..]);
      EachValueReadBack(name, vs[1..]);
    }
  }

  /**
   * In the request for `filter(**opts)`, the timeout, the greater-than-id
   * and the max-records read back as `str` of what was given.
   */
  lemma FilterRequestScalars(opts: FilterOptions, attrs: seq<Attr>)
    ensures var root := Netapp(FilterQuery(opts), attrs);
      && TextAt([root], ["netapp", "event-iter", "timeout"]) == TextNodes(TimeoutOf(opts))
      && (opts.greaterThanId.Some? ==>
            TextAt([root], ["netapp", "event-iter", "greater-than-id"]) == TextNodes(ValueElement("greater-than-id", Str(ToStr(opts.greaterThanId.value)))))
      && (opts.maxRecords.Some? ==>
            TextAt([root], ["netapp", "event-iter", "max-records"]) == TextNodes(ValueElement("max-records", Str(ToStr(opts.maxRecords.value)))))
  {
    var q := FilterQuery(opts);
    FilterQueryTimeout(opts);
    FilterQueryGreaterThanId(opts);
    FilterQueryMaxRecords(opts);
    UnderQuery(q, attrs, "timeout");
    UnderQuery(q, attrs, "greater-than-id");
    UnderQuery(q, attrs, "max-records");
    TextsOfOne(TimeoutOf(opts));
    TextsOfOne(ValueElement("greater-than-id", Str(ToStr(opts.greaterThanId.GetOr(Int(0))))));
    TextsOfOne(ValueElement("max-records", Str(ToStr(opts.maxRecords.GetOr(Int(0))))));
  }

  /** Both ends of a time range read back below `time-range/event-timestamp-range`. */
  lemma FilterRequestTimes(opts: FilterOptions, attrs: seq<Attr>)
    requires opts.timeRange.Some?
    ensures var root := Netapp(FilterQuery(opts), attrs);
      && TextAt([root], ["netapp", "event-iter", "time-range", "event-timestamp-range", "start-time"])
         == TextNodes(ValueElement("start-time", opts.timeRange.value.0))
      && TextAt([root], ["netapp", "event-iter", "time-range", "event-timestamp-range", "end-time"])
         == TextNodes(ValueElement("end-time", opts.timeRange.value.1))
  {
    var q, range := FilterQuery(opts), opts.timeRange.value;
    var c := TimeRangeOf(range);
    FilterQueryTimeRange(opts);
    TimeRangeNesting(range.0, range.1);
    UnderChild(q, attrs, c, ["event-timestamp-range", "start-time"]);
    UnderChild(q, attrs, c, ["event-timestamp-range", "end-time"]);
    assert ["netapp", "event-iter", c.name] + ["event-timestamp-range", "start-time"]
      == ["netapp", "event-iter", "time-range", "event-timestamp-range", "start-time"];
    assert ["netapp", "event-iter", c.name] + ["event-timestamp-range", "end-time"]
      == ["netapp", "event-iter", "time-range", "event-timestamp-range", "end-time"];
    TextsOfOne(ValueElement("start-time", range.0));
    TextsOfOne(ValueElement("end-time", range.1));
  }

  /** The states and the severities read back as given, in the order given. */
  lemma FilterRequestLists(opts: FilterOptions, attrs: seq<Attr>)
    requires opts.states.Some? ==> forall i :: 0 <= i < |opts.states.value| ==> ToStr(opts.states.value[i]) != ""
    requires opts.severities.Some? ==> forall i :: 0 <= i < |opts.severities.value| ==> ToStr(opts.severities.value[i]) != ""
    ensures var root := Netapp(FilterQuery(opts), attrs);
      && (opts.states.Some? ==>
            TextAt([root], ["netapp", "event-iter", "event-state-filter-list", "event-state"]) == ToStrs(opts.states.value))
      && (opts.severities.Some? ==>
            TextAt([root], ["netapp", "event-iter", "event-severities", "obj-status"]) == ToStrs(opts.severities.value))
  {
    var q := FilterQuery(opts);
    if opts.states.Some? {
      FilterQueryStates(opts);
      var c := Wrapper("event-state-filter-list", EachValue("event-state", opts.states.value));
      UnderChild(q, attrs, c, ["event-state"]);
      assert ["netapp", "event-iter", c.name] + ["event-state"] == ["netapp", "event-iter", "event-state-filter-list", "event-state"];
      EachValueReadBack("event-state", opts.states.value);
    }
    if opts.severities.Some? {
      FilterQuerySeverities(opts);
      var c := Wrapper("event-severities", EachValue("obj-status", opts.severities.value));
      UnderChild(q, attrs, c, ["obj-status"]);
      assert ["netapp", "event-iter", c.name] + ["obj-status"] == ["netapp", "event-iter", "event-severities", "obj-status"];
      EachValueReadBack("obj-status", opts.severities.value);
    }
  }

  /**
   * A query holding one `tag` child, wherever it stands among the others:
   * `find('tag')` returns that child, and `netapp/event-iter/tag/text()`
   * reads back its value.
   */
  lemma TagReadBack(q: Element, attrs: seq<Attr>, i: nat, t: string)
    requires q.name == "event-iter" && i < |q.children| && q.children[i] == Tag(Str(t)) && t != ""
    requires forall j :: 0 <= j < |q.children| && j != i ==> q.children[j].name != "tag"
    ensures FirstNamed(q.children, "tag") == Some(i)
    ensures TextAt([Netapp(q, attrs)], ["netapp", "event-iter", "tag"]) == [t]
  {
    NamedOnly(q.children, i, "tag");
    UnderQuery(q, attrs, "tag");
    TextsOfOne(Tag(Str(t)));
  }

  /** `greater_than_id(17)` carries the text "17". */
  lemma GreaterThanIdSeventeen()
    ensures GreaterThanId(Int(17)).text == Some("17")
  {
    assert DigitChar(1) == '1' && DigitChar(7) == '7';
    assert NatToDigits(1) == "1";
    assert NatToDigits(17) == NatToDigits(1) + [DigitChar(7)] == "17";
    assert IntToDecimal(17) == "17";
  }
}
