/**
 * `Server.EventLog`: iteration over every event, filtered iteration, and
 * lookup of one event by id. Each builds an `event-iter` query and hands
 * it to the paginator of its server.
 */
module EventLog {
  import opened Wrappers
  import Decimal
  import opened Xml
  import opened Vocabulary
  import opened Exceptions
  import opened Events
  import opened Responses
  import opened Paginator

  /** The event log of one server. */
  datatype EventLog = EventLog(server: Server)

  /**
   * The keyword arguments of `filter`; None is an absent keyword (or one
   * given as None). A time range is a (start, end) pair.
   */
  datatype FilterOptions = FilterOptions(
    severities: Option<seq<Scalar>>,
    states: Option<seq<Scalar>>,
    greaterThanId: Option<Scalar>,
    timeRange: Option<(Scalar, Scalar)>,
    maxRecords: Option<Scalar>,
    timeout: Option<Scalar>)

  /** `filter()` with no keyword at all, which `__iter__` calls. */
  const NoFilter: FilterOptions := FilterOptions(None, None, None, None, None, None)

  /** `[e]` when the keyword was given, nothing otherwise. */
  function IfGiven<T>(o: Option<T>, e: Element): (group: seq<Element>) {
    if o.Some? then [e] else []
  }

  /** The `time-range` child for `(start, end)`: the end time comes first. */
  function TimeRangeOf(range: (Scalar, Scalar)): (e: Element) {
    TimeRange(EventTimestampRange(EndTime(range.1), StartTime(range.0)))
  }

  /** The timeout child: `str(timeout)`, 0 when the keyword is absent. */
  function TimeoutOf(opts: FilterOptions): (e: Element) {
    Timeout(ToStr(opts.timeout.GetOr(Int(0))))
  }

  /** The children `filter` appends to the `event-iter` query, in the order it appends them. */
  function FilterChildren(opts: FilterOptions): (cs: seq<Element>) {
    IfGiven(opts.greaterThanId, GreaterThanId(Str(ToStr(opts.greaterThanId.GetOr(Int(0))))))
    + IfGiven(opts.timeRange, TimeRangeOf(opts.timeRange.GetOr((Int(0), Int(0)))))
    + IfGiven(opts.states, EventStateFilterList(EachValue("event-state", opts.states.GetOr([]))))
    + IfGiven(opts.severities, EventSeverities(EachValue("obj-status", opts.severities.GetOr([]))))
    + IfGiven(opts.maxRecords, MaxRecords(Str(ToStr(opts.maxRecords.GetOr(Int(0))))))
    + [TimeoutOf(opts)]
  }

  /** The query `filter` sends. */
  function FilterQuery(opts: FilterOptions): (q: Element) {
    EventIter(FilterChildren(opts))
  }

  /** Number of keywords given among the optional filters. */
  function GivenCount(opts: FilterOptions): (count: nat) {
    (if opts.greaterThanId.Some? then 1 else 0) + (if opts.timeRange.Some? then 1 else 0)
    + (if opts.states.Some? then 1 else 0) + (if opts.severities.Some? then 1 else 0)
    + (if opts.maxRecords.Some? then 1 else 0)
  }

  /** A group of at most one child, kept when its child is named `n`. */
  function Pick(g: seq<Element>, n: string): (picked: seq<Element>) {
    if g != [] && g[0].name == n then g else []
  }

  lemma NamedGroup(g: seq<Element>, n: string)
    requires |g| <= 1
    ensures Named(g, n) == Pick(g, n)
  {
    if g != [] {
      assert g[1..] == [];
    }
  }

  /** Selecting by name distributes over the six groups of filter children. */
  lemma FilterNamed(opts: FilterOptions, n: string)
    ensures Named(FilterChildren(opts), n) ==
      Pick(IfGiven(opts.greaterThanId, GreaterThanId(Str(ToStr(opts.greaterThanId.GetOr(Int(0)))))), n)
      + Pick(IfGiven(opts.timeRange, TimeRangeOf(opts.timeRange.GetOr((Int(0), Int(0))))), n)
      + Pick(IfGiven(opts.states, EventStateFilterList(EachValue("event-state", opts.states.GetOr([])))), n)
      + Pick(IfGiven(opts.severities, EventSeverities(EachValue("obj-status", opts.severities.GetOr([])))), n)
      + Pick(IfGiven(opts.maxRecords, MaxRecords(Str(ToStr(opts.maxRecords.GetOr(Int(0)))))), n)
      + Pick([TimeoutOf(opts)], n)
  {
    var a := IfGiven(opts.greaterThanId, GreaterThanId(Str(ToStr(opts.greaterThanId.GetOr(Int(0))))));
    var b := IfGiven(opts.timeRange, TimeRangeOf(opts.timeRange.GetOr((Int(0), Int(0)))));
    var c := IfGiven(opts.states, EventStateFilterList(EachValue("event-state", opts.states.GetOr([]))));
    var d := IfGiven(opts.severities, EventSeverities(EachValue("obj-status", opts.severities.GetOr([]))));
    var e := IfGiven(opts.maxRecords, MaxRecords(Str(ToStr(opts.maxRecords.GetOr(Int(0))))));
    var f := [TimeoutOf(opts)];
    NamedAppend(a + b + c + d + e, f, n);
    NamedAppend(a + b + c + d, e, n);
    NamedAppend(a + b + c, d, n);
    NamedAppend(a + b, c, n);
    NamedAppend(a, b, n);
    NamedGroup(a, n);
    NamedGroup(b, n);
    NamedGroup(c, n);
    NamedGroup(d, n);
    NamedGroup(e, n);
    NamedGroup(f, n);
  }

  /**
   * Shape of the filter query: an `event-iter` with one child per keyword
   * given, then the timeout last, carrying `str(timeout)` or "0".
   */
  lemma FilterQueryShape(opts: FilterOptions)
    ensures FilterQuery(opts).name == "event-iter"
    ensures |FilterQuery(opts).children| == GivenCount(opts) + 1
    ensures FilterQuery(opts).children[GivenCount(opts)] == TimeoutOf(opts)
    ensures TimeoutOf(opts).text == Some(if opts.timeout.None? then "0" else ToStr(opts.timeout.value))
  {
    assert Decimal.IntToDecimal(0) == "0" by {
      assert Decimal.DigitChar(0) == '0';
    }
  }

  /** The filter query holds no `tag` child, so the paginator's edit leaves exactly one. */
  lemma FilterQueryNoTag(opts: FilterOptions)
    ensures Named(FilterQuery(opts).children, "tag") == []
  {
    FilterNamed(opts, "tag");
  }

  /** `greater_than_id` shows up once, carrying `str` of its value, exactly when given. */
  lemma FilterQueryGreaterThanId(opts: FilterOptions)
    ensures Named(FilterQuery(opts).children, "greater-than-id") ==
      IfGiven(opts.greaterThanId, ValueElement("greater-than-id", Str(ToStr(opts.greaterThanId.GetOr(Int(0))))))
  {
    FilterNamed(opts, "greater-than-id");
  }

  /** `max_records` shows up once, carrying `str` of its value, exactly when given. */
  lemma FilterQueryMaxRecords(opts: FilterOptions)
    ensures Named(FilterQuery(opts).children, "max-records") ==
      IfGiven(opts.maxRecords, ValueElement("max-records", Str(ToStr(opts.maxRecords.GetOr(Int(0))))))
  {
    FilterNamed(opts, "max-records");
  }

  /** The timeout is always there, once. */
  lemma FilterQueryTimeout(opts: FilterOptions)
    ensures Named(FilterQuery(opts).children, "timeout") == [TimeoutOf(opts)]
  {
    FilterNamed(opts, "timeout");
  }

  /** The time range shows up once, as its `time-range` wrapper, exactly when given. */
  lemma FilterQueryTimeRange(opts: FilterOptions)
    ensures Named(FilterQuery(opts).children, "time-range") ==
      IfGiven(opts.timeRange, TimeRangeOf(opts.timeRange.GetOr((Int(0), Int(0)))))
  {
    FilterNamed(opts, "time-range");
  }

  /** The states show up once, as one `event-state` leaf each inside their wrapper, exactly when given. */
  lemma FilterQueryStates(opts: FilterOptions)
    ensures Named(FilterQuery(opts).children, "event-state-filter-list") ==
      IfGiven(opts.states, Wrapper("event-state-filter-list", EachValue("event-state", opts.states.GetOr([]))))
  {
    FilterNamed(opts, "event-state-filter-list");
  }

  /** The severities show up once, as one `obj-status` leaf each inside their wrapper, exactly when given. */
  lemma FilterQuerySeverities(opts: FilterOptions)
    ensures Named(FilterQuery(opts).children, "event-severities") ==
      IfGiven(opts.severities, Wrapper("event-severities", EachValue("obj-status", opts.severities.GetOr([]))))
  {
    FilterNamed(opts, "event-severities");
  }

  /**
   * A time range holds one `event-timestamp-range`, whose `end-time` and
   * `start-time` children carry the two ends: the end time first.
   */
  lemma TimeRangeNesting(start: Scalar, end: Scalar)
    ensures TimeRangeOf((start, end)).name == "time-range"
    ensures TimeRangeOf((start, end)).children == [EventTimestampRange(EndTime(end), StartTime(start))]
    ensures EventTimestampRange(EndTime(end), StartTime(start)).children ==
      [ValueElement("end-time", end), ValueElement("start-time", start)]
    ensures Locate(TimeRangeOf((start, end)).children, ["event-timestamp-range", "end-time"]) == [ValueElement("end-time", end)]
    ensures Locate(TimeRangeOf((start, end)).children, ["event-timestamp-range", "start-time"]) == [ValueElement("start-time", start)]
  {
    var ts := EventTimestampRange(EndTime(end), StartTime(start));
    var e, s := ValueElement("end-time", end), ValueElement("start-time", start);
    NamedGroup([ts], "event-timestamp-range");
    assert ChildrenOf([ts]) == [e, s] by {
      assert [ts][1..] == [];
    }
    assert [e, s][1..] == [s];
    NamedGroup([s], "end-time");
    NamedGroup([s], "start-time");
  }

  /** `iter(log)` is `filter()`: the query holds only a zero timeout. */
  lemma NoFilterQuery()
    ensures FilterQuery(NoFilter) == EventIter([Timeout("0")])
  {
    assert Decimal.DigitChar(0) == '0';
  }

  /** Builds the filter query the way `filter` does: a fresh tree, then one append per keyword given. */
  method BuildFilterQuery(opts: FilterOptions) returns (q: QueryTree)
    ensures fresh(q)
    ensures q.Value() == FilterQuery(opts)
  {
    var gt := GreaterThanId(Str(ToStr(opts.greaterThanId.GetOr(Int(0)))));
    var tr := TimeRangeOf(opts.timeRange.GetOr((Int(0), Int(0))));
    var st := EventStateFilterList(EachValue("event-state", opts.states.GetOr([])));
    var sv := EventSeverities(EachValue("obj-status", opts.severities.GetOr([])));
    var mr := MaxRecords(Str(ToStr(opts.maxRecords.GetOr(Int(0)))));
    var to := TimeoutOf(opts);
    assert FilterChildren(opts) == IfGiven(opts.greaterThanId, gt) + IfGiven(opts.timeRange, tr) + IfGiven(opts.states, st)
      + IfGiven(opts.severities, sv) + IfGiven(opts.maxRecords, mr) + [to];
    q := new QueryTree(EventIter([]));
    AppendIfGiven(q, opts.greaterThanId, gt);
    assert q.children == IfGiven(opts.greaterThanId, gt);
    AppendIfGiven(q, opts.timeRange, tr);
    AppendIfGiven(q, opts.states, st);
    AppendIfGiven(q, opts.severities, sv);
    AppendIfGiven(q, opts.maxRecords, mr);
    q.Append(to);
  }

  /** `if x is not None: api_call.append(e)`. */
  method AppendIfGiven<T>(q: QueryTree, o: Option<T>, e: Element)
    modifies q
    ensures q.children == old(q.children) + IfGiven(o, e)
  {
    if o.Some? {
      q.Append(e);
    }
  }

  /**
   * `filter(**opts)`, run to the end against the server's replies: the
   * events of the filter query, page after page.
   */
  method Filter(log: EventLog, opts: FilterOptions, replies: seq<Reply>) returns (run: Run)
    requires Ends(replies)
    ensures run == Paginate(FilterQuery(opts), replies, ServerClient(log.server.appName))
  {
    var q := BuildFilterQuery(opts);
    CallerHonest(log.server.appName);
    run := GetEvents(ServerClient(log.server.appName), q, replies);
  }

  /** `iter(log)`: every event, through `filter()` with no keyword. */
  method Iter(log: EventLog, replies: seq<Reply>) returns (run: Run)
    requires Ends(replies)
    ensures run == Paginate(EventIter([Timeout("0")]), replies, ServerClient(log.server.appName))
  {
    NoFilterQuery();
    run := Filter(log, NoFilter, replies);
  }

  /**
   * Every query `filter` sends after the first is the filter query with
   * one `tag` child added at the end, carrying the tag of the page before.
   */
  lemma {:induction false} FilterThreadsTag(opts: FilterOptions, replies: seq<Reply>, client: Client)
    requires Ends(replies) && Honest(client.decode)
    ensures ThreadsTag(FilterQuery(opts), replies, client)
  {
    var q := FilterQuery(opts);
    FilterQueryNoTag(opts);
    assert |Named(q.children, "tag")| <= 1;
    PaginateThreadsTag(q, replies, client);
  }

  /** The query `single_by_id(id)` sends: an `event-iter` holding only `event-id`. */
  function SingleByIdQuery(id: Scalar): (q: Element) {
    EventIter([EventId(Str(ToStr(id)))])
  }

  /**
   * `single_by_id(id)`: the first event the query yields; the exception
   * raised before any event was yielded; or KeyError when the query
   * yields nothing.
   */
  method SingleById(log: EventLog, id: Scalar, replies: seq<Reply>) returns (r: Result<Event, Exception>)
    requires Ends(replies)
    ensures var run := Paginate(SingleByIdQuery(id), replies, ServerClient(log.server.appName));
      && (run.events != [] ==> r == Success(run.events[0]))
      && (run.events == [] && run.failure.Some? ==> r == Failure(run.failure.value))
      && (run.events == [] && run.failure.None? ==> r == Failure(KeyError))
  {
    var q := new QueryTree(SingleByIdQuery(id));
    CallerHonest(log.server.appName);
    var run := GetEvents(ServerClient(log.server.appName), q, replies);
    if run.events != [] {
      return Success(run.events[0]);
    }
    if run.failure.Some? {
      return Failure(run.failure.value);
    }
    return Failure(KeyError);
  }
}
