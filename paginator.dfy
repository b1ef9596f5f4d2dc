/**
 * `Server._get_events`: the query is sent, the page's records are turned
 * into Events in order, and while the server returns a continuation tag the
 * same query tree is edited in place (its first `tag` child removed, a new
 * `tag` appended) and sent again.
 *
 * The server is an oracle: `replies[k]` is what it answers to the k-th call.
 */
module Paginator {
  import opened Wrappers
  import opened Xml
  import opened Vocabulary
  import opened Exceptions
  import opened Events
  import opened Responses

  /** The part of a Server's configuration the decoding path uses; credentials and URL belong to the transport. */
  datatype Server = Server(appName: string)

  /** A server created without an `app_name` argument reports the default application name. */
  const DefaultServer: Server := Server(DEFAULT_APP_NAME)

  /** The oracle answers every call the loop makes: its last reply does not continue. */
  predicate Ends(replies: seq<Reply>) {
    |replies| > 0 && !Continues(replies[|replies| - 1])
  }

  /** What a call makes of the reply the server sends to a query. */
  type Decoder = (Reply, Element) -> Result<Page, Exception>

  /** The outcome is a page that carries a continuation tag. */
  predicate Goes(outcome: Result<Page, Exception>) {
    outcome.Success? && outcome.value.nextTag.Some?
  }

  /** A decoder asks for another page only on a reply that continues. */
  ghost predicate Honest(decode: Decoder) {
    forall reply, query :: Goes(decode(reply, query)) ==> Continues(reply)
  }

  /** `perform_call` of a server whose application name is `appName`. */
  function Caller(appName: string): (d: Decoder)
    ensures forall reply, query :: d(reply, query) == PerformCall(reply, query, appName)
  {
    (reply, query) => PerformCall(reply, query, appName)
  }

  /**
   * The two conversions a call depends on: decoding a reply into a page,
   * and turning one raw record into an Event.
   */
  datatype Client = Client(decode: Decoder, record: Element -> Result<Event, Exception>)

  /** The conversions of a server whose application name is `appName`: `perform_call` and `Event(raw)`. */
  function ServerClient(appName: string): (c: Client)
    ensures c.decode == Caller(appName) && c.record == ToEvent
  {
    Client(Caller(appName), ToEvent)
  }

  /** The decoder of a server continues exactly on the replies that carry a tag. */
  lemma CallerHonest(appName: string)
    ensures Honest(Caller(appName))
  {
    forall reply, query | Goes(Caller(appName)(reply, query))
      ensures Continues(reply)
    {
      ContinuesExactly(reply, query, appName);
    }
  }

  /**
   * Everything one `_get_events` call does: the events it yields, the
   * exception that ends it (None when it ends normally), the successive
   * states of the query at each call, and the pages decoded.
   */
  datatype Run = Run(events: seq<Event>, failure: Option<Exception>, queries: seq<Element>, pages: seq<Page>)

  /** `a` followed by `b`. */
  function Then(a: Run, b: Run): (run: Run) {
    Run(a.events + b.events, b.failure, a.queries + b.queries, a.pages + b.pages)
  }

  /** The children after the loop's edit: first `tag` child removed, new `tag` appended. */
  function ReplaceTag(cs: seq<Element>, tag: string): (edited: seq<Element>) {
    var kept := match FirstNamed(cs, "tag")
      case None => cs
      case Some(i) => RemoveAt(cs, i);
    kept + [Tag(Str(tag))]
  }

  /** The query of the next call. */
  function NextQuery(q: Element, tag: string): (next: Element) {
    q.(children := ReplaceTag(q.children, tag))
  }

  /** The sequence minus its first element, if it has one. */
  function DropFirst<T>(s: seq<T>): (rest: seq<T>) {
    if s == [] then [] else s[1..]
  }

  /**
   * The edit drops the first `tag` child, adds one carrying the returned
   * value at the end, and keeps every other child in its relative order.
   */
  lemma ReplaceTagEffect(cs: seq<Element>, tag: string)
    ensures Named(ReplaceTag(cs, tag), "tag") == DropFirst(Named(cs, "tag")) + [Tag(Str(tag))]
    ensures Others(ReplaceTag(cs, tag), "tag") == Others(cs, "tag")
    ensures ReplaceTag(cs, tag)[|ReplaceTag(cs, tag)| - 1] == Tag(Str(tag))
  {
    RemoveFirstNamed(cs, "tag");
    var kept := match FirstNamed(cs, "tag")
      case None => cs
      case Some(i) => RemoveAt(cs, i);
    NamedAppend(kept, [Tag(Str(tag))], "tag");
    OthersAppend(kept, [Tag(Str(tag))], "tag");
    if FirstNamed(cs, "tag").None? {
      NamedNone(cs, "tag");
    }
  }

  /** A query with at most one `tag` child has exactly one afterwards, carrying the latest tag. */
  lemma ReplaceTagKeepsOneTag(cs: seq<Element>, tag: string)
    requires |Named(cs, "tag")| <= 1
    ensures Named(ReplaceTag(cs, tag), "tag") == [Tag(Str(tag))]
  {
    ReplaceTagEffect(cs, tag);
  }

  /** What one pass of the loop body leads to: the end of the run, or another call with `tag`. */
  datatype Step = Last(run: Run) | More(events: seq<Event>, page: Page, tag: string)

  /**
   * One pass of the loop body: call, project the page's records, and stop
   * unless every record projected and the page carried a tag.
   */
  function CallOnce(query: Element, reply: Reply, client: Client): (s: Step)
    ensures s.More? ==> Goes(client.decode(reply, query))
    ensures s.Last? ==> s.run.queries == [query] && |s.run.pages| <= 1
  {
    match client.decode(reply, query)
    case Failure(e) => Last(Run([], Some(e), [query], []))
    case Success(page) =>
      var p := Project(page.records, client.record);
      if p.failure.Some? || page.nextTag.None? then Last(Run(p.items, p.failure, [query], [page]))
      else More(p.items, page, page.nextTag.value)
  }

  /**
   * One pass either goes on with a page that decoded, projected fully and
   * carried a tag, or ends the run with what the pass yielded: the
   * exception of the call, or the page and the first failing record, or
   * the tag-less last page.
   */
  lemma CallOnceOutcome(query: Element, reply: Reply, client: Client)
    ensures var s := CallOnce(query, reply, client);
      && (s.More? ==>
            && client.decode(reply, query) == Success(s.page)
            && s.page.nextTag == Some(s.tag)
            && Project(s.page.records, client.record) == Projection(s.events, None))
      && (s.Last? && s.run.pages == [] ==>
            s.run.events == [] && s.run.failure.Some? && client.decode(reply, query) == Failure(s.run.failure.value))
      && (s.Last? && s.run.pages != [] ==>
            && client.decode(reply, query) == Success(s.run.pages[0])
            && Project(s.run.pages[0].records, client.record) == Projection(s.run.events, s.run.failure)
            && (s.run.failure.None? ==> s.run.pages[0].nextTag.None?))
  {
  }

  /** The events the generator yields, computed eagerly. */
  function Paginate(query: Element, replies: seq<Reply>, client: Client): (run: Run)
    requires Ends(replies) && Honest(client.decode)
    decreases |replies|
  {
    match CallOnce(query, replies[0], client)
    case Last(run) => run
    case More(events, page, tag) =>
      Then(Run(events, None, [query], [page]), Paginate(NextQuery(query, tag), replies[1..], client))
  }

  /** The records of all pages, page after page. */
  function AllRecords(pages: seq<Page>): (records: seq<Element>) {
    if pages == [] then [] else pages[0].records + AllRecords(pages[1..])
  }

  /**
   * The calls made: the first sends the query as given; each decoded page
   * but the last carried a tag, and the next call sends the query edited
   * with that tag; the k-th call is answered by the k-th reply.
   */
  lemma {:induction false} PaginateCalls(query: Element, replies: seq<Reply>, client: Client)
    requires Ends(replies) && Honest(client.decode)
    ensures var run := Paginate(query, replies, client);
      && 1 <= |run.queries| <= |replies|
      && run.queries[0] == query
      && (|run.pages| == |run.queries| || |run.pages| + 1 == |run.queries|)
      && (forall k :: 0 <= k < |run.pages| ==> client.decode(replies[k], run.queries[k]) == Success(run.pages[k]))
      && (forall k :: 0 <= k < |run.queries| - 1 ==>
            && run.pages[k].nextTag.Some?
            && Project(run.pages[k].records, client.record).failure.None?
            && run.queries[k + 1] == NextQuery(run.queries[k], run.pages[k].nextTag.value))
    decreases |replies|
  {
    var run := Paginate(query, replies, client);
    CallOnceOutcome(query, replies[0], client);
    match CallOnce(query, replies[0], client)
    case Last(_) =>
    case More(events, page, tag) =>
      var next := NextQuery(query, tag);
      var rest := Paginate(next, replies[1..], client);
      PaginateCalls(next, replies[1..], client);
      assert run.queries == [query] + rest.queries && run.pages == [page] + rest.pages;
      forall k | 0 <= k < |run.pages|
        ensures client.decode(replies[k], run.queries[k]) == Success(run.pages[k])
      {
        if k > 0 {
          assert replies[k] == replies[1..][k - 1];
        }
      }
  }

  /** A run ends normally only after a page that carried no tag, with every call decoded. */
  lemma {:induction false} PaginateEndsNormally(query: Element, replies: seq<Reply>, client: Client)
    requires Ends(replies) && Honest(client.decode)
    ensures var run := Paginate(query, replies, client);
      run.failure.None? ==> |run.pages| == |run.queries| && run.pages[|run.pages| - 1].nextTag.None?
    decreases |replies|
  {
    var run := Paginate(query, replies, client);
    CallOnceOutcome(query, replies[0], client);
    match CallOnce(query, replies[0], client)
    case Last(_) =>
    case More(events, page, tag) =>
      var rest := Paginate(NextQuery(query, tag), replies[1..], client);
      PaginateEndsNormally(NextQuery(query, tag), replies[1..], client);
      PaginateFirstCall(NextQuery(query, tag), replies[1..], client);
      assert run.queries == [query] + rest.queries && run.pages == [page] + rest.pages;
  }

  /**
   * A run whose last call yielded no page ended with the exception that
   * call raised, answered by the reply of the same rank.
   */
  lemma {:induction false} PaginateCallFails(query: Element, replies: seq<Reply>, client: Client)
    requires Ends(replies) && Honest(client.decode)
    ensures var run := Paginate(query, replies, client);
      |run.pages| < |run.queries| ==>
        && |run.pages| < |replies|
        && run.failure.Some?
        && client.decode(replies[|run.pages|], run.queries[|run.pages|]) == Failure(run.failure.value)
    decreases |replies|
  {
    var run := Paginate(query, replies, client);
    CallOnceOutcome(query, replies[0], client);
    match CallOnce(query, replies[0], client)
    case Last(_) =>
    case More(events, page, tag) =>
      var rest := Paginate(NextQuery(query, tag), replies[1..], client);
      PaginateCallFails(NextQuery(query, tag), replies[1..], client);
      assert run.queries == [query] + rest.queries && run.pages == [page] + rest.pages;
      assert run.failure == rest.failure;
      if |run.pages| < |run.queries| {
        var m := |rest.pages|;
        assert run.queries[m + 1] == rest.queries[m];
        assert replies[m + 1] == replies[1..][m];
      }
  }

  /**
   * In a run that decoded every call, the run fails exactly when a record
   * of its last page fails, and with that record's exception.
   */
  lemma {:induction false} PaginateRecordFails(query: Element, replies: seq<Reply>, client: Client)
    requires Ends(replies) && Honest(client.decode)
    ensures var run := Paginate(query, replies, client);
      |run.pages| == |run.queries| ==>
        Project(run.pages[|run.pages| - 1].records, client.record).failure == run.failure
    decreases |replies|
  {
    var run := Paginate(query, replies, client);
    CallOnceOutcome(query, replies[0], client);
    match CallOnce(query, replies[0], client)
    case Last(_) =>
    case More(events, page, tag) =>
      var rest := Paginate(NextQuery(query, tag), replies[1..], client);
      PaginateRecordFails(NextQuery(query, tag), replies[1..], client);
      PaginateFirstCall(NextQuery(query, tag), replies[1..], client);
      assert run.queries == [query] + rest.queries && run.pages == [page] + rest.pages;
  }

  /**
   * The events are the projections of every record of every page, pages
   * in call order and records in server order, nothing dropped or
   * reordered; a normal end means every record projected.
   */
  lemma {:induction false} PaginateYieldsAllRecords(query: Element, replies: seq<Reply>, client: Client)
    requires Ends(replies) && Honest(client.decode)
    ensures var run := Paginate(query, replies, client);
      && run.events == Project(AllRecords(run.pages), client.record).items
      && (run.failure.None? ==> Project(AllRecords(run.pages), client.record).failure.None?)
    decreases |replies|
  {
    var run := Paginate(query, replies, client);
    CallOnceOutcome(query, replies[0], client);
    match CallOnce(query, replies[0], client)
    case Last(r) =>
      if r.pages != [] {
        assert r.pages == [r.pages[0]];
        assert AllRecords(r.pages) == r.pages[0].records + AllRecords([]);
        assert r.pages[0].records + [] == r.pages[0].records;
      }
    case More(events, page, tag) =>
      var next := NextQuery(query, tag);
      var rest := Paginate(next, replies[1..], client);
      PaginateYieldsAllRecords(next, replies[1..], client);
      assert run.pages == [page] + rest.pages;
      assert ([page] + rest.pages)[1..] == rest.pages;
      assert AllRecords(run.pages) == page.records + AllRecords(rest.pages);
      ProjectAppend(page.records, AllRecords(rest.pages), client.record);
  }

  /**
   * Page size does not matter: two runs whose pages hold the same records
   * overall, and that both end normally, yield the same events.
   */
  lemma PaginationEquivalence(q1: Element, replies1: seq<Reply>, q2: Element, replies2: seq<Reply>, client: Client)
    requires Ends(replies1) && Ends(replies2) && Honest(client.decode)
    requires Paginate(q1, replies1, client).failure.None? && Paginate(q2, replies2, client).failure.None?
    requires AllRecords(Paginate(q1, replies1, client).pages) == AllRecords(Paginate(q2, replies2, client).pages)
    ensures Paginate(q1, replies1, client).events == Paginate(q2, replies2, client).events
  {
    PaginateYieldsAllRecords(q1, replies1, client);
    PaginateYieldsAllRecords(q2, replies2, client);
  }

  /**
   * The first event yielded is the projection of the first record of the
   * first page, so whoever stops at the first event sees the server's
   * first record.
   */
  lemma PaginateFirstEvent(query: Element, replies: seq<Reply>, client: Client)
    requires Ends(replies) && Honest(client.decode)
    ensures var run := Paginate(query, replies, client);
      run.events != [] ==> AllRecords(run.pages) != [] && client.record(AllRecords(run.pages)[0]) == Success(run.events[0])
  {
    var run := Paginate(query, replies, client);
    PaginateYieldsAllRecords(query, replies, client);
    ProjectEach(AllRecords(run.pages), client.record);
  }

  /** Every run makes at least one call, with the query as given. */
  lemma PaginateFirstCall(query: Element, replies: seq<Reply>, client: Client)
    requires Ends(replies) && Honest(client.decode)
    ensures |Paginate(query, replies, client).queries| >= 1
    ensures Paginate(query, replies, client).queries[0] == query
  {
    match CallOnce(query, replies[0], client)
    case Last(_) =>
    case More(_, _, _) =>
  }

  /** What a later query holds when the first holds at most one `tag`. */
  ghost predicate CarriesTag(q: Element, first: Element, page: Page) {
    && page.nextTag.Some?
    && Named(q.children, "tag") == [Tag(Str(page.nextTag.value))]
    && Others(q.children, "tag") == Others(first.children, "tag")
    && q.name == first.name
  }

  /** Every query after the first carries the tag of the page before, and the first query's other children. */
  ghost predicate ThreadsTag(query: Element, replies: seq<Reply>, client: Client)
    requires Ends(replies) && Honest(client.decode)
  {
    var run := Paginate(query, replies, client);
    forall k :: 1 <= k < |run.queries| ==> k - 1 < |run.pages| && CarriesTag(run.queries[k], query, run.pages[k - 1])
  }

  /**
   * When the first query holds at most one `tag`, every later query holds
   * exactly one, carrying the tag of the page before, and keeps every
   * other child of the first query in order.
   */
  lemma PaginateThreadsTag(query: Element, replies: seq<Reply>, client: Client)
    requires Ends(replies) && Honest(client.decode)
    requires |Named(query.children, "tag")| <= 1
    ensures ThreadsTag(query, replies, client)
  {
    var run := Paginate(query, replies, client);
    PaginateCalls(query, replies, client);
    forall k | 1 <= k < |run.queries|
      ensures k - 1 < |run.pages| && CarriesTag(run.queries[k], query, run.pages[k - 1])
    {
      ChainCarriesTag(run.queries, run.pages, k);
    }
  }

  /**
   * Along a chain of queries each obtained from the one before by the
   * loop's edit, the k-th carries the tag of page k - 1 and keeps the
   * other children of the first.
   */
  lemma {:induction false} ChainCarriesTag(queries: seq<Element>, pages: seq<Page>, k: nat)
    requires 1 <= k < |queries| && |queries| - 1 <= |pages|
    requires |Named(queries[0].children, "tag")| <= 1
    requires forall j :: 0 <= j < |queries| - 1 ==>
      pages[j].nextTag.Some? && queries[j + 1] == NextQuery(queries[j], pages[j].nextTag.value)
    ensures CarriesTag(queries[k], queries[0], pages[k - 1])
    decreases k
  {
    assert queries[k] == NextQuery(queries[k - 1], pages[k - 1].nextTag.value);
    if k == 1 {
      NextCarriesTag(queries[0], pages[0].nextTag.value, pages[0]);
    } else {
      ChainCarriesTag(queries, pages, k - 1);
      assert |Named(queries[k - 1].children, "tag")| == 1;
      NextCarriesTag(queries[k - 1], pages[k - 1].nextTag.value, pages[k - 1]);
      CarriesTagTrans(queries[k], queries[k - 1], queries[0], pages[k - 1], pages[k - 2]);
    }
  }

  /** The first edit leaves a query that carries the page's tag and keeps at most one `tag`. */
  lemma NextCarriesTag(query: Element, tag: string, page: Page)
    requires |Named(query.children, "tag")| <= 1 && page.nextTag == Some(tag)
    ensures CarriesTag(NextQuery(query, tag), query, page)
    ensures |Named(NextQuery(query, tag).children, "tag")| <= 1
  {
    ReplaceTagKeepsOneTag(query.children, tag);
    ReplaceTagEffect(query.children, tag);
  }

  /** What a later query keeps from the second query it keeps from the first. */
  lemma CarriesTagTrans(q: Element, next: Element, first: Element, page: Page, firstPage: Page)
    requires CarriesTag(q, next, page) && CarriesTag(next, first, firstPage)
    ensures CarriesTag(q, first, page)
  {
  }

  /** The `event-iter` query tree the loop edits in place between calls. */
  class QueryTree {
    const name: string
    const text: Option<string>
    const attrs: seq<Attr>
    var children: seq<Element>

    /** The element the tree currently is. */
    function Value(): (e: Element)
      reads this
    {
      Element(name, text, attrs, children)
    }

    constructor (e: Element)
      ensures Value() == e
    {
      name, text, attrs, children := e.name, e.text, e.attrs, e.children;
    }

    /** `append(e)`: `e` becomes the last child. */
    method Append(e: Element)
      modifies this
      ensures children == old(children) + [e]
    {
      children := children + [e];
    }

    /** `find(n)`: the position of the first child named `n`, if any. */
    method Find(n: string) returns (i: Option<nat>)
      ensures i.Some? ==> i.value < |children| && children[i.value].name == n
      ensures i.Some? ==> forall j :: 0 <= j < i.value ==> children[j].name != n
      ensures i.None? ==> forall j :: 0 <= j < |children| ==> children[j].name != n
      ensures i == FirstNamed(children, n)
    {
      var j := 0;
      while j < |children|
        invariant 0 <= j <= |children|
        invariant forall k :: 0 <= k < j ==> children[k].name != n
      {
        if children[j].name == n {
          return Some(j);
        }
        j := j + 1;
      }
      return None;
    }

    /** `remove(child)` for the child at position `i`. */
    method Remove(i: nat)
      requires i < |children|
      modifies this
      ensures children == RemoveAt(old(children), i)
    {
      children := children[..i] + children[i + 1..];
    }
  }

  lemma ThenAssoc(a: Run, b: Run, c: Run)
    ensures Then(a, Then(b, c)) == Then(Then(a, b), c)
  {
    assert a.events + (b.events + c.events) == (a.events + b.events) + c.events;
    assert a.queries + (b.queries + c.queries) == (a.queries + b.queries) + c.queries;
    assert a.pages + (b.pages + c.pages) == (a.pages + b.pages) + c.pages;
  }

  /**
   * `_get_events(api_call)`, run to the end: the events yielded and how
   * the iteration stopped. The query tree is left as it was sent last.
   */
  method GetEvents(client: Client, query: QueryTree, replies: seq<Reply>) returns (run: Run)
    requires Ends(replies) && Honest(client.decode)
    modifies query
    ensures run == Paginate(old(query.Value()), replies, client)
    ensures query.Value() == run.queries[|run.queries| - 1]
  {
    ghost var whole := Paginate(query.Value(), replies, client);
    var done := Run([], None, [], []);
    var k := 0;
    while true
      invariant 0 <= k < |replies|
      invariant Ends(replies[k..])
      invariant whole == Then(done, Paginate(query.Value(), replies[k..], client))
      decreases |replies| - k
    {
      var current := query.Value();
      assert replies[k..][0] == replies[k];
      var step := Pass(client, query, replies[k]);
      match step
      case Last(last) =>
        PaginateLast(current, replies[k..], client);
        run := Then(done, last);
        return;
      case More(events, page, tag) =>
        PaginateMore(current, replies[k..], client);
        assert replies[k..][1..] == replies[k + 1..];
        ThenAssoc(done, Run(events, None, [current], [page]), Paginate(query.Value(), replies[k + 1..], client));
        done := Then(done, Run(events, None, [current], [page]));
        k := k + 1;
    }
  }

  /**
   * One pass of the loop body on the tree: call, project the page, and,
   * when the run goes on, replace the tree's `tag` child with the new one.
   */
  method Pass(client: Client, query: QueryTree, reply: Reply) returns (step: Step)
    modifies query
    ensures step == CallOnce(old(query.Value()), reply, client)
    ensures step.Last? ==> query.Value() == old(query.Value()) == step.run.queries[0]
    ensures step.More? ==> query.Value() == NextQuery(old(query.Value()), step.tag)
  {
    var current := query.Value();
    CallOnceOutcome(current, reply, client);
    var outcome := client.decode(reply, current);
    if outcome.Failure? {
      return Last(Run([], Some(outcome.error), [current], []));
    }
    var page := outcome.value;
    var events, failure := ProjectPage(page.records, client.record);
    if failure.Some? || page.nextTag.None? {
      return Last(Run(events, failure, [current], [page]));
    }
    var found := query.Find("tag");
    if found.Some? {
      query.Remove(found.value);
    }
    query.Append(Tag(Str(page.nextTag.value)));
    step := More(events, page, page.nextTag.value);
  }

  /** A pass that ends the run is the whole run. */
  lemma PaginateLast(query: Element, replies: seq<Reply>, client: Client)
    requires Ends(replies) && Honest(client.decode)
    requires CallOnce(query, replies[0], client).Last?
    ensures Paginate(query, replies, client) == CallOnce(query, replies[0], client).run
  {
  }

  /** A pass that goes on is followed by the run of the edited query on the remaining replies. */
  lemma PaginateMore(query: Element, replies: seq<Reply>, client: Client)
    requires Ends(replies) && Honest(client.decode)
    requires CallOnce(query, replies[0], client).More?
    ensures Ends(replies[1..])
    ensures var s := CallOnce(query, replies[0], client);
      Paginate(query, replies, client)
        == Then(Run(s.events, None, [query], [s.page]), Paginate(NextQuery(query, s.tag), replies[1..], client))
  {
  }

  /** `for ev in raw_events: yield Event(ev)` over one page. */
  method ProjectPage(records: seq<Element>, record: Element -> Result<Event, Exception>) returns (events: seq<Event>, failure: Option<Exception>)
    ensures Projection(events, failure) == Project(records, record)
  {
    events, failure := [], None;
    var i := 0;
    while i < |records|
      invariant 0 <= i <= |records|
      invariant Project(records, record) ==
        Projection(events + Project(records[i..], record).items, Project(records[i..], record).failure)
    {
      assert records[i..][0] == records[i];
      assert records[i..][1..] == records[i + 1..];
      var ev := record(records[i]);
      if ev.Failure? {
        failure := Some(ev.error);
        return;
      }
      events := events + [ev.value];
      i := i + 1;
    }
    assert records[i..] == [];
  }
}
