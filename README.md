# NetApp OCUM event client, modelled in Dafny

This project models the event-query client of `netapp-api-python`. The client builds
small XML queries for the NetApp OnCommand Unified Manager event API, and each query is
sent wrapped in a `netapp` root element. The server's reply is decoded into a
continuation tag and a page of raw records, and every record becomes an `Event`. While
the server keeps returning a `next-tag`, the same query tree is edited in place and sent
again: its first `tag` child is removed and a new one is appended.

Modules, one per part of the client:

- `Wrappers`: `Option` and `Result`.
- `Decimal`: Python's `str(int)` and `int(str)` on decimal text, and the round trip between them.
- `Xml`: the element datatype, plus the child-path selection and `text()` reads that the client's XPath queries perform.
- `Vocabulary`: the element builders of `netapp/vocabulary.py`.
- `Exceptions`: the exceptions the client raises or lets through, including `APIError` with its message, errno and failing query.
- `Events`: `_child_get_string`, `Event.__init__`, and the per-page projection `for ev in raw_events: yield Event(ev)`.
- `Responses`: the request envelope and the decoding half of `perform_call`.
- `Paginator`: `_get_events` in two forms:
  - `Paginate`, a specification function over element values;
  - `GetEvents`, a loop proved equal to `Paginate`. It and its loop body `Pass` edit the mutable query tree, the class `QueryTree`.
- `EventLog`: `filter`, `__iter__` and `single_by_id`.
- `ReadBack`: what a reader of a `filter` request finds at each path below the `netapp` root.

The server is an oracle: `replies[k]` is its answer to the k-th call of a run. A reply is
either a transport failure or a parsed response. A parsed response is a record of what
each XPath query of the decoder yields, in document order: `@status`, `@reason`,
`@errno`, `num-records/text()`, `records/*` and `next-tag/text()`. Every run is
required to end within the replies given: the last reply does not continue.

The paginator is generic over a `Client`, which pairs the decoder with the record
constructor. The server's own client is `ServerClient(appName)`: it decodes with
`perform_call` and constructs records with `Event(raw)`. `CallerHonest` proves that this
decoder asks for another page only on a reply that continues.

A `next-tag` element that is present but carries no text ends pagination, because the
XPath `text()` query yields nothing for it.

## Model

| member | source | states |
|---|---|---|
| Decimal.ParseIntRoundTrip | netapp/vocabulary.py:22 | `int(str(n)) == n` for every integer: text written by a value element reads back as the same number |
| Decimal.IntToDecimalInjective | netapp/vocabulary.py:22 | distinct integers are written as distinct texts |
| Xml.RemoveFirstNamed | netapp/api.py:227-230 | removing the child that `find(n)` returns drops exactly the first child named `n` and keeps every other child in relative order, each child after the removed one moving up one place; `find` returns none only when no child is named `n` |
| Xml.FirstText | netapp/api.py:72-74 | the text nodes of the children named `n` are non-empty exactly when such a child has text, and the first one is the text of the first such child |
| Xml.NamedAtFirst | netapp/api.py:227-230 | selecting `n` yields the child that `find(n)` returns, followed by the selection from the remaining children |
| Xml.OthersWithout | netapp/api.py:229-230 | removing a child named `n` leaves the children of other names as they were |
| Xml.NamedOnly | netapp/api.py:227 | when only one child carries a name, `find` returns its position and selecting by that name yields that child alone |
| Vocabulary.ValueElement | netapp/vocabulary.py:17-23 | a leaf named `name` whose text is `str(v)`, with no attributes or children; an integer argument parses back to itself |
| Vocabulary.EventIter | netapp/vocabulary.py:25-32 | an `event-iter` element without text or attributes whose children are exactly the arguments, in order; `event_iter()` has no children |
| Vocabulary.BuildEventIter | netapp/vocabulary.py:25-32 | the append loop builds exactly `EventIter(children)` |
| Vocabulary.GreaterThanId | netapp/vocabulary.py:34-38 | is `_value_element('greater-than-id', x)`; its text node is `str(x)` unless that is empty |
| Vocabulary.Netapp | netapp/vocabulary.py:11-12 | the root element holds the query as its only child and carries the attributes given |
| Vocabulary.Timeout | netapp/vocabulary.py:14-15 | a leaf `timeout` element carrying the text given |
| Vocabulary.EachValue | netapp/api.py:156-162 | `map(builder, values)`: one value element per value, same length and order |
| Vocabulary.EnvelopeKeepsPaths | netapp/tests/test_vocabulary.py:21-35 | a path read below the `netapp` root finds what the same path finds in the query itself |
| Events.ChildGetString | netapp/api.py:67-74 | `_child_get_string` fails only with IndexError |
| Events.ChildGetStringFirst | netapp/api.py:67-74 | `_child_get_string` succeeds exactly when some child of that name has text, and returns the text of the first such child |
| Events.ChildGetInt | netapp/api.py:319 | `int(_child_get_string(...))` succeeds exactly when the child is found and its text parses, returning the parsed value; otherwise IndexError for a missing child, ValueError for a non-number |
| Events.ToEvent | netapp/api.py:313-334 | `Event(raw)` succeeds exactly when all fourteen required children are present with text and `event-id` and `event-time` parse (the model does not reject a timestamp that `datetime.fromtimestamp` refuses); every field is the value read for it, `id` and `timestamp` parsed as integers; a failure is IndexError or ValueError |
| Events.EventRecordFields | netapp/api.py:316-331 | each child of an event's record is read back by `_child_get_string` as the field it was written from |
| Events.ToEventRoundTrip | netapp/api.py:313-334 | projecting the record written for an event whose text fields are non-empty gives back that event |
| Events.Project | netapp/api.py:214-215 | the projection yields at most one value per record, and ends without failure exactly when every record projected |
| Events.ProjectEach | netapp/api.py:214-215 | the i-th value yielded is the projection of the i-th record, and a failure is the projection failure of the first record not yielded |
| Events.ProjectAppend | netapp/api.py:210-215 | projecting two pages in a row is projecting their concatenation; a failure in the first page hides the second |
| Responses.Envelope | netapp/api.py:245-248 | the request is the query wrapped in `netapp` with `xmlns`, `version="1.0"` and `nmsdk_app` attributes |
| Responses.Decode | netapp/api.py:270-304 | success exactly when the status is `passed` and `int(num-records)` equals the record count; the page holds exactly the records, in order, and the first `next-tag` text if any; APIError carries reason, errno and the request; a count mismatch is AssertionError; a missing status, reason, errno or `num-records` is IndexError, and a `num-records` that is not an integer is ValueError |
| Responses.PerformCall | netapp/api.py:236-304 | a transport failure raises; a delivered response decodes against the enveloped query |
| Responses.ContinuesExactly | netapp/api.py:296-304 | a call yields a tag exactly when the reply was accepted and carries a `next-tag` text node |
| Responses.DecodePassed | netapp/api.py:287-304 | a passed response with its true record count decodes to its records and its tag; an empty tag counts as none |
| Paginator.CallerHonest | netapp/api.py:212-220 | the server's decoder yields a tag only on a reply that continues, so the loop calls again only then |
| Paginator.ReplaceTagEffect | netapp/api.py:221-234 | the edit removes the first `tag` child, appends a `tag` carrying the returned value at the end, and keeps every other child in relative order |
| Paginator.ReplaceTagKeepsOneTag | netapp/api.py:221-234 | a query with at most one `tag` child has exactly one after the edit, carrying the latest tag |
| Paginator.CallOnce | netapp/api.py:212-220 | one pass goes on only with a decoded page that carries a tag; an ending pass sent exactly that query and decoded at most one page |
| Paginator.CallOnceOutcome | netapp/api.py:212-220 | a pass goes on with a fully projected page that carries a tag; otherwise it ends with the call's exception, with the first failing record, or after a page without a tag |
| Paginator.PaginateCalls | netapp/api.py:208-234 | the first call sends the query as given; the k-th page is what the k-th reply decodes to for the k-th query; every call after the first follows a page that carried a tag and whose every record projected, and sends the previous query edited with that page's tag |
| Paginator.PaginateEndsNormally | netapp/api.py:217-219 | a run ends without exception only after a page without a tag, with every call decoded |
| Paginator.PaginateCallFails | netapp/api.py:212 | a run whose last call decoded nothing ended with that call's exception, and no call followed |
| Paginator.PaginateRecordFails | netapp/api.py:214-215 | in a run that decoded every call, the run's exception is exactly the exception of the first failing record of its last page, and there is none when every record of that page projected |
| Paginator.PaginateYieldsAllRecords | netapp/api.py:210-215 | the events are the projections of all the pages' records concatenated: pages in call order, records in server order, nothing dropped or reordered |
| Paginator.PaginationEquivalence | netapp/tests/test_api.py:73-78 | two runs that end normally and whose pages hold the same records overall yield the same events, whatever the page sizes |
| Paginator.PaginateFirstEvent | netapp/api.py:107-108 | the first event yielded is the projection of the first record of the first page |
| Paginator.PaginateFirstCall | netapp/api.py:210-212 | every run makes at least one call, with the query as given |
| Paginator.PaginateThreadsTag | netapp/api.py:221-234 | when the first query holds at most one `tag`, every later query holds exactly one, carrying the previous page's tag, and keeps the first query's name and other children |
| Paginator.ChainCarriesTag | netapp/api.py:221-234 | along a chain of queries, each edited from the one before, the k-th carries the tag of page k-1 |
| Paginator.NextCarriesTag | netapp/api.py:227-232 | the first edit of a query with at most one `tag` leaves one `tag` carrying the page's tag |
| Paginator.QueryTree.Find | netapp/api.py:227 | `find('tag')` returns the position of the first child so named, or none when no child is |
| Paginator.QueryTree.Remove | netapp/api.py:229-230 | `remove` takes out exactly that child |
| Paginator.QueryTree.Append | netapp/api.py:232 | `append` adds the element as the last child |
| Paginator.GetEvents | netapp/api.py:198-234 | the loop yields exactly the run that `Paginate` specifies for the query as it was, and leaves the tree as it was sent last |
| Paginator.Pass | netapp/api.py:212-232 | one pass of the loop body on the tree does what `CallOnce` specifies; when the run goes on, the tree becomes the edited query, otherwise it is untouched |
| Paginator.PaginateLast | netapp/api.py:217-219 | a pass that ends the run is the whole rest of the run |
| Paginator.PaginateMore | netapp/api.py:221-234 | a pass that goes on is followed by the run of the edited query on the remaining replies |
| Paginator.ProjectPage | netapp/api.py:214-215 | the per-record loop yields exactly the projection of the page |
| EventLog.FilterQueryShape | netapp/api.py:142-170 | the filter query is an `event-iter` with one child per keyword given and the timeout last, carrying `str(timeout)` or `"0"` |
| EventLog.FilterQueryNoTag | netapp/api.py:142-170 | the filter query holds no `tag` child |
| EventLog.FilterQueryGreaterThanId | netapp/api.py:144-145 | `greater-than-id` appears once, carrying `str` of the value, exactly when given |
| EventLog.FilterQueryMaxRecords | netapp/api.py:164-165 | `max-records` appears once, carrying `str` of the value, exactly when given |
| EventLog.FilterQueryTimeout | netapp/api.py:168 | `timeout` always appears exactly once |
| EventLog.FilterQueryTimeRange | netapp/api.py:147-153 | `time-range` appears once, built from the pair given, exactly when given |
| EventLog.FilterQueryStates | netapp/api.py:156-158 | `event-state-filter-list` appears once, with one `event-state` leaf per state in order, exactly when given |
| EventLog.FilterQuerySeverities | netapp/api.py:160-162 | `event-severities` appears once, with one `obj-status` leaf per severity in order, exactly when given |
| EventLog.TimeRangeNesting | netapp/api.py:147-153 | the time range holds one `event-timestamp-range` with the end time before the start time |
| EventLog.NoFilterQuery | netapp/api.py:94-97 | `filter()` with no keyword sends `event-iter` holding only `timeout` with text "0" |
| EventLog.AppendIfGiven | netapp/api.py:144-145 | an optional keyword appends its element only when given |
| EventLog.BuildFilterQuery | netapp/api.py:142-168 | the conditional appends build exactly the filter query, in a fresh tree |
| EventLog.Filter | netapp/api.py:113-170 | `filter(**opts)` yields the run of its filter query |
| EventLog.Iter | netapp/api.py:94-97 | iterating the log yields the run of `filter()` |
| EventLog.FilterThreadsTag | netapp/api.py:168-170 | every later query that `filter` sends keeps the filter query's children and holds exactly one `tag`, carrying the previous page's tag |
| EventLog.SingleById | netapp/api.py:99-110 | the first event of the `event-id` query's run; else the exception raised before any event; else KeyError |
| ReadBack.UnderQuery | netapp/tests/test_vocabulary.py:32-40 | `netapp/event-iter/<n>` in the request selects the query's children named `n` |
| ReadBack.UnderChild | netapp/tests/test_vocabulary.py:42-84 | below the only child of a name, the read continues among that child's children |
| ReadBack.EachValueReadBack | netapp/tests/test_vocabulary.py:42-59 | a list of leaves reads back as `str` of each value, in the order given |
| ReadBack.FilterRequestScalars | netapp/tests/test_vocabulary.py:37-71 | in a filter request the timeout, greater-than-id and max-records read back as `str` of what was given |
| ReadBack.FilterRequestTimes | netapp/tests/test_vocabulary.py:73-84 | both ends of a time range read back below `time-range/event-timestamp-range` |
| ReadBack.FilterRequestLists | netapp/tests/test_vocabulary.py:42-59 | states and severities read back as given, in order |
| ReadBack.TagReadBack | netapp/tests/test_vocabulary.py:32-35 | in a query holding one `tag` child, `find('tag')` returns it and `netapp/event-iter/tag/text()` reads back its value |
| ReadBack.GreaterThanIdSeventeen | netapp/tests/test_vocabulary.py:61-65 | `greater_than_id(17)` carries the text "17" |

## Left out

- HTTP transport: `requests.post`, TLS, basic auth and `raise_for_status` become one `TransportFailure` reply, which raises `TransportError`. The server's URL and credentials are not modelled; a `Server` holds only its application name, `DEFAULT_APP_NAME` when none is given (`Paginator.DefaultServer`).
- lxml serialization, parsing and namespaces. A response is the record of what each XPath query yields. `APIError.failing_query` holds the request element rather than its serialized bytes. Elements carry no tails, comments or mixed content.
- `Event.datetime`, computed with `datetime.fromtimestamp` and a pytz zone, is left out. So are `Event.__str__` and `APIError.__str__`; these are locale and time-zone dependent formatting.
- Events.ToEvent: succeeds for every integer `event-time`. `Event(raw)` also fails when `datetime.fromtimestamp` refuses the timestamp (netapp/api.py:332-333): ValueError for a time outside years 1 to 9999, such as "300000000000", and OverflowError or OSError beyond the platform's `time_t`. Those limits depend on the platform and the time zone, so the model leaves them out.
- The `_DEBUG` printing.
- Laziness of the generator. A run is computed eagerly, up to its end or its first exception. The events yielded before an exception are the same in both forms, and so is the outcome of `single_by_id`. A consumer that stops early would avoid the later calls; the model does not show that.
- A server that keeps sending tags forever. Every run is assumed to end within the replies given.
- Decimal.ParseInt: accepts an optional sign followed by ASCII digits only. Python's `int()` also accepts surrounding whitespace, `_` between digits and non-ASCII digits, so such texts are a ValueError in the model.
- Events.ToEvent: the contract says the error is IndexError or ValueError but not which field raised it. The body reads the fields in the source's order.
- Python's `assert` in `perform_call` is always checked. Under `python -O` the count check would be skipped.
- `filter`'s documented timeout default is not implemented. The docstring (netapp/api.py:130-132) says the timeout defaults to 0 when a time range is given. The code (netapp/api.py:140, 168) sends `str(timeout)` whether or not a time range is given. The model follows the code, as `EventLog.FilterQueryShape` states.
- `timeout=None` given explicitly is treated as an absent keyword (text "0"). Python would send the text "None".
- Keyword values are modelled as integers or strings. `netapp/vocabulary.py` defines only `netapp`, `timeout`, `_value_element`, `event_iter` and `greater_than_id`. The other builders that `netapp/api.py` and the tests call are modelled after those two patterns:
  - value leaves: `event_id`, `tag`, `max_records`, `start_time`, `end_time`, `event_state`, `obj_status`;
  - wrappers: `time_range`, `event_timestamp_range`, `event_state_filter_list`, `event_severities`.
- Vocabulary.EventIter: elements are values here, so appending one copies it. lxml's `append` (netapp/vocabulary.py:30-31, netapp/api.py:232) moves an element that already has a parent, so it behaves differently in two cases:
  - `event_iter(x, x)` builds one child, not two;
  - an argument taken from another tree is detached from that tree.
  The model gives two children and leaves the other tree unchanged. No call in `netapp/api.py` passes a repeated or attached element.
- Vocabulary.ValueElement: builds the element for every string. It does not model two ways `elm.text = str(value)` (netapp/vocabulary.py:22) can fail:
  - lxml raises ValueError for text holding NUL or other control characters that XML does not allow;
  - under Python 2.7, `str()` of a non-ASCII unicode argument raises UnicodeEncodeError. The same holds for the `str()` calls at netapp/api.py:105, 145 and 165.
- Unknown keywords given to `filter`. Its keywords are read with `kwargs.get` (netapp/api.py:135-140), so a misspelt keyword is silently ignored. That includes `severity=` in the module's own usage example (netapp/api.py:28-29), which therefore filters nothing. `FilterOptions` holds only the six keywords the code reads, so such a call is the same as leaving the keyword out.
