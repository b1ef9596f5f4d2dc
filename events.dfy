/**
 * The Event record and its projection from one raw `event` element of a
 * response, read child by child in the order the constructor reads them.
 */
module Events {
  import opened Wrappers
  import opened Decimal
  import opened Xml
  import opened Vocabulary
  import opened Exceptions

  datatype Event = Event(
    about: string,
    category: string,
    condition: string,
    id: int,
    impactArea: string,
    impactLevel: string,
    name: string,
    severity: string,
    sourceName: string,
    sourceResourceKey: string,
    sourceType: string,
    state: string,
    eventType: string,
    timestamp: int)

  /**
   * `_child_get_string(parent, name)`: the first text node under the
   * children of `parent` named `name`, or IndexError when there is none.
   */
  function ChildGetString(parent: Element, name: string): (r: Result<string, Exception>)
    ensures r.Failure? ==> r.error == IndexError
  {
    var texts := TextAt(parent.children, [name]);
    if texts == [] then Failure(IndexError) else Success(texts[0])
  }

  /**
   * `_child_get_string` succeeds exactly when some child named `name` has
   * text, and then returns the text of the first such child.
   */
  lemma ChildGetStringFirst(parent: Element, name: string)
    ensures ChildGetString(parent, name).Success? <==>
      exists i :: 0 <= i < |parent.children| && parent.children[i].name == name && HasText(parent.children[i])
    ensures ChildGetString(parent, name).Success? ==>
      exists i :: && 0 <= i < |parent.children|
                  && parent.children[i].name == name
                  && parent.children[i].text == Some(ChildGetString(parent, name).value)
                  && forall j :: 0 <= j < i ==> !(parent.children[j].name == name && HasText(parent.children[j]))
  {
    FirstText(parent.children, name);
  }

  /** `int(_child_get_string(parent, name))`. */
  function ChildGetInt(parent: Element, name: string): (r: Result<int, Exception>)
    ensures r.Success? <==> ChildGetString(parent, name).Success? && ParseInt(ChildGetString(parent, name).value).Some?
    ensures r.Success? ==> r.value == ParseInt(ChildGetString(parent, name).value).value
    ensures r.Failure? ==> r.error == (if ChildGetString(parent, name).Failure? then IndexError else ValueError)
  {
    var text :- ChildGetString(parent, name);
    match ParseInt(text)
    case None => Failure(ValueError)
    case Some(n) => Success(n)
  }

  /** Every child an Event is read from is present with text, and the integer ones parse. */
  predicate HasEventFields(raw: Element) {
    && ChildGetString(raw, "event-about").Success?
    && ChildGetString(raw, "event-category").Success?
    && ChildGetString(raw, "event-condition").Success?
    && ChildGetInt(raw, "event-id").Success?
    && ChildGetString(raw, "event-impact-area").Success?
    && ChildGetString(raw, "event-impact-level").Success?
    && ChildGetString(raw, "event-name").Success?
    && ChildGetString(raw, "event-severity").Success?
    && ChildGetString(raw, "event-source-name").Success?
    && ChildGetString(raw, "event-source-resource-key").Success?
    && ChildGetString(raw, "event-source-type").Success?
    && ChildGetString(raw, "event-state").Success?
    && ChildGetString(raw, "event-type").Success?
    && ChildGetInt(raw, "event-time").Success?
  }

  /** `Event(raw_event)`: every field is required; `id` and `timestamp` are integer parses. */
  function ToEvent(raw: Element): (r: Result<Event, Exception>)
    ensures r.Success? <==> HasEventFields(raw)
    ensures r.Success? ==>
      && r.value.id == ChildGetInt(raw, "event-id").value
      && r.value.timestamp == ChildGetInt(raw, "event-time").value
      && r.value.about == ChildGetString(raw, "event-about").value
      && r.value.name == ChildGetString(raw, "event-name").value
      && r.value.severity == ChildGetString(raw, "event-severity").value
      && r.value.state == ChildGetString(raw, "event-state").value
    ensures r.Success? ==>
      && r.value.category == ChildGetString(raw, "event-category").value
      && r.value.condition == ChildGetString(raw, "event-condition").value
      && r.value.impactArea == ChildGetString(raw, "event-impact-area").value
      && r.value.impactLevel == ChildGetString(raw, "event-impact-level").value
      && r.value.sourceName == ChildGetString(raw, "event-source-name").value
      && r.value.sourceResourceKey == ChildGetString(raw, "event-source-resource-key").value
      && r.value.sourceType == ChildGetString(raw, "event-source-type").value
      && r.value.eventType == ChildGetString(raw, "event-type").value
    ensures r.Failure? ==> r.error == IndexError || r.error == ValueError
  {
    var about :- ChildGetString(raw, "event-about");
    var category :- ChildGetString(raw, "event-category");
    var condition :- ChildGetString(raw, "event-condition");
    var id :- ChildGetInt(raw, "event-id");
    var impactArea :- ChildGetString(raw, "event-impact-area");
    var impactLevel :- ChildGetString(raw, "event-impact-level");
    var name :- ChildGetString(raw, "event-name");
    var severity :- ChildGetString(raw, "event-severity");
    var sourceName :- ChildGetString(raw, "event-source-name");
    var sourceResourceKey :- ChildGetString(raw, "event-source-resource-key");
    var sourceType :- ChildGetString(raw, "event-source-type");
    var state :- ChildGetString(raw, "event-state");
    var eventType :- ChildGetString(raw, "event-type");
    var timestamp :- ChildGetInt(raw, "event-time");
    Success(Event(about, category, condition, id, impactArea, impactLevel, name, severity,
                  sourceName, sourceResourceKey, sourceType, state, eventType, timestamp))
  }

  /**
   * The raw record a server sends for an event: one text child per field,
   * integers written with `str`.
   */
  function EventRecord(ev: Event): (raw: Element) {
    Wrapper("event-info", [
      ValueElement("event-about", Str(ev.about)),
      ValueElement("event-category", Str(ev.category)),
      ValueElement("event-condition", Str(ev.condition)),
      ValueElement("event-id", Int(ev.id)),
      ValueElement("event-impact-area", Str(ev.impactArea)),
      ValueElement("event-impact-level", Str(ev.impactLevel)),
      ValueElement("event-name", Str(ev.name)),
      ValueElement("event-severity", Str(ev.severity)),
      ValueElement("event-source-name", Str(ev.sourceName)),
      ValueElement("event-source-resource-key", Str(ev.sourceResourceKey)),
      ValueElement("event-source-type", Str(ev.sourceType)),
      ValueElement("event-state", Str(ev.state)),
      ValueElement("event-type", Str(ev.eventType)),
      ValueElement("event-time", Int(ev.timestamp))])
  }

  /** Every field is non-empty, so each one survives as a text node. */
  predicate Readable(ev: Event) {
    && ev.about != "" && ev.category != "" && ev.condition != "" && ev.impactArea != ""
    && ev.impactLevel != "" && ev.name != "" && ev.severity != "" && ev.sourceName != ""
    && ev.sourceResourceKey != "" && ev.sourceType != "" && ev.state != "" && ev.eventType != ""
  }

  /** A child whose name no other child carries is read back by `_child_get_string`. */
  lemma UniqueChildText(parent: Element, k: nat)
    requires k < |parent.children| && HasText(parent.children[k])
    requires forall j :: 0 <= j < |parent.children| && j != k ==> parent.children[j].name != parent.children[k].name
    ensures ChildGetString(parent, parent.children[k].name) == Success(parent.children[k].text.value)
  {
    ChildGetStringFirst(parent, parent.children[k].name);
  }

  /** Each child of an event's record reads back as the field it was written from. */
  lemma EventRecordFields(ev: Event)
    requires Readable(ev)
    ensures var raw := EventRecord(ev);
      && ChildGetString(raw, "event-about") == Success(ev.about)
      && ChildGetString(raw, "event-category") == Success(ev.category)
      && ChildGetString(raw, "event-condition") == Success(ev.condition)
      && ChildGetString(raw, "event-id") == Success(IntToDecimal(ev.id))
      && ChildGetString(raw, "event-impact-area") == Success(ev.impactArea)
      && ChildGetString(raw, "event-impact-level") == Success(ev.impactLevel)
      && ChildGetString(raw, "event-name") == Success(ev.name)
      && ChildGetString(raw, "event-severity") == Success(ev.severity)
      && ChildGetString(raw, "event-source-name") == Success(ev.sourceName)
      && ChildGetString(raw, "event-source-resource-key") == Success(ev.sourceResourceKey)
      && ChildGetString(raw, "event-source-type") == Success(ev.sourceType)
      && ChildGetString(raw, "event-state") == Success(ev.state)
      && ChildGetString(raw, "event-type") == Success(ev.eventType)
      && ChildGetString(raw, "event-time") == Success(IntToDecimal(ev.timestamp))
  {
    RecordField(ev, 0);
    RecordField(ev, 1);
    RecordField(ev, 2);
    RecordField(ev, 3);
    RecordField(ev, 4);
    RecordField(ev, 5);
    RecordField(ev, 6);
    RecordField(ev, 7);
    RecordField(ev, 8);
    RecordField(ev, 9);
    RecordField(ev, 10);
    RecordField(ev, 11);
    RecordField(ev, 12);
    RecordField(ev, 13);
  }

  lemma RecordField(ev: Event, k: nat)
    requires Readable(ev) && k < 14
    ensures var raw := EventRecord(ev);
      ChildGetString(raw, raw.children[k].name) == Success(raw.children[k].text.value)
  {
    IntToDecimalNonEmpty(ev.id);
    IntToDecimalNonEmpty(ev.timestamp);
    UniqueChildText(EventRecord(ev), k);
  }

  lemma IntToDecimalNonEmpty(n: int)
    ensures IntToDecimal(n) != ""
  {
  }

  /** Projecting the record of an event gives back that event. */
  lemma ToEventRoundTrip(ev: Event)
    requires Readable(ev)
    ensures ToEvent(EventRecord(ev)) == Success(ev)
  {
    EventRecordFields(ev);
    ParseIntRoundTrip(ev.id);
    ParseIntRoundTrip(ev.timestamp);
  }

  /** The outcome of projecting a page's records one after the other. */
  datatype Projection<T> = Projection(items: seq<T>, failure: Option<Exception>)

  /**
   * `for ev in raw_events: yield ctor(ev)`: the values of the records
   * before the first one whose projection fails, and that failure.
   */
  function Project<T>(rs: seq<Element>, ctor: Element -> Result<T, Exception>): (p: Projection<T>)
    ensures |p.items| <= |rs|
    ensures p.failure.None? <==> |p.items| == |rs|
  {
    if rs == [] then Projection([], None)
    else match ctor(rs[0])
      case Failure(e) => Projection([], Some(e))
      case Success(v) =>
        var rest := Project(rs[1..], ctor);
        Projection([v] + rest.items, rest.failure)
  }

  /**
   * Every value yielded is the projection of the record at the same
   * position, and a failure is the projection failure of the next record.
   */
  lemma {:induction false} ProjectEach<T>(rs: seq<Element>, ctor: Element -> Result<T, Exception>)
    ensures forall i :: 0 <= i < |Project(rs, ctor).items| ==> ctor(rs[i]) == Success(Project(rs, ctor).items[i])
    ensures Project(rs, ctor).failure.Some? ==>
      ctor(rs[|Project(rs, ctor).items|]) == Failure(Project(rs, ctor).failure.value)
  {
    if rs != [] && ctor(rs[0]).Success? {
      var p, rest := Project(rs, ctor), Project(rs[1..], ctor);
      ProjectEach(rs[1..], ctor);
      assert p.items == [ctor(rs[0]).value] + rest.items;
      forall i | 0 <= i < |p.items|
        ensures ctor(rs[i]) == Success(p.items[i])
      {
        if i > 0 {
          assert rs[i] == rs[1..][i - 1];
        }
      }
      if p.failure.Some? {
        assert rs[|p.items|] == rs[1..][|rest.items|];
      }
    }
  }

  /** Projecting two lists in a row is projecting their concatenation. */
  lemma {:induction false} ProjectAppend<T>(a: seq<Element>, b: seq<Element>, ctor: Element -> Result<T, Exception>)
    ensures Project(a, ctor).failure.Some? ==> Project(a + b, ctor) == Project(a, ctor)
    ensures Project(a, ctor).failure.None? ==>
      Project(a + b, ctor) == Projection(Project(a, ctor).items + Project(b, ctor).items, Project(b, ctor).failure)
  {
    if a == [] {
      assert a + b == b;
    } else {
      assert (a + b)[0] == a[0];
      assert (a + b)[1..] == a[1..] + b;
      if ctor(a[0]).Success? {
        ProjectAppend(a[1..], b, ctor);
      }
    }
  }
}
