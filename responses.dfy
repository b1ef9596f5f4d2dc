/**
 * One round trip of `perform_call`: the query is wrapped in the request
 * envelope, the server's reply is read, and the parsed response is
 * decoded into the next continuation tag and the page's records.
 */
module Responses {
  import opened Wrappers
  import opened Decimal
  import opened Xml
  import opened Vocabulary
  import opened Exceptions

  const ONTAP_MAJORVERSION: int := 1
  const ONTAP_MINORVERSION: int := 0
  const XMLNS: string := "http://www.netapp.com/filer/admin"
  /** `"%d.%d" % (ONTAP_MAJORVERSION, ONTAP_MINORVERSION)`. */
  const XMLNS_VERSION: string := IntToDecimal(ONTAP_MAJORVERSION) + "." + IntToDecimal(ONTAP_MINORVERSION)
  const DEFAULT_APP_NAME: string := "netapp-ocum-events"

  /** The request sent for `query`: the query wrapped in a `netapp` root carrying namespace, version and application name. */
  function Envelope(query: Element, appName: string): (r: Element)
    ensures r.name == "netapp" && r.children == [query]
    ensures r.attrs == [Attr("xmlns", XMLNS), Attr("version", "1.0"), Attr("nmsdk_app", appName)]
  {
    assert DigitChar(1) == '1' && DigitChar(0) == '0';
    assert XMLNS_VERSION == "1.0";
    Netapp(query, [Attr("xmlns", XMLNS), Attr("version", XMLNS_VERSION), Attr("nmsdk_app", appName)])
  }

  /**
   * A parsed response, as the XPath queries of the decoder see it: each
   * field lists what one query yields, in document order.
   */
  datatype Response = Response(
    status: seq<string>,       // /netapp/results/@status
    reason: seq<string>,       // /netapp/results/@reason
    errno: seq<string>,        // /netapp/results/@errno
    numRecords: seq<string>,   // /netapp/results/num-records/text()
    records: seq<Element>,     // /netapp/results/records/*
    nextTag: seq<string>)      // /netapp/results/next-tag/text()

  /** What the HTTP layer hands back: a response, or a transport failure. */
  datatype Reply = TransportFailure | Delivered(response: Response)

  /** One decoded page: the continuation tag, if any, and the raw records in server order. */
  datatype Page = Page(nextTag: Option<string>, records: seq<Element>)

  /** The server passed the call and reported as many records as it sent. */
  predicate Accepted(resp: Response) {
    && resp.status != [] && resp.status[0] == "passed"
    && resp.numRecords != [] && ParseInt(resp.numRecords[0]) == Some(|resp.records|)
  }

  /**
   * The decoding half of `perform_call` for the request `request`. It fails
   * with APIError when the status is not `passed`, with AssertionError when
   * the record count is wrong, and with IndexError or ValueError when a
   * queried node is missing or not a number.
   */
  function Decode(resp: Response, request: Element): (r: Result<Page, Exception>)
    ensures r.Success? <==> Accepted(resp)
    ensures resp.status == [] ==> r == Failure(IndexError)
    ensures resp.status != [] && resp.status[0] != "passed" && (resp.reason == [] || resp.errno == [])
            ==> r == Failure(IndexError)
    ensures resp.status != [] && resp.status[0] == "passed" && resp.numRecords == [] ==> r == Failure(IndexError)
    ensures (&& resp.status != [] && resp.status[0] == "passed" && resp.numRecords != []
             && ParseInt(resp.numRecords[0]).None?) ==> r == Failure(ValueError)
    ensures r.Success? ==> r.value.records == resp.records
    ensures r.Success? ==> (r.value.nextTag.Some? <==> resp.nextTag != [])
    ensures r.Success? && resp.nextTag != [] ==> r.value.nextTag == Some(resp.nextTag[0])
    ensures (resp.status != [] && resp.status[0] != "passed" && resp.reason != [] && resp.errno != [])
            ==> r == Failure(APIError(resp.reason[0], resp.errno[0], request))
    ensures (&& resp.status != [] && resp.status[0] == "passed" && resp.numRecords != []
             && ParseInt(resp.numRecords[0]).Some? && ParseInt(resp.numRecords[0]) != Some(|resp.records|))
            ==> r == Failure(AssertionError)
    ensures r.Failure? && r.error.APIError? ==> r.error.failingQuery == request
  {
    if resp.status == [] then Failure(IndexError)
    else if resp.status[0] != "passed" then
      if resp.reason == [] || resp.errno == [] then Failure(IndexError)
      else Failure(APIError(resp.reason[0], resp.errno[0], request))
    else if resp.numRecords == [] then Failure(IndexError)
    else match ParseInt(resp.numRecords[0])
      case None => Failure(ValueError)
      case Some(n) =>
        if n != |resp.records| then Failure(AssertionError)
        else Success(Page(if resp.nextTag == [] then None else Some(resp.nextTag[0]), resp.records))
  }

  /** `perform_call(api_call)`, given the reply the server sends to its request. */
  function PerformCall(reply: Reply, query: Element, appName: string): (r: Result<Page, Exception>)
    ensures reply.TransportFailure? ==> r == Failure(TransportError)
    ensures reply.Delivered? ==> r == Decode(reply.response, Envelope(query, appName))
  {
    match reply
    case TransportFailure => Failure(TransportError)
    case Delivered(resp) => Decode(resp, Envelope(query, appName))
  }

  /** The reply decodes to a page that carries a continuation tag. */
  predicate Continues(reply: Reply) {
    reply.Delivered? && Accepted(reply.response) && reply.response.nextTag != []
  }

  /**
   * Another page is requested exactly when the reply continues, whatever
   * the query was: an absent or text-less `next-tag` ends pagination.
   */
  lemma ContinuesExactly(reply: Reply, query: Element, appName: string)
    ensures (PerformCall(reply, query, appName).Success? && PerformCall(reply, query, appName).value.nextTag.Some?)
            <==> Continues(reply)
  {
  }

  /** The value a response built by the server decodes to. */
  function PassedResponse(records: seq<Element>, nextTag: Option<string>): (resp: Response) {
    Response(["passed"], [], [], [IntToDecimal(|records|)], records,
             if nextTag.Some? && nextTag.value != "" then [nextTag.value] else [])
  }

  /** A passed response carrying its true record count decodes to exactly its records and tag. */
  lemma DecodePassed(records: seq<Element>, nextTag: Option<string>, request: Element)
    ensures Decode(PassedResponse(records, nextTag), request) ==
      Success(Page(if nextTag == Some("") then None else nextTag, records))
  {
    ParseIntRoundTrip(|records|);
  }
}
