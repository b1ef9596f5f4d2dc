/** The exceptions the event client lets escape to its caller. */
module Exceptions {
  import opened Xml

  datatype Exception =
    /** `raise_for_status` or a failed connection: the HTTP layer gave up. */
    | TransportError
    /** The server answered with a status other than `passed`. */
    | APIError(msg: string, errno: string, failingQuery: Element)
    /** `assert num_records == len(records)` failed. */
    | AssertionError
    /** `[0]` on an empty XPath result: a missing attribute or text node. */
    | IndexError
    /** `int(...)` of a text that is not a decimal integer. */
    | ValueError
    /** `single_by_id` found no event. */
    | KeyError
}
