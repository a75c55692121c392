/**
 * The two pure decisions the actuator manager takes on an inbound
 * message: is it the reply to the outstanding request (`_filter_event`),
 * and did the enclosure stop succeed (`_parse_response`).
 *
 * A reply is shaped
 *   { message: { actuator_response_type: { severity: ... },
 *                sspl_ll_msg_header: { uuid: ... } } }
 * The key strings stand for the ACTUATOR_ATTRIBUTES constants; the model
 * relies only on their being distinct.
 */
module Messages {
  import opened Wrappers
  import opened Json

  const MESSAGE: string := "message"
  const ACTUATOR_RESPONSE_TYPE: string := "actuator_response_type"
  const HEADER: string := "sspl_ll_msg_header"
  const UUID: string := "uuid"
  const SEVERITY: string := "severity"

  const INFORMATIONAL: string := "informational"
  const WARNING: string := "warning"

  // Readers for the paths the two decisions look at.
  function MessageOf(doc: Json): Json { Field(doc, MESSAGE) }
  function ResponseTypeOf(doc: Json): Json { Field(MessageOf(doc), ACTUATOR_RESPONSE_TYPE) }
  function HeaderOf(doc: Json): Json { Field(MessageOf(doc), HEADER) }
  function UuidOf(doc: Json): Json { Field(HeaderOf(doc), UUID) }
  function SeverityOf(doc: Json): Json { Field(ResponseTypeOf(doc), SEVERITY) }

  /** `_filter_event`: is `doc` the reply to the request whose correlation
      id is `current`?  A message without a response type is not a reply;
      a reply matches when its header uuid `==` the stored one, so a reply
      with no uuid matches while nothing is outstanding.  A document whose
      `message`, or (for a reply) whose header, is not a dictionary makes
      the `.get` chain raise. */
  function FilterEvent(doc: Json, current: Option<string>): (r: Eval<bool>)
    ensures r.Raises? <==>
      !IsObject(MessageOf(doc)) || (ResponseTypeOf(doc) != JNull && !IsObject(HeaderOf(doc)))
    ensures r == Returns(true) <==>
      ResponseTypeOf(doc) != JNull && IsObject(HeaderOf(doc)) && UuidOf(doc) == AsJson(current)
    ensures IsObject(MessageOf(doc)) && ResponseTypeOf(doc) == JNull ==> r == Returns(false)
  {
    match Get(doc, MESSAGE)
    case Raises => Raises
    case Returns(message) =>
      match Get(message, ACTUATOR_RESPONSE_TYPE)
      case Raises => Raises
      case Returns(msgType) =>
        if msgType != JNull then
          match Get(message, HEADER)
          case Raises => Raises
          case Returns(header) =>
            match Get(header, UUID)
            case Raises => Raises
            case Returns(uuid) => Returns(uuid == AsJson(current))
        else
          Returns(false)
  }

  /** `_parse_response`: severity "informational" is a successful shutdown,
      "warning" a failed one, and any other value (missing included) is
      logged as unexpected and also counts as failure.  It raises when the
      response type is not a dictionary. */
  function ParseResponse(doc: Json): (r: Eval<bool>)
    ensures r.Raises? <==> !IsObject(ResponseTypeOf(doc))
    ensures r == Returns(true) <==>
      IsObject(ResponseTypeOf(doc)) && SeverityOf(doc) == JString(INFORMATIONAL)
  {
    match Get(doc, MESSAGE)
    case Raises => Raises
    case Returns(message) =>
      match Get(message, ACTUATOR_RESPONSE_TYPE)
      case Raises => Raises
      case Returns(responseType) =>
        match Get(responseType, SEVERITY)
        case Raises => Raises
        case Returns(severity) =>
          if severity == JString(INFORMATIONAL) then Returns(true)
          else if severity == JString(WARNING) then Returns(false)
          else Returns(false)
  }

  /** The reply the monitor sends for the request with correlation id
      `uuid`, carrying `severity`. */
  function Reply(uuid: string, severity: string): (doc: Json)
    ensures IsObject(ResponseTypeOf(doc)) && IsObject(HeaderOf(doc))
    ensures UuidOf(doc) == JString(uuid) && SeverityOf(doc) == JString(severity)
  {
    JObject(map[MESSAGE := JObject(map[
      ACTUATOR_RESPONSE_TYPE := JObject(map[SEVERITY := JString(severity)]),
      HEADER := JObject(map[UUID := JString(uuid)])])])
  }

  /** A reply carrying `severity` whose header has no uuid. */
  function UuidlessReply(severity: string): (doc: Json)
    ensures IsObject(ResponseTypeOf(doc)) && IsObject(HeaderOf(doc))
    ensures UuidOf(doc) == JNull && SeverityOf(doc) == JString(severity)
  {
    JObject(map[MESSAGE := JObject(map[
      ACTUATOR_RESPONSE_TYPE := JObject(map[SEVERITY := JString(severity)]),
      HEADER := JObject(map[])])])
  }

  /** A well-formed reply passes the filter exactly when it carries the
      stored correlation id, and parses to the outcome of its severity. */
  lemma ReplyRoundTrip(uuid: string, severity: string, current: Option<string>)
    ensures FilterEvent(Reply(uuid, severity), current) == Returns(current == Some(uuid))
    ensures ParseResponse(Reply(uuid, severity)) == Returns(severity == INFORMATIONAL)
  {
  }

  /** The severity mapping over every document the parser does not reject:
      "informational" is success, "warning" failure, anything else failure. */
  lemma SeverityMapping(doc: Json)
    requires IsObject(ResponseTypeOf(doc))
    ensures SeverityOf(doc) == JString(INFORMATIONAL) ==> ParseResponse(doc) == Returns(true)
    ensures SeverityOf(doc) == JString(WARNING) ==> ParseResponse(doc) == Returns(false)
    ensures SeverityOf(doc) != JString(INFORMATIONAL) ==> ParseResponse(doc) == Returns(false)
  {
  }

  /** With nothing outstanding, a reply whose header has no uuid passes the
      filter, because `None == None`. */
  lemma UuidlessReplyMatchesWhenIdle(doc: Json)
    requires ResponseTypeOf(doc) != JNull && IsObject(HeaderOf(doc)) && UuidOf(doc) == JNull
    ensures FilterEvent(doc, None) == Returns(true)
  {
  }
}
