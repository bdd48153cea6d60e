/**
 * Session lifecycle handlers (app/handlers/session_handlers.py):
 * session.initiate, session.resume, session.end and connection.validate.
 */
module SessionHandlers {
  import opened Wrappers
  import opened Json
  import opened MessageSchemas
  import opened Transport
  import opened Conversation

  /** The one media format the bot accepts a session with. */
  const RequiredFormat: string := "raw/lpcm16"
  const FormatNotSupported: string := "Required media format not supported"

  /** Python's `item in container` for a string item and a parsed JSON container. */
  function PyIn(item: string, container: Json): (r: Result<bool, string>)
    ensures r.Failure? <==> container.JNull? || container.JBool? || container.JInt?
    ensures container.JArr? ==> r == Success(JStr(item) in container.items)
    ensures container.JStr? ==> r.Success? && (r.value <==> IsSubstring(item, container.s))
    ensures container.JObj? ==> r == Success(item in container.fields)
  {
    match container
    case JArr(items) => Success(JStr(item) in items)
    case JStr(s) => ContainsIsSubstring(s, item); Success(Contains(s, item))
    case JObj(fields) => Success(item in fields)
    case _ => Failure("TypeError: argument is not iterable")
  }

  /** `"raw/lpcm16" in message.get("supportedMediaFormats", [])`. */
  function OffersRequiredFormat(message: map<string, Json>): Result<bool, string> {
    PyIn(RequiredFormat, GetOr(message, "supportedMediaFormats", JArr([])))
  }

  /** handle_session_initiate, as a function of the world before the call. */
  function InitiateSpec(w: World, failing: set<nat>, ws: Socket, message: map<string, Json>): (r: (World, Outcome))
    // A missing format list counts as an empty one: the session is rejected.
    ensures "supportedMediaFormats" !in message && SendSucceeds(w.log.attempts, failing) ==>
      r.1 == Returned(DictReply(SessionError(None, FormatNotSupported)))
    // Accepted: exactly the accepted reply is sent and returned.
    ensures OffersRequiredFormat(message) == Success(true) && SendSucceeds(w.log.attempts, failing) ==>
      r.0.log.sent == w.log.sent + [SentMessage(SessionAccepted(None, RequiredFormat))]
    ensures r.1 == Returned(DictReply(SessionAccepted(None, RequiredFormat))) <==>
      OffersRequiredFormat(message) == Success(true) && SendSucceeds(w.log.attempts, failing)
      && (Truthy(Get(message, "conversationId")) ==> HashKey(Get(message, "conversationId")).Some?)
    // Accepted with a truthy id: the conversation is registered with the required format.
    ensures r.1 == Returned(DictReply(SessionAccepted(None, RequiredFormat))) && Truthy(Get(message, "conversationId")) ==>
      HashKey(Get(message, "conversationId")).Some? &&
      r.0.active == w.active[HashKey(Get(message, "conversationId")).value := Entry(ws, RequiredFormat)]
    // The registry changes only once the accepted reply has been written, and only for a truthy id.
    ensures r.0.active != w.active ==>
      OffersRequiredFormat(message) == Success(true) && SendSucceeds(w.log.attempts, failing) && Truthy(Get(message, "conversationId"))
    // Rejected: exactly the error reply is sent and returned, and the registry is unchanged.
    ensures OffersRequiredFormat(message) == Success(false) ==> r.0.active == w.active
    ensures r.1 == Returned(DictReply(SessionError(None, FormatNotSupported))) <==>
      OffersRequiredFormat(message) == Success(false) && SendSucceeds(w.log.attempts, failing)
    ensures OffersRequiredFormat(message) == Success(false) && SendSucceeds(w.log.attempts, failing) ==>
      r.0.log.sent == w.log.sent + [SentMessage(SessionError(None, FormatNotSupported))]
    // At most one message is written, whatever happens.
    ensures |r.0.log.sent| <= |w.log.sent| + 1 && r.0.log.attempts <= w.log.attempts + 1
  {
    var id := Get(message, "conversationId");
    match OffersRequiredFormat(message)
    case Failure(e) => (w, Raised(e))
    case Success(true) =>
      var reply := SessionAccepted(None, RequiredFormat);
      var (log, ok) := Emit(w.log, failing, SentMessage(reply));
      if !ok then (World(w.active, log), Raised("send failed"))
      else if !Truthy(id) then (World(w.active, log), Returned(DictReply(reply)))
      else
        (match HashKey(id)
         case None => (World(w.active, log), Raised("TypeError: unhashable type"))
         case Some(k) => (World(Apply(w.active, AddOp(k, ws, RequiredFormat)), log), Returned(DictReply(reply))))
    case Success(false) =>
      var reply := SessionError(None, FormatNotSupported);
      var (log, ok) := Emit(w.log, failing, SentMessage(reply));
      (World(w.active, log), if ok then Returned(DictReply(reply)) else Raised("send failed"))
  }

  /** handle_session_initiate. */
  method HandleSessionInitiate(message: map<string, Json>, ws: Socket, cm: ConversationManager) returns (out: Outcome)
    modifies ws`sent, ws`attempts, cm
    ensures (World(cm.active, ws.LogOf()), out) == InitiateSpec(World(old(cm.active), old(ws.LogOf())), ws.failing, ws, message)
  {
    var formats := GetOr(message, "supportedMediaFormats", JArr([]));
    var id := Get(message, "conversationId");
    var offered := PyIn(RequiredFormat, formats);
    if offered.Failure? {
      return Raised(offered.error);
    }
    if offered.value {
      var reply := SessionAccepted(None, RequiredFormat);
      var ok := ws.Send(SentMessage(reply));
      if !ok {
        return Raised("send failed");
      }
      if Truthy(id) {
        var added := cm.Add(id, ws, RequiredFormat);
        if !added {
          return Raised("TypeError: unhashable type");
        }
      }
      out := Returned(DictReply(reply));
    } else {
      var reply := SessionError(None, FormatNotSupported);
      var ok := ws.Send(SentMessage(reply));
      out := if ok then Returned(DictReply(reply)) else Raised("send failed");
    }
  }

  /** handle_session_resume: always the accepted dictionary, whatever the message; nothing is sent or registered. */
  function HandleSessionResume(message: map<string, Json>): (r: Reply)
    ensures r.DictReply? && r.msg.SessionAccepted?
    ensures r.msg.mediaFormat == RequiredFormat && r.msg.conversationId.None?
  {
    DictReply(SessionAccepted(None, RequiredFormat))
  }

  /** handle_session_end, as a function of the world before the call. */
  function EndSpec(w: World, message: map<string, Json>): (r: (World, Outcome))
    ensures r.0.log == w.log
    ensures r.1.Returned? ==> r.1.reply == NoReply
    ensures r.1.Raised? <==> Truthy(Get(message, "conversationId")) && HashKey(Get(message, "conversationId")).None?
    ensures !Truthy(Get(message, "conversationId")) ==> r.0.active == w.active
    ensures r.1.Returned? && Truthy(Get(message, "conversationId")) ==>
      r.0.active.Keys == w.active.Keys - {HashKey(Get(message, "conversationId")).value}
    ensures forall k :: k in r.0.active ==> k in w.active && r.0.active[k] == w.active[k]
  {
    var id := Get(message, "conversationId");
    if !Truthy(id) then (w, Returned(NoReply))
    else
      match HashKey(id)
      case None => (w, Raised("TypeError: unhashable type"))
      case Some(k) => (World(Apply(w.active, RemoveOp(k)), w.log), Returned(NoReply))
  }

  /** handle_session_end. */
  method HandleSessionEnd(message: map<string, Json>, cm: ConversationManager) returns (out: Outcome)
    modifies cm
    ensures (World(cm.active, Log([], 0)), out) == EndSpec(World(old(cm.active), Log([], 0)), message)
  {
    var id := Get(message, "conversationId");
    if Truthy(id) {
      var removed := cm.Remove(id);
      if !removed {
        return Raised("TypeError: unhashable type");
      }
    }
    out := Returned(NoReply);
  }

  /** handle_connection_validate: a successful validation reply for any message. */
  function HandleConnectionValidate(message: map<string, Json>): (r: Reply)
    ensures r.DictReply? && r.msg.ConnectionValidated? && r.msg.success
    ensures r.msg.conversationId.None?
  {
    DictReply(ConnectionValidated(None, true))
  }
}
