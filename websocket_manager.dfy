/**
 * The connection loop of the bot server (app/websocket_manager.py): every
 * text frame is parsed, routed by its `type` to a handler, and the handler's
 * reply is written back; when the loop ends, the last conversation id seen is
 * removed from the registry and the socket is closed.
 */
module WebSocketManager {
  import opened Wrappers
  import opened Json
  import opened MessageSchemas
  import opened Transport
  import opened Conversation
  import opened SessionHandlers
  import opened StreamHandlers
  import opened ActivityHandlers

  /** The handlers of the routing table. */
  datatype Handler =
    | InitiateHandler | ResumeHandler | UserStreamStartHandler | UserStreamChunkHandler
    | UserStreamStopHandler | ActivitiesHandler | EndHandler | ValidateHandler

  /** The routing table: message type to handler. */
  const Handlers: map<string, Handler> := map[
    "session.initiate" := InitiateHandler,
    "session.resume" := ResumeHandler,
    "userStream.start" := UserStreamStartHandler,
    "userStream.chunk" := UserStreamChunkHandler,
    "userStream.stop" := UserStreamStopHandler,
    "activities" := ActivitiesHandler,
    "session.end" := EndHandler,
    "connection.validate" := ValidateHandler
  ]

  /** The table routes exactly the incoming message kinds of the protocol. */
  lemma RoutesIncoming(m: Message)
    ensures TypeName(m) in Handlers <==> IsIncoming(m)
  {
    match m
    case SessionAccepted(_, _) =>
    case SessionError(_, _) =>
    case UserStreamStarted(_) =>
    case UserStreamStopped(_) =>
    case UserStreamHypothesis(_, _) =>
    case PlayStreamStart(_, _, _) =>
    case PlayStreamChunk(_, _, _) =>
    case PlayStreamStop(_, _) =>
    case ConnectionValidated(_, _) =>
    case _ =>
  }

  /** Running the handler `h` on a message: its effect on the world and how it ended. */
  function Dispatch(w: World, failing: set<nat>, ws: Socket, env: SampleEnv, message: map<string, Json>, h: Handler): (r: (World, Outcome))
    ensures h != InitiateHandler && h != EndHandler ==> r.0.active == w.active
    ensures h != InitiateHandler && h != ActivitiesHandler ==> r.0.log == w.log
    ensures |r.0.log.sent| >= |w.log.sent| && r.0.log.sent[..|w.log.sent|] == w.log.sent
  {
    match h
    case InitiateHandler => InitiateSpec(w, failing, ws, message)
    case ResumeHandler => (w, Returned(HandleSessionResume(message)))
    case UserStreamStartHandler => (w, Returned(HandleUserStreamStart(message)))
    case UserStreamChunkHandler => (w, Returned(HandleUserStreamChunk(message)))
    case UserStreamStopHandler => (w, Returned(HandleUserStreamStop(message)))
    case ActivitiesHandler =>
      var (log, out) := ActivitiesSpec(w.log, failing, env, message);
      (World(w.active, log), out)
    case EndHandler => EndSpec(w, message)
    case ValidateHandler => (w, Returned(HandleConnectionValidate(message)))
  }

  /**
   * Writing a handler's reply as the code does, with `json.dumps(response)`: a dictionary is
   * written, but a Pydantic model is not JSON serializable, so the call raises TypeError and
   * nothing is written. The second component says whether the loop goes on.
   */
  function ReplyWriteAsWritten(log: Log, failing: set<nat>, reply: Reply): (r: (Log, bool))
    ensures reply.ModelReply? ==> r == (log, false)
    ensures reply.NoReply? ==> r == (log, true)
    ensures reply.DictReply? ==> r == Emit(log, failing, SentMessage(reply.msg))
  {
    match reply
    case NoReply => (log, true)
    case DictReply(m) => Emit(log, failing, SentMessage(m))
    case ModelReply(_) => (log, false)
  }

  /** Writing a handler's reply as intended: every reply, dictionary or model, is written as its JSON. */
  function ReplyWrite(log: Log, failing: set<nat>, reply: Reply): (r: (Log, bool))
    ensures !ReplyTruthy(reply) ==> r == (log, true)
    ensures ReplyTruthy(reply) ==> r.0.attempts == log.attempts + 1
    ensures ReplyTruthy(reply) ==> (r.1 <==> SendSucceeds(log.attempts, failing))
    ensures ReplyTruthy(reply) && r.1 ==> r.0.sent == log.sent + [SentMessage(reply.msg)]
    ensures ReplyTruthy(reply) && !r.1 ==> r.0.sent == log.sent
  {
    if !ReplyTruthy(reply) then (log, true) else Emit(log, failing, SentMessage(reply.msg))
  }

  /** The `type` a text frame holding a dictionary names, when it is a string. */
  function TypeOf(f: Frame): Option<string> {
    if f.Text? && f.json.Some? && f.json.value.JObj? && Get(f.json.value.fields, "type").JStr?
    then Some(Get(f.json.value.fields, "type").s)
    else None
  }

  /** Whether a frame is a text frame holding a dictionary, which every routed message must be. */
  predicate IsDict(f: Frame) {
    f.Text? && f.json.Some? && f.json.value.JObj?
  }

  /** The `type` entry of a dictionary frame (null when it is missing). */
  function TypeField(f: Frame): Json
    requires IsDict(f)
  {
    Get(f.json.value.fields, "type")
  }

  /** Whether the routing table has a handler for the frame's type. */
  predicate Routed(f: Frame) {
    TypeOf(f).Some? && TypeOf(f).value in Handlers
  }

  /** What one pass of the loop leaves: the world, the `conversation_id` variable, and whether the loop goes on. */
  datatype Step = Step(world: World, lastId: Json, goOn: bool)

  /** One pass of the `while True` loop on a received frame. */
  function StepSpec(w: World, failing: set<nat>, ws: Socket, env: SampleEnv, f: Frame, lastId: Json, asWritten: bool): (r: Step)
    // Binary frames, invalid JSON and JSON that is not a dictionary raise: the loop ends, nothing changes.
    ensures !IsDict(f) ==> r == Step(w, lastId, false)
    // The id variable follows every dictionary received.
    ensures IsDict(f) ==> r.lastId == Get(f.json.value.fields, "conversationId")
    // A type that cannot be hashed makes the routing test raise: the loop ends, nothing changes.
    ensures IsDict(f) && HashKey(TypeField(f)).None? ==> r.world == w && !r.goOn
    // Any other type the table does not route (missing, null, a number, an unknown string) is ignored.
    ensures IsDict(f) && HashKey(TypeField(f)).Some? && !Routed(f) ==> r.world == w && r.goOn
    // A routed message other than session.end: a handler that raises ends the loop; otherwise the
    // reply is written exactly when it is truthy and the type is not session.initiate, whose
    // handler writes its own reply.
    ensures Routed(f) && TypeOf(f).value != "session.end" ==>
      var d := Dispatch(w, failing, ws, env, f.json.value.fields, Handlers[TypeOf(f).value]);
      && (d.1.Raised? ==> r.world == d.0 && !r.goOn)
      && (d.1.Returned? && TypeOf(f).value == "session.initiate" ==> r.world == d.0 && r.goOn)
      && (d.1.Returned? && TypeOf(f).value != "session.initiate" ==>
            r.world.active == d.0.active
            && (r.world.log, r.goOn) == if asWritten then ReplyWriteAsWritten(d.0.log, failing, d.1.reply)
                                        else ReplyWrite(d.0.log, failing, d.1.reply))
    ensures !asWritten && Routed(f) && TypeOf(f).value != "session.end" ==>
      var d := Dispatch(w, failing, ws, env, f.json.value.fields, Handlers[TypeOf(f).value]);
      d.1.Returned? ==>
        ((|r.world.log.sent| == |d.0.log.sent| + 1)
         <==> ReplyTruthy(d.1.reply) && TypeOf(f).value != "session.initiate" && SendSucceeds(d.0.log.attempts, failing))
    // session.end ends the loop without writing anything.
    ensures TypeOf(f) == Some("session.end") ==> !r.goOn && r.world.log == w.log
    // Only session.initiate and session.end change the registry.
    ensures r.world.active != w.active ==> TypeOf(f) == Some("session.initiate") || TypeOf(f) == Some("session.end")
    ensures |r.world.log.sent| >= |w.log.sent| && r.world.log.sent[..|w.log.sent|] == w.log.sent
  {
    if !IsDict(f) then Step(w, lastId, false)
    else
      var message := f.json.value.fields;
      var id := Get(message, "conversationId");
      var t := Get(message, "type");
      if HashKey(t).None? then Step(w, id, false)
      else if !t.JStr? || t.s !in Handlers then Step(w, id, true)
      else
        var h := Handlers[t.s];
        var (w1, out) := Dispatch(w, failing, ws, env, message, h);
        if out.Raised? || h == EndHandler then Step(w1, id, false)
        else if h == InitiateHandler then Step(w1, id, true)
        else
          var (log, ok) := if asWritten then ReplyWriteAsWritten(w1.log, failing, out.reply) else ReplyWrite(w1.log, failing, out.reply);
          Step(World(w1.active, log), id, ok)
  }

  /** Where the loop stopped: the world, the `conversation_id` variable, and how many frames it received. */
  datatype Served = Served(world: World, lastId: Json, consumed: nat)

  /** The `while True` loop over the frames still to come; running out of frames is the peer disconnecting. */
  function Serve(w: World, failing: set<nat>, ws: Socket, env: SampleEnv, frames: seq<Frame>, lastId: Json, asWritten: bool): (r: Served)
    ensures r.consumed <= |frames|
    ensures |r.world.log.sent| >= |w.log.sent| && r.world.log.sent[..|w.log.sent|] == w.log.sent
    decreases |frames|
  {
    if frames == [] then Served(w, lastId, 0)
    else
      var s := StepSpec(w, failing, ws, env, frames[0], lastId, asWritten);
      if !s.goOn then Served(s.world, s.lastId, 1)
      else
        var r := Serve(s.world, failing, ws, env, frames[1..], s.lastId, asWritten);
        Served(r.world, r.lastId, r.consumed + 1)
  }

  /** A loop result with `n` more frames received before it. */
  function Shift(s: Served, n: nat): Served {
    Served(s.world, s.lastId, s.consumed + n)
  }

  /** One unfolding of the loop on a received frame. */
  lemma ServeUnfold(w: World, failing: set<nat>, ws: Socket, env: SampleEnv, frames: seq<Frame>, lastId: Json, asWritten: bool)
    requires frames != []
    ensures var s := StepSpec(w, failing, ws, env, frames[0], lastId, asWritten);
      Serve(w, failing, ws, env, frames, lastId, asWritten)
      == if !s.goOn then Served(s.world, s.lastId, 1) else Shift(Serve(s.world, failing, ws, env, frames[1..], s.lastId, asWritten), 1)
  {
  }

  /** The loop after `i` frames, once the next frame has been handled with outcome `s`. */
  lemma ServeStep(w: World, failing: set<nat>, ws: Socket, env: SampleEnv, frames: seq<Frame>, i: nat, lastId: Json, s: Step)
    requires i < |frames| && s == StepSpec(w, failing, ws, env, frames[i], lastId, false)
    ensures Shift(Serve(w, failing, ws, env, frames[i..], lastId, false), i)
      == if !s.goOn then Served(s.world, s.lastId, i + 1) else Shift(Serve(s.world, failing, ws, env, frames[i + 1..], s.lastId, false), i + 1)
  {
    ServeUnfold(w, failing, ws, env, frames[i..], lastId, false);
    assert frames[i..][1..] == frames[i + 1..];
  }

  /** How a connection ended: the world, the frames received, whether the socket was closed and whether the cleanup raised. */
  datatype Ended = Ended(world: World, consumed: nat, closed: bool, raised: bool)

  /** The `finally` block: remove the last conversation id if truthy, then close; an unhashable id raises first. */
  function CleanupSpec(s: Served): (r: Ended)
    ensures r.closed <==> !r.raised
    ensures r.raised <==> Truthy(s.lastId) && HashKey(s.lastId).None?
    ensures r.world.log == s.world.log && r.consumed == s.consumed
    ensures Truthy(s.lastId) && HashKey(s.lastId).Some? ==>
      r.world.active.Keys == s.world.active.Keys - {HashKey(s.lastId).value}
    ensures !Truthy(s.lastId) || HashKey(s.lastId).None? ==> r.world.active == s.world.active
    ensures forall k :: k in r.world.active ==> k in s.world.active && r.world.active[k] == s.world.active[k]
  {
    if !Truthy(s.lastId) then Ended(s.world, s.consumed, true, false)
    else
      match HashKey(s.lastId)
      case None => Ended(s.world, s.consumed, false, true)
      case Some(k) => Ended(World(Apply(s.world.active, RemoveOp(k)), s.world.log), s.consumed, true, false)
  }

  /** handle_websocket, as a function of the world and the frames the peer sends. */
  function ConnectionSpec(w: World, failing: set<nat>, ws: Socket, env: SampleEnv, frames: seq<Frame>, asWritten: bool): (r: Ended)
    ensures r.consumed <= |frames|
    ensures |r.world.log.sent| >= |w.log.sent| && r.world.log.sent[..|w.log.sent|] == w.log.sent
    // The socket is closed exactly when the cleanup does not raise.
    ensures r.closed <==> !r.raised
    // A conversation named by the last message is not left registered once the socket is closed.
    ensures var last := Serve(w, failing, ws, env, frames, JNull, asWritten).lastId;
      r.closed && Truthy(last) ==> HashKey(last).Some? && HashKey(last).value !in r.world.active
  {
    CleanupSpec(Serve(w, failing, ws, env, frames, JNull, asWritten))
  }

  // ---------------------------------------------------------------------------
  // Frames used in the lemmas below.

  function TextFrame(fields: map<string, Json>): Frame {
    Text(Some(JObj(fields)))
  }

  function InitiateFrame(id: string): Frame {
    TextFrame(map["type" := JStr("session.initiate"), "conversationId" := JStr(id),
                  "supportedMediaFormats" := JArr([JStr(RequiredFormat)])])
  }

  function UserStreamStartFrame(id: string): Frame {
    TextFrame(map["type" := JStr("userStream.start"), "conversationId" := JStr(id)])
  }

  function EndFrame(id: string): Frame {
    TextFrame(map["type" := JStr("session.end"), "conversationId" := JStr(id)])
  }

  /**
   * As written, the reply to userStream.start (a Pydantic model) cannot be serialized: the
   * loop ends without the userStream.started reply being written.
   */
  lemma UserStreamStartEndsConnectionAsWritten(w: World, failing: set<nat>, ws: Socket, env: SampleEnv, id: string, lastId: Json)
    ensures StepSpec(w, failing, ws, env, UserStreamStartFrame(id), lastId, true) == Step(w, JStr(id), false)
  {
    var message := map["type" := JStr("userStream.start"), "conversationId" := JStr(id)];
    assert ParseIdOnly(message, "userStream.start") == Success(Some(id));
    assert HandleUserStreamStart(message) == ModelReply(UserStreamStarted(Some(id)));
  }

  /** As intended, userStream.start is answered with userStream.started for the same conversation, and the loop goes on. */
  lemma UserStreamStartAnswered(w: World, failing: set<nat>, ws: Socket, env: SampleEnv, id: string, lastId: Json)
    requires SendSucceeds(w.log.attempts, failing)
    ensures StepSpec(w, failing, ws, env, UserStreamStartFrame(id), lastId, false)
         == Step(World(w.active, Log(w.log.sent + [SentMessage(UserStreamStarted(Some(id)))], w.log.attempts + 1)), JStr(id), true)
  {
    var message := map["type" := JStr("userStream.start"), "conversationId" := JStr(id)];
    assert ParseIdOnly(message, "userStream.start") == Success(Some(id));
    assert HandleUserStreamStart(message) == ModelReply(UserStreamStarted(Some(id)));
  }

  /** As written, a whole call that starts the user stream is cut short at that message: the frames after it are never received. */
  lemma CallCutShortAsWritten(failing: set<nat>, ws: Socket, env: SampleEnv, id: string, rest: seq<Frame>)
    requires SendSucceeds(0, failing)
    requires id != ""
    ensures ConnectionSpec(World(map[], Log([], 0)), failing, ws, env, [InitiateFrame(id), UserStreamStartFrame(id)] + rest, true).consumed == 2
  {
    var w0 := World(map[], Log([], 0));
    var frames := [InitiateFrame(id), UserStreamStartFrame(id)] + rest;
    var s1 := StepSpec(w0, failing, ws, env, frames[0], JNull, true);
    InitiateAccepted(w0, failing, ws, env, id, JNull, true);
    assert frames[1..][0] == UserStreamStartFrame(id);
    UserStreamStartEndsConnectionAsWritten(s1.world, failing, ws, env, id, s1.lastId);
    assert Serve(s1.world, failing, ws, env, frames[1..], s1.lastId, true).consumed == 1;
  }

  /** session.initiate offering raw/lpcm16 with a string id: accepted, registered, and the loop goes on. */
  lemma InitiateAccepted(w: World, failing: set<nat>, ws: Socket, env: SampleEnv, id: string, lastId: Json, asWritten: bool)
    requires SendSucceeds(w.log.attempts, failing)
    requires id != ""
    ensures StepSpec(w, failing, ws, env, InitiateFrame(id), lastId, asWritten)
         == Step(World(w.active[KStr(id) := Entry(ws, RequiredFormat)],
                       Log(w.log.sent + [SentMessage(SessionAccepted(None, RequiredFormat))], w.log.attempts + 1)),
                 JStr(id), true)
  {
    var message := InitiateFrame(id).json.value.fields;
    InitiateDispatched(w, failing, ws, env, id);
    assert Get(message, "type") == JStr("session.initiate");
    assert Get(message, "conversationId") == JStr(id);
    assert Handlers["session.initiate"] == InitiateHandler;
  }

  /** The session.initiate handler on that message: the reply is written and the id registered. */
  lemma InitiateDispatched(w: World, failing: set<nat>, ws: Socket, env: SampleEnv, id: string)
    requires SendSucceeds(w.log.attempts, failing)
    requires id != ""
    ensures Dispatch(w, failing, ws, env, InitiateFrame(id).json.value.fields, InitiateHandler)
         == (World(w.active[KStr(id) := Entry(ws, RequiredFormat)],
                   Log(w.log.sent + [SentMessage(SessionAccepted(None, RequiredFormat))], w.log.attempts + 1)),
             Returned(DictReply(SessionAccepted(None, RequiredFormat))))
  {
    var message := InitiateFrame(id).json.value.fields;
    assert OffersRequiredFormat(message) == Success(true);
    assert Get(message, "conversationId") == JStr(id);
  }

  /**
   * A whole call: initiate, then end, with no failing write. The session is accepted once, the
   * conversation is registered and then removed, and the socket is closed.
   */
  lemma InitiateThenEnd(ws: Socket, env: SampleEnv, id: string, asWritten: bool)
    requires id != ""
    ensures ConnectionSpec(World(map[], Log([], 0)), {}, ws, env, [InitiateFrame(id), EndFrame(id)], asWritten)
         == Ended(World(map[], Log([SentMessage(SessionAccepted(None, RequiredFormat))], 1)), 2, true, false)
  {
    var w0 := World(map[], Log([], 0));
    var frames := [InitiateFrame(id), EndFrame(id)];
    InitiateAccepted(w0, {}, ws, env, id, JNull, asWritten);
    var w1 := World(map[KStr(id) := Entry(ws, RequiredFormat)], Log([SentMessage(SessionAccepted(None, RequiredFormat))], 1));
    assert frames[1..] == [EndFrame(id)];
    var s2 := StepSpec(w1, {}, ws, env, EndFrame(id), JStr(id), asWritten);
    assert s2 == Step(World(map[], w1.log), JStr(id), false);
    assert Serve(w1, {}, ws, env, frames[1..], JStr(id), asWritten) == Served(World(map[], w1.log), JStr(id), 1);
    assert Serve(w0, {}, ws, env, frames, JNull, asWritten) == Served(World(map[], w1.log), JStr(id), 2);
  }

  /** The bot server: the registry it shares across connections, and its routing table. */
  class Manager {
    const conversations: ConversationManager

    constructor ()
      ensures fresh(conversations) && conversations.active == map[]
    {
      conversations := new ConversationManager();
    }

    /** One pass of the loop on a received frame. */
    method HandleFrame(ws: Socket, env: SampleEnv, f: Frame, lastId: Json) returns (id: Json, goOn: bool)
      modifies ws`sent, ws`attempts, conversations
      ensures Step(World(conversations.active, ws.LogOf()), id, goOn)
           == StepSpec(World(old(conversations.active), old(ws.LogOf())), ws.failing, ws, env, f, lastId, false)
    {
      if !IsDict(f) {
        return lastId, false;
      }
      var message := f.json.value.fields;
      id := Get(message, "conversationId");
      var t := Get(message, "type");
      if HashKey(t).None? {
        return id, false;
      }
      if !t.JStr? || t.s !in Handlers {
        return id, true;
      }
      var h := Handlers[t.s];
      var out: Outcome;
      match h {
        case InitiateHandler =>
          out := HandleSessionInitiate(message, ws, conversations);
        case ResumeHandler =>
          out := Returned(HandleSessionResume(message));
        case UserStreamStartHandler =>
          out := Returned(HandleUserStreamStart(message));
        case UserStreamChunkHandler =>
          out := Returned(HandleUserStreamChunk(message));
        case UserStreamStopHandler =>
          out := Returned(HandleUserStreamStop(message));
        case ActivitiesHandler =>
          out := HandleActivities(message, ws, env);
        case EndHandler =>
          out := HandleSessionEnd(message, conversations);
        case ValidateHandler =>
          out := Returned(HandleConnectionValidate(message));
      }
      if out.Raised? || h == EndHandler {
        return id, false;
      }
      if h == InitiateHandler {
        return id, true;
      }
      goOn := true;
      if ReplyTruthy(out.reply) {
        goOn := ws.Send(SentMessage(out.reply.msg));
      }
    }

    /** One pass of the `while True` loop of handle_websocket: receive a frame and handle it. */
    method ServeNext(ws: Socket, env: SampleEnv, lastId: Json, ghost frames: seq<Frame>, ghost r0: nat) returns (id: Json, goOn: bool)
      requires ws.Valid() && r0 <= ws.received && frames == ws.inbox[r0..]
      modifies ws`sent, ws`attempts, ws`received, conversations
      ensures ws.Valid() && old(ws.received) <= ws.received
      ensures goOn ==> ws.received == old(ws.received) + 1
      ensures var i := old(ws.received) - r0;
        var w := World(conversations.active, ws.LogOf());
        Shift(Serve(World(old(conversations.active), old(ws.LogOf())), ws.failing, ws, env, frames[i..], lastId, false), i)
        == if goOn then Shift(Serve(w, ws.failing, ws, env, frames[ws.received - r0..], id, false), ws.received - r0)
           else Served(w, id, ws.received - r0)
    {
      ghost var i := ws.received - r0;
      ghost var w := World(conversations.active, ws.LogOf());
      var f := ws.Receive();
      if f.None? {
        assert frames[i..] == [];
        return lastId, false;
      }
      assert f.value == frames[i];
      id, goOn := HandleFrame(ws, env, f.value, lastId);
      ServeStep(w, ws.failing, ws, env, frames, i, lastId, Step(World(conversations.active, ws.LogOf()), id, goOn));
    }

    /** The `while True` loop of handle_websocket, up to the frame that ends it or the disconnect. */
    method ServeFrames(ws: Socket, env: SampleEnv) returns (lastId: Json)
      requires ws.Valid()
      modifies ws`sent, ws`attempts, ws`received, conversations
      ensures ws.Valid() && old(ws.received) <= ws.received
      ensures Served(World(conversations.active, ws.LogOf()), lastId, ws.received - old(ws.received))
           == Serve(World(old(conversations.active), old(ws.LogOf())), ws.failing, ws, env, old(ws.Pending()), JNull, false)
    {
      ghost var frames := ws.Pending();
      ghost var r0 := ws.received;
      ghost var goal := Serve(World(conversations.active, ws.LogOf()), ws.failing, ws, env, frames, JNull, false);
      assert frames[0..] == frames;
      lastId := JNull;
      var running := true;
      while running
        invariant ws.Valid() && r0 <= ws.received && frames == ws.inbox[r0..]
        invariant running ==>
          goal == Shift(Serve(World(conversations.active, ws.LogOf()), ws.failing, ws, env, frames[ws.received - r0..], lastId, false), ws.received - r0)
        invariant !running ==> goal == Served(World(conversations.active, ws.LogOf()), lastId, ws.received - r0)
        decreases |ws.inbox| - ws.received, if running then 1 else 0
      {
        lastId, running := ServeNext(ws, env, lastId, frames, r0);
      }
    }

    /** handle_websocket: the loop over the frames still to come, then the cleanup. */
    method HandleWebsocket(ws: Socket, env: SampleEnv) returns (raised: bool)
      requires ws.Valid()
      modifies ws`sent, ws`attempts, ws`received, ws`closes, conversations
      ensures ws.Valid()
      ensures var e := ConnectionSpec(World(old(conversations.active), old(ws.LogOf())), ws.failing, ws, env, old(ws.Pending()), false);
        World(conversations.active, ws.LogOf()) == e.world
        && ws.received == old(ws.received) + e.consumed
        && ws.closes == old(ws.closes) + (if e.closed then 1 else 0)
        && raised == e.raised
    {
      var lastId := ServeFrames(ws, env);
      raised := false;
      if Truthy(lastId) {
        var removed := conversations.Remove(lastId);
        if !removed {
          return true;
        }
      }
      ws.Close();
    }
  }
}
