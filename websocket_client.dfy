/**
 * The client side of the AudioCodes protocol (app/services/websocket_client.py):
 * a connection and a conversation id that are set and reset across calls, requests
 * that wait for one reply, and a listener that hands every message to a handler
 * until the session ends.
 */
module WebSocketClient {
  import opened Wrappers
  import opened Json
  import opened MessageSchemas
  import opened Transport
  import Base64
  import ActivityHandlers

  /** The only media format the client offers. */
  const ClientMediaFormat := "raw/lpcm16"

  /**
   * `json.loads(frame)` followed by `.get("type")`, for a text or a binary frame alike; a closed
   * connection, bad JSON or a non-object raise.
   */
  function ReplyType(f: Option<Frame>): (r: Result<Json, string>)
    ensures r.Success? <==> f.Some? && f.value.json.Some? && f.value.json.value.JObj?
    ensures r.Success? ==> r.value == Get(f.value.json.value.fields, "type")
    ensures f.Some? && f.value.json.None? ==> r == Failure("JSONDecodeError")
  {
    match f
    case None => Failure("ConnectionClosed")
    case Some(frame) =>
      match frame.json
      case None => Failure("JSONDecodeError")
      case Some(j) =>
        if j.JObj? then Success(Get(j.fields, "type")) else Failure("AttributeError: object has no attribute 'get'")
  }

  /** A request on a socket: the write log, the frames received so far, and whether the reply had the expected type. */
  datatype Exchange = Exchange(log: Log, received: nat, result: Result<bool, string>)

  /** Send `m`, then read one reply and compare its type with `expected`; a failed send or an unreadable reply raises. */
  function RequestSpec(log: Log, failing: set<nat>, inbox: seq<Frame>, received: nat, m: Message, expected: string): (r: Exchange)
    requires received <= |inbox|
    // Exactly one write is attempted, and it is `m`.
    ensures r.log.attempts == log.attempts + 1
    ensures r.log.sent == if SendSucceeds(log.attempts, failing) then log.sent + [SentMessage(m)] else log.sent
    // A reply is read only after a successful write.
    ensures r.received <= |inbox|
    ensures !SendSucceeds(log.attempts, failing) ==> r.received == received && r.result.Failure?
    ensures SendSucceeds(log.attempts, failing) ==> r.received == if received < |inbox| then received + 1 else received
    // True exactly when the reply is an object whose type is the expected one.
    ensures r.result == Success(true) <==>
      SendSucceeds(log.attempts, failing) && received < |inbox| && ReplyType(Some(inbox[received])) == Success(JStr(expected))
    ensures r.result == Success(false) <==>
      SendSucceeds(log.attempts, failing) && received < |inbox| && ReplyType(Some(inbox[received])).Success?
      && ReplyType(Some(inbox[received])) != Success(JStr(expected))
  {
    var (l1, ok) := Emit(log, failing, SentMessage(m));
    if !ok then Exchange(l1, received, Failure("websocket send failed"))
    else
      var f := if received < |inbox| then Some(inbox[received]) else None;
      var received' := if received < |inbox| then received + 1 else received;
      match ReplyType(f)
      case Failure(e) => Exchange(l1, received', Failure(e))
      case Success(t) => Exchange(l1, received', Success(t == JStr(expected)))
  }

  /** One request on `ws`. */
  method Request(ws: Socket, m: Message, expected: string) returns (r: Result<bool, string>)
    requires ws.Valid()
    modifies ws`sent, ws`attempts, ws`received
    ensures ws.Valid()
    ensures Exchange(ws.LogOf(), ws.received, r) == RequestSpec(old(ws.LogOf()), ws.failing, ws.inbox, old(ws.received), m, expected)
  {
    var ok := ws.Send(SentMessage(m));
    if !ok {
      return Failure("websocket send failed");
    }
    var f := ws.Receive();
    var t := ReplyType(f);
    if t.Failure? {
      return Failure(t.error);
    }
    r := Success(t.value == JStr(expected));
  }

  /** The session.initiate message the client builds: it validates exactly when the bot name is not blank. */
  lemma InitiateMessageBuilds(id: string, botName: string, caller: string)
    ensures Build(SessionInitiate(Some(id), true, botName, caller, [ClientMediaFormat])).Success? <==> !AllSpace(botName)
  {
    var m := SessionInitiate(Some(id), true, botName, caller, [ClientMediaFormat]);
    assert AnySupported([ClientMediaFormat]);
    assert ValidateCaller(caller).Accept?;
  }

  /** The hangup message the client builds always validates. */
  lemma HangupMessageBuilds(id: Option<string>)
    ensures Build(Activities(id, ActivityHandlers.Hangup)) == Success(Activities(id, ActivityHandlers.Hangup))
  {
    var h := ActivityHandlers.Hangup;
    assert ValidateEventValue(Some(h[0].name), h[0].value).Accept?;
    assert EventsValid(h);
  }

  /** How `listen` ends: the session ended, the server closed the connection, or a message could not be read. */
  datatype ListenEnd = SessionEnded | PeerClosed | ListenerFailed

  /** `listen` over the frames still to come: the messages handed to the handler, the frames read, and how it ends. */
  function ListenSpec(pending: seq<Frame>): (r: (seq<Json>, nat, ListenEnd))
    ensures |r.0| <= r.1 <= |pending|
    decreases |pending|
  {
    if pending == [] then ([], 0, PeerClosed)
    else match pending[0].json
      case None => ([], 1, ListenerFailed)
      case Some(j) =>
        if !j.JObj? then ([j], 1, ListenerFailed)
        else if IsEnd(j) then ([j], 1, SessionEnded)
        else
          var rest := ListenSpec(pending[1..]);
          ([j] + rest.0, 1 + rest.1, rest.2)
  }

  /** The handler sees the messages in arrival order, one call each. */
  lemma {:induction false} ListenInOrder(pending: seq<Frame>)
    ensures var r := ListenSpec(pending);
      forall i :: 0 <= i < |r.0| ==> pending[i].json == Some(r.0[i])
    decreases |pending|
  {
    var r := ListenSpec(pending);
    if pending != [] && pending[0].json.Some? {
      var j := pending[0].json.value;
      if j.JObj? && !IsEnd(j) {
        var rest := ListenSpec(pending[1..]);
        ListenInOrder(pending[1..]);
        forall i | 0 <= i < |r.0|
          ensures pending[i].json == Some(r.0[i])
        {
          if i > 0 {
            assert r.0[i] == rest.0[i - 1];
            assert pending[i] == pending[1..][i - 1];
          }
        }
      }
    }
  }

  /** Only a connection closed by the server makes `listen` consume every frame, none of them ending the session. */
  lemma {:induction false} ListenConsumesAll(pending: seq<Frame>)
    ensures var r := ListenSpec(pending);
      r.2 == PeerClosed <==> r.1 == |pending| && |r.0| == |pending| && NoEnd(r.0)
    decreases |pending|
  {
    var r := ListenSpec(pending);
    if pending != [] && pending[0].json.Some? {
      var j := pending[0].json.value;
      if j.JObj? && !IsEnd(j) {
        var rest := ListenSpec(pending[1..]);
        ListenConsumesAll(pending[1..]);
        assert r.0 == [j] + rest.0;
        if r.2 == PeerClosed {
          assert NoEnd(r.0) by {
            forall i | 0 <= i < |r.0| ensures r.0[i].JObj? && !IsEnd(r.0[i]) {
              if i > 0 { assert r.0[i] == rest.0[i - 1]; }
            }
          }
        }
        if r.1 == |pending| && |r.0| == |pending| && NoEnd(r.0) {
          assert NoEnd(rest.0) by {
            forall i | 0 <= i < |rest.0| ensures rest.0[i].JObj? && !IsEnd(rest.0[i]) {
              assert rest.0[i] == r.0[i + 1];
            }
          }
        }
      } else if j.JObj? {
        assert r == ([j], 1, SessionEnded);
        assert !NoEnd(r.0) by { assert r.0[0] == j && IsEnd(r.0[0]); }
      } else {
        assert r == ([j], 1, ListenerFailed);
        assert !NoEnd(r.0) by { assert !r.0[0].JObj?; }
      }
    }
  }

  /** A session ended by the server stops reading right after the first session.end, which is the last message handled. */
  lemma {:induction false} ListenEndsAtFirstEnd(pending: seq<Frame>)
    ensures var r := ListenSpec(pending);
      r.2 == SessionEnded ==> |r.0| == r.1 && r.0 != [] && IsEnd(r.0[|r.0| - 1]) && NoEnd(r.0[..|r.0| - 1])
    decreases |pending|
  {
    var r := ListenSpec(pending);
    if pending != [] && pending[0].json.Some? {
      var j := pending[0].json.value;
      if j.JObj? && !IsEnd(j) && r.2 == SessionEnded {
        var rest := ListenSpec(pending[1..]);
        ListenEndsAtFirstEnd(pending[1..]);
        assert r.0 == [j] + rest.0;
        var p := r.0[..|r.0| - 1];
        assert p == [j] + rest.0[..|rest.0| - 1];
        assert NoEnd(p) by {
          forall i | 0 <= i < |p| ensures p[i].JObj? && !IsEnd(p[i]) {
            if i > 0 { assert p[i] == rest.0[..|rest.0| - 1][i - 1]; }
          }
        }
      }
    }
  }

  /** A message object whose type is session.end. */
  predicate IsEnd(j: Json) {
    j.JObj? && Get(j.fields, "type") == JStr("session.end")
  }

  /** Messages that are objects and none of which ends the session. */
  predicate NoEnd(js: seq<Json>) {
    forall i :: 0 <= i < |js| ==> js[i].JObj? && !IsEnd(js[i])
  }

  function Texts(js: seq<Json>): (r: seq<Frame>)
    ensures |r| == |js|
  {
    if js == [] then [] else [Text(Some(js[0]))] + Texts(js[1..])
  }

  /** The handler receives every message up to and including session.end, and nothing after it. */
  lemma {:induction false} ListenStopsAtEnd(before: seq<Json>, end: Json, after: seq<Frame>)
    requires NoEnd(before) && IsEnd(end)
    ensures ListenSpec(Texts(before) + [Text(Some(end))] + after) == (before + [end], |before| + 1, SessionEnded)
    decreases |before|
  {
    var rest := [Text(Some(end))] + after;
    assert Texts(before) + [Text(Some(end))] + after == Texts(before) + rest;
    if before != [] {
      var tail := Texts(before[1..]) + rest;
      TextsCons(before, rest);
      NoEndTail(before);
      ListenStopsAtEnd(before[1..], end, after);
      assert Texts(before[1..]) + [Text(Some(end))] + after == tail;
      ListenPassesOn(Text(Some(before[0])), tail);
      assert before + [end] == [before[0]] + (before[1..] + [end]);
    } else {
      EndStops(end, after);
      assert Texts(before) + rest == rest;
      assert before + [end] == [end];
    }
  }

  lemma EndStops(end: Json, after: seq<Frame>)
    requires IsEnd(end)
    ensures ListenSpec([Text(Some(end))] + after) == ([end], 1, SessionEnded)
  {
  }

  lemma TextsCons(js: seq<Json>, rest: seq<Frame>)
    requires js != []
    ensures Texts(js) + rest == [Text(Some(js[0]))] + (Texts(js[1..]) + rest)
  {
  }

  lemma NoEndTail(js: seq<Json>)
    requires js != [] && NoEnd(js)
    ensures js[0].JObj? && !IsEnd(js[0]) && NoEnd(js[1..])
  {
    forall i | 0 <= i < |js[1..]|
      ensures js[1..][i].JObj? && !IsEnd(js[1..][i])
    {
      assert js[1..][i] == js[i + 1];
    }
  }

  lemma ListenClosed()
    ensures ListenSpec([]) == ([], 0, PeerClosed)
  {
  }

  lemma ListenUnreadable(pending: seq<Frame>)
    requires pending != [] && pending[0].json.None?
    ensures ListenSpec(pending) == ([], 1, ListenerFailed)
  {
  }

  lemma ListenLast(f: Frame, rest: seq<Frame>)
    requires f.json.Some? && (!f.json.value.JObj? || IsEnd(f.json.value))
    ensures ListenSpec([f] + rest) == ([f.json.value], 1, if f.json.value.JObj? then SessionEnded else ListenerFailed)
  {
  }

  /** A message that does not end the session is handled, and listening goes on. */
  lemma ListenPassesOn(f: Frame, rest: seq<Frame>)
    requires f.json.Some? && f.json.value.JObj? && !IsEnd(f.json.value)
    ensures var r := ListenSpec(rest);
      ListenSpec([f] + rest) == ([f.json.value] + r.0, 1 + r.1, r.2)
  {
    assert ([f] + rest)[1..] == rest;
  }

  /** A binary frame holding a message is handled exactly as a text frame holding the same message. */
  lemma ListenBinaryAsText(data: seq<Base64.Byte>, j: Json, rest: seq<Frame>)
    ensures ListenSpec([Binary(data, Some(j))] + rest) == ListenSpec([Text(Some(j))] + rest)
  {
    assert ([Binary(data, Some(j))] + rest)[1..] == rest == ([Text(Some(j))] + rest)[1..];
  }

  /** `listen` that first handed `step` to the handler over `n` frames, then went on as `r`. */
  function Prepend(step: seq<Json>, n: nat, r: (seq<Json>, nat, ListenEnd)): (seq<Json>, nat, ListenEnd) {
    (step + r.0, n + r.1, r.2)
  }

  lemma PrependTwice(a: seq<Json>, n: nat, b: seq<Json>, m: nat, r: (seq<Json>, nat, ListenEnd))
    ensures Prepend(a, n, Prepend(b, m, r)) == Prepend(a + b, n + m, r)
  {
    assert a + (b + r.0) == (a + b) + r.0;
  }

  /** AudioCodesClient. */
  class AudioCodesClient {
    var websocket: Option<Socket>
    var conversationId: Option<string>
    /** The messages handed to the `listen` handler so far. */
    var handled: seq<Json>

    ghost predicate Valid()
      reads this, if websocket.Some? then {websocket.value} else {}
    {
      websocket.Some? ==> websocket.value.Valid()
    }

    /** `self.websocket and self.conversation_id`. */
    predicate HasSession()
      reads this
    {
      websocket.Some? && conversationId.Some? && conversationId.value != ""
    }

    constructor ()
      ensures Valid() && websocket.None? && conversationId.None? && handled == []
    {
      websocket := None;
      conversationId := None;
      handled := [];
    }

    /** connect: `conn` is the connection websockets.connect gives, or None when it raises. */
    method Connect(conn: Option<Socket>) returns (ok: bool)
      requires conn.Some? ==> conn.value.Valid()
      modifies this`websocket
      ensures Valid() || conn.None?
      ensures ok <==> conn.Some?
      ensures websocket == if ok then conn else old(websocket)
    {
      if conn.None? {
        return false;
      }
      websocket := conn;
      ok := true;
    }

    /**
     * initiate_session, with `freshId` the uuid4 it draws. The id is recorded before the
     * message is built, so it stays set when building, sending or reading raises.
     */
    method InitiateSession(botName: string, caller: string, freshId: string) returns (r: Result<Option<string>, string>)
      requires Valid()
      modifies this`conversationId, if websocket.Some? then {websocket.value} else {}
      ensures Valid()
      ensures old(websocket).None? ==> r == Success(None) && conversationId == old(conversationId)
      ensures old(websocket).Some? && AllSpace(botName) ==>
        r.Failure? && conversationId == Some(freshId) && unchanged(websocket.value)
      ensures old(websocket).Some? && !AllSpace(botName) ==>
        var ws := websocket.value;
        var ex := RequestSpec(old(ws.LogOf()), ws.failing, ws.inbox, old(ws.received),
                              SessionInitiate(Some(freshId), true, botName, caller, [ClientMediaFormat]), "session.accepted");
        && ws.LogOf() == ex.log && ws.received == ex.received
        // Accepted: the new id; rejected: None, and the id is cleared; raised: the id stays.
        && (ex.result == Success(true) ==> r == Success(Some(freshId)) && conversationId == Some(freshId))
        && (ex.result == Success(false) ==> r == Success(None) && conversationId.None?)
        && (ex.result.Failure? ==> r.Failure? && conversationId == Some(freshId))
    {
      if websocket.None? {
        return Success(None);
      }
      conversationId := Some(freshId);
      var m := SessionInitiate(conversationId, true, botName, caller, [ClientMediaFormat]);
      InitiateMessageBuilds(freshId, botName, caller);
      var built := Build(m);
      if built.Failure? {
        return Failure(built.error);
      }
      var accepted := Request(websocket.value, m, "session.accepted");
      if accepted.Failure? {
        return Failure(accepted.error);
      }
      if accepted.value {
        return Success(conversationId);
      }
      conversationId := None;
      r := Success(None);
    }

    /** start_user_stream. */
    method StartUserStream() returns (r: Result<bool, string>)
      requires Valid()
      modifies if HasSession() then {websocket.value} else {}
      ensures Valid()
      ensures !old(HasSession()) ==> r == Success(false)
      ensures old(HasSession()) ==>
        var ws := websocket.value;
        Exchange(ws.LogOf(), ws.received, r)
          == RequestSpec(old(ws.LogOf()), ws.failing, ws.inbox, old(ws.received), UserStreamStart(conversationId), "userStream.started")
    {
      if !HasSession() {
        return Success(false);
      }
      r := Request(websocket.value, UserStreamStart(conversationId), "userStream.started");
    }

    /** stop_user_stream. */
    method StopUserStream() returns (r: Result<bool, string>)
      requires Valid()
      modifies if HasSession() then {websocket.value} else {}
      ensures Valid()
      ensures !old(HasSession()) ==> r == Success(false)
      ensures old(HasSession()) ==>
        var ws := websocket.value;
        Exchange(ws.LogOf(), ws.received, r)
          == RequestSpec(old(ws.LogOf()), ws.failing, ws.inbox, old(ws.received), UserStreamStop(conversationId), "userStream.stopped")
    {
      if !HasSession() {
        return Success(false);
      }
      r := Request(websocket.value, UserStreamStop(conversationId), "userStream.stopped");
    }

    /** send_audio_chunk: one userStream.chunk carrying the base64 text of the audio. */
    method SendAudioChunk(data: seq<Base64.Byte>) returns (r: Result<(), string>)
      requires Valid()
      modifies if HasSession() then {websocket.value} else {}
      ensures Valid()
      ensures !old(HasSession()) ==> r.Success?
      ensures old(HasSession()) ==>
        var ws := websocket.value;
        var (log, ok) := Emit(old(ws.LogOf()), ws.failing, SentMessage(UserStreamChunk(conversationId, Base64.Encode(data))));
        ws.LogOf() == log && (r.Success? <==> ok)
    {
      if !HasSession() {
        return Success(());
      }
      var ok := websocket.value.Send(SentMessage(UserStreamChunk(conversationId, Base64.Encode(data))));
      r := if ok then Success(()) else Failure("websocket send failed");
    }

    /** send_hangup: one activities message holding the single hangup event. */
    method SendHangup() returns (r: Result<(), string>)
      requires Valid()
      modifies if HasSession() then {websocket.value} else {}
      ensures Valid()
      ensures !old(HasSession()) ==> r.Success?
      ensures old(HasSession()) ==>
        var ws := websocket.value;
        var (log, ok) := Emit(old(ws.LogOf()), ws.failing, SentMessage(Activities(conversationId, ActivityHandlers.Hangup)));
        ws.LogOf() == log && (r.Success? <==> ok)
    {
      if !HasSession() {
        return Success(());
      }
      var m := Activities(conversationId, ActivityHandlers.Hangup);
      HangupMessageBuilds(conversationId);
      var ok := websocket.value.Send(SentMessage(m));
      r := if ok then Success(()) else Failure("websocket send failed");
    }

    /** close: close the connection and forget it and the conversation; without a connection, nothing. */
    method Close()
      requires Valid()
      modifies this`websocket, this`conversationId, if websocket.Some? then {websocket.value} else {}
      ensures Valid()
      ensures old(websocket).None? ==> websocket.None? && conversationId == old(conversationId)
      ensures old(websocket).Some? ==>
        websocket.None? && conversationId.None? && old(websocket).value.closes == old(websocket.value.closes) + 1
      // Closing neither writes nor reads a frame.
      ensures old(websocket).Some? ==>
        old(websocket).value.LogOf() == old(websocket.value.LogOf()) && old(websocket).value.received == old(websocket.value.received)
    {
      if websocket.Some? {
        websocket.value.Close();
        websocket := None;
        conversationId := None;
      }
    }

    /** listen: hand each message to the handler until session.end, a closed connection or an error. */
    method Listen()
      requires Valid()
      modifies this, if websocket.Some? then {websocket.value} else {}
      ensures Valid()
      ensures old(websocket).None? ==> handled == old(handled) && websocket.None? && conversationId == old(conversationId)
      ensures old(websocket).Some? ==>
        var ws := old(websocket).value;
        var (h, n, end) := ListenSpec(old(ws.Pending()));
        && handled == old(handled) + h
        && ws.received == old(ws.received) + n
        && websocket.None? && conversationId.None?
        // Closed by the server: the client only forgets the connection; otherwise it closes it once.
        && ws.closes == old(ws.closes) + (if end == PeerClosed then 0 else 1)
    {
      if websocket.None? {
        return;
      }
      var ws := websocket.value;
      var stop := ListenLoop(ws);
      if stop == PeerClosed {
        websocket := None;
        conversationId := None;
      } else {
        Close();
      }
    }

    /** The `while True` loop of `listen`, up to the point where it ends. */
    method ListenLoop(ws: Socket) returns (stop: ListenEnd)
      requires websocket == Some(ws) && ws.Valid()
      modifies ws`received, this`handled
      ensures ws.Valid()
      ensures var r := ListenSpec(old(ws.Pending()));
        handled == old(handled) + r.0 && ws.received == old(ws.received) + r.1 && stop == r.2
    {
      ghost var pending0 := ws.Pending();
      ghost var received0 := ws.received;
      ghost var handled0 := handled;
      ghost var seen: seq<Json> := [];
      var next: Option<ListenEnd> := None;
      assert [] + ListenSpec(pending0).0 == ListenSpec(pending0).0;
      while next.None?
        invariant ws.Valid() && received0 <= ws.received
        invariant handled == handled0 + seen
        invariant ListenSpec(pending0)
          == Prepend(seen, ws.received - received0, if next.None? then ListenSpec(ws.Pending()) else ([], 0, next.value))
        decreases |ws.inbox| - ws.received, if next.None? then 1 else 0
      {
        ghost var step;
        ghost var seen0 := seen;
        ghost var n0 := ws.received - received0;
        ghost var before := ws.received;
        next, step := ListenNext(ws);
        seen := seen + step;
        PrependTwice(seen0, n0, step, ws.received - before,
          if next.None? then ListenSpec(ws.Pending()) else ([], 0, next.value));
      }
      stop := next.value;
      assert seen + [] == seen;
    }

    /**
     * One pass of the `while True` loop of `listen`: receive a frame and hand its message to the
     * handler; `stop` says how the loop ended, or None when it goes on.
     */
    method ListenNext(ws: Socket) returns (stop: Option<ListenEnd>, ghost step: seq<Json>)
      requires websocket == Some(ws) && ws.Valid()
      modifies ws`received, this`handled
      ensures ws.Valid() && old(ws.received) <= ws.received
      ensures handled == old(handled) + step
      ensures stop.None? ==> ws.received == old(ws.received) + 1
      ensures ListenSpec(old(ws.Pending()))
        == Prepend(step, ws.received - old(ws.received), if stop.None? then ListenSpec(ws.Pending()) else ([], 0, stop.value))
    {
      ghost var before := ws.Pending();
      ghost var none: seq<Json> := [];
      assert none + none == none;
      var f := ws.Receive();
      if f.None? {
        assert before == [];
        ListenClosed();
        return Some(PeerClosed), [];
      }
      assert before[0] == f.value && before[1..] == ws.Pending();
      if f.value.json.None? {
        ListenUnreadable(before);
        return Some(ListenerFailed), [];
      }
      var message := f.value.json.value;
      handled := handled + [message];
      assert before == [f.value] + ws.Pending();
      if !message.JObj? || IsEnd(message) {
        ListenLast(f.value, ws.Pending());
        assert [message] + none == [message];
        return Some(if message.JObj? then SessionEnded else ListenerFailed), [message];
      }
      ListenPassesOn(f.value, ws.Pending());
      return None, [message];
    }
  }
}
