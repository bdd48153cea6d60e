/**
 * The client of the OpenAI Realtime API (app/bot/realtime_api.py): connecting,
 * reconnecting with a growing delay and a bounded number of attempts, sending
 * audio, queueing the audio received, the heartbeat's health check, and closing.
 *
 * Each method of the class is proved against a function of the client's state,
 * and the properties are proved about those functions.
 */
module RealtimeApi {
  import opened Wrappers
  import opened Json
  import Base64

  type Byte = Base64.Byte

  const MaxReconnectAttempts: nat := 5
  const ReconnectDelay: nat := 2
  /** Seconds without activity after which the heartbeat checks the connection. */
  const IdleLimit: int := 60

  /** How a send on the OpenAI websocket can raise. */
  datatype SendError = ConnectionClosedError | OtherSendError

  /** A message from OpenAI: binary audio, or text holding parsed JSON (None when it is not valid JSON). */
  datatype Incoming = BinaryMessage(data: seq<Byte>) | TextMessage(json: Option<Json>)

  /** How the stream of messages from OpenAI ends. */
  datatype StreamEnd = ClosedOk | ClosedWithError

  /** The fields of RealtimeAudioClient, and counters for what it did to the outside. */
  datatype ClientState = ClientState(
    closing: bool,               // _is_closing
    active: bool,                // _connection_active
    attempts: nat,               // _reconnect_attempts
    lastActivity: int,           // _last_activity
    wsOpen: bool,                // ws is set and not closed
    listening: bool,             // the receive and heartbeat tasks are running
    hasLostHandler: bool,
    hasRestoredHandler: bool,
    queue: seq<seq<Byte>>,       // audio_queue
    sentAudio: seq<seq<Byte>>,   // audio written to OpenAI
    delays: seq<nat>,            // sleeps taken before reconnecting
    connects: nat,               // connection attempts made
    sends: nat,                  // send attempts made
    lostCalls: nat,              // connection-lost handler invocations
    restoredCalls: nat,          // connection-restored handler invocations
    reconnectTasks: nat          // reconnections scheduled in the background
  )

  /** The state `__init__` leaves. */
  function Initial(): (s: ClientState)
    ensures Valid(s) && !s.active && !s.closing && !s.wsOpen && s.queue == [] && s.attempts == 0
  {
    ClientState(false, false, 0, 0, false, false, false, false, [], [], [], 0, 0, 0, 0, 0)
  }

  /** The invariant every operation keeps: the attempt counter never passes its maximum. */
  predicate Valid(s: ClientState) {
    s.attempts <= MaxReconnectAttempts
  }

  /** connect: connection attempt number `s.connects` fails exactly when it is in `connectFails`. */
  function ConnectSpec(s: ClientState, connectFails: set<nat>, now: int): (r: (ClientState, bool))
    requires Valid(s)
    ensures Valid(r.0)
    // A closing client does not connect, and nothing changes.
    ensures s.closing ==> r == (s, false)
    ensures r.1 <==> !s.closing && s.connects !in connectFails
    // A successful connection is active, resets the attempt counter and restarts listening.
    ensures r.1 ==> r.0.active && r.0.wsOpen && r.0.listening && r.0.attempts == 0 && r.0.lastActivity == now
    ensures !s.closing && !r.1 ==> !r.0.active && r.0.attempts == s.attempts && r.0.wsOpen == s.wsOpen
    // The attempt counter is reset before it is compared with 0, so the restored handler is never invoked.
    ensures r.0.restoredCalls == s.restoredCalls
    ensures r.0.queue == s.queue && r.0.sentAudio == s.sentAudio && r.0.delays == s.delays && r.0.closing == s.closing
  {
    if s.closing then (s, false)
    else if s.connects in connectFails then (s.(active := false, connects := s.connects + 1), false)
    else
      var s1 := s.(wsOpen := true, active := true, attempts := 0, lastActivity := now, listening := true, connects := s.connects + 1);
      (s1.(restoredCalls := s1.restoredCalls + (if s1.hasRestoredHandler && s1.attempts > 0 then 1 else 0)), true)
  }

  /** reconnect: refused while closing or once the attempts are used up; otherwise wait, then connect. */
  function ReconnectSpec(s: ClientState, connectFails: set<nat>, now: int): (r: (ClientState, bool))
    requires Valid(s)
    ensures Valid(r.0)
    ensures s.closing || s.attempts >= MaxReconnectAttempts ==> r == (s, false)
    // The delay grows linearly with the attempt number.
    ensures !s.closing && s.attempts < MaxReconnectAttempts ==> r.0.delays == s.delays + [ReconnectDelay * (s.attempts + 1)]
    ensures r.1 ==> r.0.attempts == 0 && r.0.active
    ensures !s.closing && s.attempts < MaxReconnectAttempts && !r.1 ==> r.0.attempts == s.attempts + 1
    ensures r.1 <==> !s.closing && s.attempts < MaxReconnectAttempts && s.connects !in connectFails
    ensures r.0.queue == s.queue && r.0.sentAudio == s.sentAudio && r.0.closing == s.closing
  {
    if s.closing || s.attempts >= MaxReconnectAttempts then (s, false)
    else
      var attempts := s.attempts + 1;
      var s1 := s.(attempts := attempts, delays := s.delays + [ReconnectDelay * attempts]);
      ConnectSpec(s1, connectFails, now)
  }

  /** The delays of `n` reconnections in a row that all fail, from `attempts` used attempts. */
  function FailingDelays(attempts: nat, n: nat): seq<nat>
    decreases n
  {
    if n == 0 || attempts >= MaxReconnectAttempts then []
    else [ReconnectDelay * (attempts + 1)] + FailingDelays(attempts + 1, n - 1)
  }

  /** Reconnections that keep failing wait 2, 4, 6, 8 and 10 seconds, and then are refused. */
  lemma {:induction false} FailingReconnects(s: ClientState, connectFails: set<nat>, now: int, n: nat)
    requires Valid(s) && !s.closing
    requires forall c :: s.connects <= c < s.connects + n ==> c in connectFails
    ensures var r := Repeated(s, connectFails, now, n);
      r.delays == s.delays + FailingDelays(s.attempts, n)
      && r.attempts == (if s.attempts + n <= MaxReconnectAttempts then s.attempts + n else MaxReconnectAttempts)
      && !r.closing
    decreases n
  {
    if n > 0 && s.attempts < MaxReconnectAttempts {
      assert s.connects in connectFails;
      var s' := ReconnectSpec(s, connectFails, now).0;
      assert s'.connects == s.connects + 1 && s'.attempts == s.attempts + 1 && !s'.closing;
      assert s'.delays == s.delays + [ReconnectDelay * (s.attempts + 1)];
      assert Repeated(s, connectFails, now, n) == Repeated(s', connectFails, now, n - 1);
      FailingReconnects(s', connectFails, now, n - 1);
      SeqAssoc(s.delays, [ReconnectDelay * (s.attempts + 1)], FailingDelays(s.attempts + 1, n - 1));
    } else if n > 0 {
      RepeatedRefused(s, connectFails, now, n);
    }
  }

  lemma {:induction false} RepeatedRefused(s: ClientState, connectFails: set<nat>, now: int, n: nat)
    requires Valid(s) && s.attempts >= MaxReconnectAttempts
    ensures Repeated(s, connectFails, now, n) == s
    decreases n
  {
    if n > 0 {
      RepeatedRefused(s, connectFails, now, n - 1);
    }
  }

  /** The backoff schedule from a fresh counter. */
  lemma BackoffSchedule()
    ensures FailingDelays(0, 7) == [2, 4, 6, 8, 10]
  {
  }

  /** `n` reconnections in a row. */
  function Repeated(s: ClientState, connectFails: set<nat>, now: int, n: nat): (r: ClientState)
    requires Valid(s)
    ensures Valid(r)
    decreases n
  {
    if n == 0 then s else Repeated(ReconnectSpec(s, connectFails, now).0, connectFails, now, n - 1)
  }

  /** One write on the websocket: attempt number `s.sends` raises the error `sendErrors` scripts for it, if any. */
  function WriteSpec(s: ClientState, sendErrors: map<nat, SendError>, chunk: seq<Byte>, now: int): (r: (ClientState, Option<SendError>))
    ensures r.1.None? <==> s.sends !in sendErrors
    ensures r.1.None? ==> r.0 == s.(sentAudio := s.sentAudio + [chunk], lastActivity := now, sends := s.sends + 1)
    ensures r.1.Some? ==> r.0 == s.(sends := s.sends + 1, wsOpen := s.wsOpen && r.1 != Some(ConnectionClosedError))
  {
    if s.sends !in sendErrors then (s.(sentAudio := s.sentAudio + [chunk], lastActivity := now, sends := s.sends + 1), None)
    else
      var e := sendErrors[s.sends];
      (s.(sends := s.sends + 1, wsOpen := s.wsOpen && e != ConnectionClosedError), Some(e))
  }

  /** send_audio_chunk. */
  function SendSpec(s: ClientState, connectFails: set<nat>, sendErrors: map<nat, SendError>, chunk: seq<Byte>, now: int): (r: (ClientState, bool))
    requires Valid(s)
    ensures Valid(r.0)
    // An inactive connection sends nothing.
    ensures !s.active ==> r == (s, false)
    // The chunk is delivered once when the call returns True, and not at all otherwise.
    ensures r.1 ==> r.0.sentAudio == s.sentAudio + [chunk]
    ensures !r.1 ==> r.0.sentAudio == s.sentAudio
    ensures r.0.queue == s.queue && r.0.closing == s.closing
  {
    if !s.active then (s, false)
    else
      var (s1, ok1) := if s.wsOpen then (s, true) else ReconnectSpec(s, connectFails, now);
      if !ok1 then (s1, false)
      else
        var (s2, err) := WriteSpec(s1, sendErrors, chunk, now);
        if err.None? then (s2, true)
        else if err == Some(OtherSendError) then (s2, false)
        else
          var (s3, ok3) := ReconnectSpec(s2, connectFails, now);
          if !ok3 then (s3, false)
          else
            var (s4, err4) := WriteSpec(s3, sendErrors, chunk, now);
            (s4, err4.None?)
  }

  /** With the socket open and no scripted error, a send delivers the chunk and nothing else changes. */
  lemma SendUndisturbed(s: ClientState, connectFails: set<nat>, sendErrors: map<nat, SendError>, chunk: seq<Byte>, now: int)
    requires Valid(s) && s.active && s.wsOpen && s.sends !in sendErrors
    ensures SendSpec(s, connectFails, sendErrors, chunk, now)
         == (s.(sentAudio := s.sentAudio + [chunk], lastActivity := now, sends := s.sends + 1), true)
  {
  }

  /** A closed connection that reconnects on the next send: the chunk is written on the new connection. */
  lemma SendReconnects(s: ClientState, connectFails: set<nat>, sendErrors: map<nat, SendError>, chunk: seq<Byte>, now: int)
    requires Valid(s) && s.active && s.wsOpen && !s.closing && s.attempts < MaxReconnectAttempts
    requires s.sends in sendErrors && sendErrors[s.sends] == ConnectionClosedError
    requires s.connects !in connectFails && s.sends + 1 !in sendErrors
    ensures var r := SendSpec(s, connectFails, sendErrors, chunk, now);
      r.1 && r.0.sentAudio == s.sentAudio + [chunk] && r.0.attempts == 0 && r.0.active
  {
  }

  /** What one message from OpenAI does to the queue: the audio it carries, nothing, or an error that ends the loop. */
  function Classify(m: Incoming): (r: Result<Option<seq<Byte>>, string>)
    ensures m.BinaryMessage? ==> r == Success(Some(m.data))
    ensures m.TextMessage? && m.json.None? ==> r == Success(None)
    ensures m.TextMessage? && m.json.Some? && !m.json.value.JObj? ==> r.Failure?
    // A dictionary queues audio only when it is a playStream.chunk with a truthy audioChunk.
    ensures m.TextMessage? && m.json.Some? && m.json.value.JObj? && !IsAudioChunk(m.json.value.fields) ==> r == Success(None)
    // Such a chunk that is not a string raises TypeError; a string queues what it decodes to, or raises.
    ensures m.TextMessage? && m.json.Some? && m.json.value.JObj? && IsAudioChunk(m.json.value.fields) ==>
      var chunk := Get(m.json.value.fields, "audioChunk");
      (r.Success? <==> chunk.JStr? && Base64.Decode(chunk.s).Success?)
      && (r.Success? ==> r.value == Some(Base64.Decode(chunk.s).value))
  {
    match m
    case BinaryMessage(data) => Success(Some(data))
    case TextMessage(None) => Success(None)
    case TextMessage(Some(j)) =>
      if !j.JObj? then Failure("AttributeError: object has no attribute 'get'")
      else
        var t := Get(j.fields, "type");
        var chunk := Get(j.fields, "audioChunk");
        if t == JStr("error") then Success(None)
        else if t == JStr("playStream.chunk") && Truthy(chunk) then
          if !chunk.JStr? then Failure("TypeError: argument should be a bytes-like object or ASCII string")
          else
            match Base64.Decode(chunk.s)
            case Success(data) => Success(Some(data))
            case Failure(_) => Failure("binascii.Error: invalid base64 data")
        else Success(None)
  }

  /** Whether a dictionary from OpenAI is audio to queue: an "error" message is only logged, and any other type is ignored. */
  predicate IsAudioChunk(fields: map<string, Json>) {
    Get(fields, "type") == JStr("playStream.chunk") && Truthy(Get(fields, "audioChunk"))
  }

  /** The audio a run of messages carries, in order, up to the first message that ends the loop. */
  function Audio(ms: seq<Incoming>): seq<seq<Byte>>
    decreases |ms|
  {
    if ms == [] then []
    else match Classify(ms[0])
      case Failure(_) => []
      case Success(a) => (if a.Some? then [a.value] else []) + Audio(ms[1..])
  }

  /** Whether some message of the run ends the loop with an error. */
  predicate Breaks(ms: seq<Incoming>)
    decreases |ms|
  {
    ms != [] && (Classify(ms[0]).Failure? || Breaks(ms[1..]))
  }

  /** The end of the `async for`: the socket is closed, and an error close also marks the connection lost. */
  function Ended(s: ClientState, end: StreamEnd): (r: ClientState)
    requires Valid(s)
    ensures Valid(r) && !r.wsOpen && r.queue == s.queue && r.lastActivity == s.lastActivity
    ensures r.active == (s.active && end == ClosedOk)
    ensures r.reconnectTasks == s.reconnectTasks + (if end == ClosedWithError && !s.closing then 1 else 0)
    ensures r.lostCalls == s.lostCalls + (if end == ClosedWithError && s.hasLostHandler then 1 else 0)
  {
    match end
    case ClosedOk => s.(wsOpen := false)
    case ClosedWithError =>
      s.(wsOpen := false, active := false,
         lostCalls := s.lostCalls + (if s.hasLostHandler then 1 else 0),
         reconnectTasks := s.reconnectTasks + (if s.closing then 0 else 1))
  }

  /** _recv_loop over the messages OpenAI sends before the stream ends. */
  function RecvSpec(s: ClientState, ms: seq<Incoming>, end: StreamEnd, now: int): (r: ClientState)
    requires Valid(s)
    ensures Valid(r)
    // Audio is queued in arrival order, behind what was queued already.
    ensures r.queue == s.queue + Audio(ms)
    // A message that breaks the loop, or a stream closed with an error, leaves the connection inactive.
    ensures Breaks(ms) || end == ClosedWithError ==> !r.active
    ensures !Breaks(ms) && end == ClosedOk ==> r.active == s.active
    // Once the stream has ended the socket is closed; a message that breaks the loop leaves it as it was.
    ensures !Breaks(ms) ==> !r.wsOpen
    ensures Breaks(ms) ==> r.wsOpen == s.wsOpen
    // A stream closed with an error schedules a reconnection unless the client is closing.
    ensures r.reconnectTasks == s.reconnectTasks + (if !Breaks(ms) && end == ClosedWithError && !s.closing then 1 else 0)
    ensures r.lostCalls == s.lostCalls + (if !Breaks(ms) && end == ClosedWithError && s.hasLostHandler then 1 else 0)
    ensures ms != [] ==> r.lastActivity == now
    ensures ms == [] ==> r.lastActivity == s.lastActivity
    decreases |ms|
  {
    if ms == [] then
      assert !Breaks(ms);
      Ended(s, end)
    else
      match Classify(ms[0])
      case Failure(_) => s.(lastActivity := now, active := false)
      case Success(a) =>
        assert Audio(ms) == (if a.Some? then [a.value] else []) + Audio(ms[1..]) && Breaks(ms) == Breaks(ms[1..]);
        SeqAssoc(s.queue, if a.Some? then [a.value] else [], Audio(ms[1..]));
        RecvSpec(s.(lastActivity := now, queue := s.queue + (if a.Some? then [a.value] else [])), ms[1..], end, now)
  }

  /** After OpenAI closes the stream normally, the next send finds the socket closed and reconnects before writing. */
  lemma SendAfterStreamEnd(s: ClientState, connectFails: set<nat>, sendErrors: map<nat, SendError>, chunk: seq<Byte>, now: int)
    requires Valid(s) && s.active && !s.closing && s.attempts < MaxReconnectAttempts
    requires s.connects !in connectFails && s.sends !in sendErrors
    ensures var r := SendSpec(RecvSpec(s, [], ClosedOk, now), connectFails, sendErrors, chunk, now);
      && r.1 && r.0.sentAudio == s.sentAudio + [chunk]
      && r.0.delays == s.delays + [ReconnectDelay * (s.attempts + 1)] && r.0.connects == s.connects + 1
  {
    var s1 := RecvSpec(s, [], ClosedOk, now);
    assert s1 == s.(wsOpen := false);
  }

  /** One message of the receive loop. */
  lemma RecvUnfold(s: ClientState, ms: seq<Incoming>, end: StreamEnd, now: int)
    requires Valid(s) && ms != []
    ensures Classify(ms[0]).Failure? ==> RecvSpec(s, ms, end, now) == s.(lastActivity := now, active := false)
    ensures Classify(ms[0]).Success? ==>
      var a := Classify(ms[0]).value;
      RecvSpec(s, ms, end, now) == RecvSpec(s.(lastActivity := now, queue := s.queue + (if a.Some? then [a.value] else [])), ms[1..], end, now)
  {
  }

  /** Every binary message is audio, and its bytes are queued unchanged. */
  lemma {:induction false} BinaryAudioQueued(ms: seq<Incoming>)
    requires forall i :: 0 <= i < |ms| ==> ms[i].BinaryMessage?
    ensures |Audio(ms)| == |ms|
    ensures forall i :: 0 <= i < |ms| ==> Audio(ms)[i] == ms[i].data
    decreases |ms|
  {
    if ms != [] {
      BinaryAudioQueued(ms[1..]);
      forall i | 0 <= i < |ms|
        ensures Audio(ms)[i] == ms[i].data
      {
        if i > 0 { assert ms[1..][i - 1] == ms[i]; }
      }
    }
  }

  /** A playStream.chunk text message carrying the encoding of some audio queues exactly that audio. */
  lemma EncodedChunkQueued(data: seq<Byte>)
    requires data != []
    ensures Classify(TextMessage(Some(JObj(map["type" := JStr("playStream.chunk"), "audioChunk" := JStr(Base64.Encode(data))])))) == Success(Some(data))
  {
    Base64.RoundTrip(data);
    Base64.EncodeIsAscii(data);
    var m := map["type" := JStr("playStream.chunk"), "audioChunk" := JStr(Base64.Encode(data))];
    assert Get(m, "audioChunk") == JStr(Base64.Encode(data));
    assert Truthy(JStr(Base64.Encode(data))) by { assert |Base64.Encode(data)| > 0; }
  }

  /** One round of _heartbeat, at time `now`, where `pingOk` says whether a ping would be answered. */
  function HeartbeatSpec(s: ClientState, now: int, pingOk: bool): (r: ClientState)
    requires Valid(s)
    ensures Valid(r)
    // Recent activity: nothing to do.
    ensures now - s.lastActivity <= IdleLimit ==> r == s
    // An idle connection that answers the ping is healthy again.
    ensures now - s.lastActivity > IdleLimit && s.wsOpen && pingOk ==> r == s.(lastActivity := now)
    // Otherwise it is marked inactive, and a reconnection is scheduled unless the client is closing.
    ensures now - s.lastActivity > IdleLimit && !(s.wsOpen && pingOk) ==>
      r == s.(active := false, reconnectTasks := s.reconnectTasks + (if s.closing then 0 else 1))
  {
    if now - s.lastActivity <= IdleLimit then s
    else if s.wsOpen && pingOk then s.(lastActivity := now)
    else s.(active := false, reconnectTasks := s.reconnectTasks + (if s.closing then 0 else 1))
  }

  /** One heartbeat round: the time it wakes up at and whether a ping would be answered. */
  datatype Tick = Tick(now: int, pingOk: bool)

  /** The _heartbeat loop over the rounds it is given: it stops once the connection is inactive or closing. */
  function HeartbeatLoop(s: ClientState, ticks: seq<Tick>): (r: ClientState)
    requires Valid(s)
    ensures Valid(r)
    ensures r.queue == s.queue && r.sentAudio == s.sentAudio && r.closing == s.closing
    // Each failed check schedules at most one reconnection, and the loop stops after it.
    ensures r.reconnectTasks <= s.reconnectTasks + 1
    ensures r.active ==> s.active
    decreases |ticks|
  {
    if ticks == [] || !s.active || s.closing then s
    else
      var s' := HeartbeatSpec(s, ticks[0].now, ticks[0].pingOk);
      if !s'.active then s' else HeartbeatLoop(s', ticks[1..])
  }

  /** close: the client is closing and inactive, its tasks are cancelled and its websocket closed. */
  function CloseSpec(s: ClientState): (r: ClientState)
    requires Valid(s)
    ensures Valid(r)
    ensures r.closing && !r.active && !r.listening && !r.wsOpen
    ensures r.queue == s.queue && r.sentAudio == s.sentAudio
  {
    s.(closing := true, active := false, listening := false, wsOpen := false)
  }

  /** Once closed, a client neither connects, reconnects, sends, nor schedules reconnections. */
  lemma ClosedStaysClosed(s: ClientState, connectFails: set<nat>, sendErrors: map<nat, SendError>, chunk: seq<Byte>, now: int,
                          ms: seq<Incoming>, end: StreamEnd, pingOk: bool)
    requires Valid(s)
    ensures var c := CloseSpec(s);
      ConnectSpec(c, connectFails, now) == (c, false)
      && ReconnectSpec(c, connectFails, now) == (c, false)
      && SendSpec(c, connectFails, sendErrors, chunk, now) == (c, false)
      && RecvSpec(c, ms, end, now).reconnectTasks == c.reconnectTasks
      && HeartbeatSpec(c, now, pingOk).reconnectTasks == c.reconnectTasks
  {
  }

  /** RealtimeAudioClient. */
  class RealtimeAudioClient {
    var closing: bool
    var active: bool
    var attempts: nat
    var lastActivity: int
    var wsOpen: bool
    var listening: bool
    var hasLostHandler: bool
    var hasRestoredHandler: bool
    var queue: seq<seq<Byte>>
    var sentAudio: seq<seq<Byte>>
    var delays: seq<nat>
    var connects: nat
    var sends: nat
    var lostCalls: nat
    var restoredCalls: nat
    var reconnectTasks: nat
    /** Which connection attempts fail. */
    const connectFails: set<nat>
    /** Which send attempts raise, and how. */
    const sendErrors: map<nat, SendError>

    function State(): ClientState
      reads this
    {
      ClientState(closing, active, attempts, lastActivity, wsOpen, listening, hasLostHandler, hasRestoredHandler,
                  queue, sentAudio, delays, connects, sends, lostCalls, restoredCalls, reconnectTasks)
    }

    ghost predicate Inv()
      reads this
    {
      Valid(State())
    }

    constructor (connectFails: set<nat>, sendErrors: map<nat, SendError>)
      ensures State() == Initial() && Inv()
      ensures this.connectFails == connectFails && this.sendErrors == sendErrors
    {
      this.connectFails := connectFails;
      this.sendErrors := sendErrors;
      closing, active, attempts, lastActivity, wsOpen, listening := false, false, 0, 0, false, false;
      hasLostHandler, hasRestoredHandler := false, false;
      queue, sentAudio, delays := [], [], [];
      connects, sends, lostCalls, restoredCalls, reconnectTasks := 0, 0, 0, 0, 0;
    }

    /** connect. */
    method Connect(now: int) returns (ok: bool)
      requires Inv()
      modifies this
      ensures Inv()
      ensures (State(), ok) == ConnectSpec(old(State()), connectFails, now)
    {
      if closing {
        return false;
      }
      var attempt := connects;
      connects := connects + 1;
      if attempt in connectFails {
        active := false;
        return false;
      }
      wsOpen := true;
      active := true;
      attempts := 0;
      lastActivity := now;
      listening := true;
      restoredCalls := restoredCalls + (if hasRestoredHandler && attempts > 0 then 1 else 0);
      ok := true;
    }

    /** reconnect. */
    method Reconnect(now: int) returns (ok: bool)
      requires Inv()
      modifies this
      ensures Inv()
      ensures (State(), ok) == ReconnectSpec(old(State()), connectFails, now)
    {
      if closing || attempts >= MaxReconnectAttempts {
        return false;
      }
      attempts := attempts + 1;
      delays := delays + [ReconnectDelay * attempts];
      ok := Connect(now);
    }

    /** One write on the websocket. */
    method Write(chunk: seq<Byte>, now: int) returns (err: Option<SendError>)
      modifies this
      ensures (State(), err) == WriteSpec(old(State()), sendErrors, chunk, now)
    {
      var attempt := sends;
      sends := sends + 1;
      if attempt !in sendErrors {
        sentAudio := sentAudio + [chunk];
        lastActivity := now;
        return None;
      }
      err := Some(sendErrors[attempt]);
      if err == Some(ConnectionClosedError) {
        wsOpen := false;
      }
    }

    /** send_audio_chunk. */
    method SendAudioChunk(chunk: seq<Byte>, now: int) returns (ok: bool)
      requires Inv()
      modifies this
      ensures Inv()
      ensures (State(), ok) == SendSpec(old(State()), connectFails, sendErrors, chunk, now)
    {
      if !active {
        return false;
      }
      if !wsOpen {
        var reconnected := Reconnect(now);
        if !reconnected {
          return false;
        }
      }
      var err := Write(chunk, now);
      if err.None? {
        return true;
      }
      if err == Some(OtherSendError) {
        return false;
      }
      var reconnected := Reconnect(now);
      if !reconnected {
        return false;
      }
      var err2 := Write(chunk, now);
      ok := err2.None?;
    }

    /** _recv_loop. */
    method RecvLoop(ms: seq<Incoming>, end: StreamEnd, now: int)
      requires Inv()
      modifies this
      ensures Inv()
      ensures State() == RecvSpec(old(State()), ms, end, now)
    {
      var i := 0;
      while i < |ms|
        invariant 0 <= i <= |ms| && Inv()
        invariant RecvSpec(old(State()), ms, end, now) == RecvSpec(State(), ms[i..], end, now)
      {
        RecvUnfold(State(), ms[i..], end, now);
        assert ms[i..][0] == ms[i] && ms[i..][1..] == ms[i + 1..];
        var broke := Take(ms[i], now);
        if broke {
          return;
        }
        i := i + 1;
      }
      assert ms[i..] == [];
      StreamEnded(end, now);
    }

    /** The end of the `async for`: the socket is closed, and an error also marks the connection lost. */
    method StreamEnded(end: StreamEnd, now: int)
      requires Inv()
      modifies this
      ensures Inv()
      ensures State() == RecvSpec(old(State()), [], end, now)
    {
      wsOpen := false;
      if end == ClosedWithError {
        active := false;
        if hasLostHandler {
          lostCalls := lostCalls + 1;
        }
        if !closing {
          reconnectTasks := reconnectTasks + 1;
        }
      }
    }

    /** One message of _recv_loop; true when it ends the loop. */
    method Take(m: Incoming, now: int) returns (broke: bool)
      modifies this
      ensures broke <==> Classify(m).Failure?
      ensures broke ==> State() == old(State()).(lastActivity := now, active := false)
      ensures !broke ==> var a := Classify(m).value;
        State() == old(State()).(lastActivity := now, queue := old(queue) + (if a.Some? then [a.value] else []))
    {
      lastActivity := now;
      var c := Classify(m);
      if c.Failure? {
        active := false;
        return true;
      }
      if c.value.Some? {
        queue := queue + [c.value.value];
      }
      broke := false;
    }

    /** receive_audio_chunk: the oldest queued chunk; None stands for a call that would still be waiting. */
    method ReceiveAudioChunk() returns (c: Option<seq<Byte>>)
      modifies this`queue
      ensures old(queue) != [] ==> c == Some(old(queue)[0]) && queue == old(queue)[1..]
      ensures old(queue) == [] ==> c.None? && queue == []
    {
      if queue == [] {
        return None;
      }
      c := Some(queue[0]);
      queue := queue[1..];
    }

    /** _heartbeat over the rounds it is given. */
    method Heartbeat(ticks: seq<Tick>)
      requires Inv()
      modifies this
      ensures Inv()
      ensures State() == HeartbeatLoop(old(State()), ticks)
    {
      var i := 0;
      while i < |ticks| && active && !closing
        invariant 0 <= i <= |ticks| && Inv()
        invariant HeartbeatLoop(old(State()), ticks) == HeartbeatLoop(State(), ticks[i..])
      {
        assert ticks[i..][0] == ticks[i] && ticks[i..][1..] == ticks[i + 1..];
        var t := ticks[i];
        if t.now - lastActivity > IdleLimit {
          if wsOpen && t.pingOk {
            lastActivity := t.now;
          } else {
            active := false;
            if !closing {
              reconnectTasks := reconnectTasks + 1;
            }
          }
        }
        i := i + 1;
      }
    }

    /** set_connection_handlers. */
    method SetConnectionHandlers(lost: bool, restored: bool)
      modifies this`hasLostHandler, this`hasRestoredHandler
      ensures hasLostHandler == lost && hasRestoredHandler == restored
    {
      hasLostHandler := lost;
      hasRestoredHandler := restored;
    }

    /** close. */
    method Close()
      requires Inv()
      modifies this
      ensures Inv()
      ensures State() == CloseSpec(old(State()))
    {
      closing := true;
      active := false;
      listening := false;
      wsOpen := false;
    }
  }
}
