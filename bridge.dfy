/**
 * The bridge between the AudioCodes side and the OpenAI Realtime side
 * (app/bot/audiocodes_realtime_bridge.py): one Realtime client, one AudioCodes
 * websocket and one stream id per conversation, audio forwarded upstream, and the
 * pump that plays OpenAI's audio back as playStream.start, chunks and stop.
 */
module Bridge {
  import opened Wrappers
  import opened MessageSchemas
  import opened Transport
  import Base64
  import opened RealtimeApi

  /** The media format the pump announces. */
  const PumpMediaFormat := "raw/lpcm16"

  function DigitChar(d: nat): char
    requires d < 10
  {
    (d + '0' as int) as char
  }

  /** Whether every character of `s` is a decimal digit. */
  predicate IsDigits(s: string) {
    forall i :: 0 <= i < |s| ==> '0' <= s[i] <= '9'
  }

  /** The number a string of decimal digits denotes. */
  function DigitsValue(s: string): int
    decreases |s|
  {
    if s == [] then 0 else DigitsValue(s[..|s| - 1]) * 10 + (s[|s| - 1] as int - '0' as int)
  }

  /** Python's `str` of an int. */
  function Decimal(n: int): (s: string)
    ensures |s| > 0
    // A minus sign exactly for a negative number; otherwise the digits that denote it.
    ensures s[0] == '-' <==> n < 0
    ensures n >= 0 ==> IsDigits(s) && DigitsValue(s) == n
    decreases if n < 0 then 1 - n else n
  {
    if n < 0 then "-" + Decimal(-n)
    else if n < 10 then [DigitChar(n)]
    else Decimal(n / 10) + [DigitChar(n % 10)]
  }

  /** The dictionaries the pump writes; they carry no conversationId. */
  function StartOf(streamId: string): Sent {
    SentMessage(PlayStreamStart(None, streamId, PumpMediaFormat))
  }

  function ChunkOf(streamId: string, audio: seq<Byte>): Sent {
    SentMessage(PlayStreamChunk(None, streamId, Base64.Encode(audio)))
  }

  function StopOf(streamId: string): Sent {
    SentMessage(PlayStreamStop(None, streamId))
  }

  /** A message of the stream `streamId`, written without a conversationId. */
  predicate InStream(m: Sent, streamId: string) {
    && m.SentMessage? && m.msg.conversationId.None?
    && (m.msg.PlayStreamStart? || m.msg.PlayStreamChunk? || m.msg.PlayStreamStop?)
    && m.msg.streamId == streamId
  }

  /** Every message belongs to the stream `streamId`. */
  predicate OfStream(msgs: seq<Sent>, streamId: string) {
    forall i :: 0 <= i < |msgs| ==> InStream(msgs[i], streamId)
  }

  function ChunksOf(streamId: string, q: seq<seq<Byte>>): (r: seq<Sent>)
    ensures |r| == |q|
  {
    if q == [] then [] else [ChunkOf(streamId, q[0])] + ChunksOf(streamId, q[1..])
  }

  /** The chunk loop: receive the next queued audio and write it, until a write raises or the queue is drained. */
  function PumpChunks(log: Log, failing: set<nat>, streamId: string, q: seq<seq<Byte>>): (r: (Log, seq<seq<Byte>>))
    ensures |r.1| <= |q|
    ensures r.0.attempts == log.attempts + (|q| - |r.1|)
    ensures |log.sent| <= |r.0.sent| && r.0.sent[..|log.sent|] == log.sent
    decreases |q|
  {
    if q == [] then (log, [])
    else
      var (l1, ok) := Emit(log, failing, ChunkOf(streamId, q[0]));
      if !ok then (l1, q[1..]) else PumpChunks(l1, failing, streamId, q[1..])
  }

  /**
   * What the chunk loop writes is one chunk per audio it took, in queue order; the
   * last audio taken is missing when its write raised.
   */
  lemma {:induction false} PumpChunksWrites(log: Log, failing: set<nat>, streamId: string, q: seq<seq<Byte>>)
    ensures var r := PumpChunks(log, failing, streamId, q);
      var n := |q| - |r.1|;
      || r.0.sent == log.sent + ChunksOf(streamId, q[..n])
      || (n > 0 && r.0.sent == log.sent + ChunksOf(streamId, q[..n - 1]))
    decreases |q|
  {
    var r := PumpChunks(log, failing, streamId, q);
    var n := |q| - |r.1|;
    if q == [] {
      assert r.0.sent == log.sent + ChunksOf(streamId, q[..n]);
    } else {
      var (l1, ok) := Emit(log, failing, ChunkOf(streamId, q[0]));
      if !ok {
        assert r == (l1, q[1..]) && n == 1;
        assert r.0.sent == log.sent + ChunksOf(streamId, q[..0]);
      } else {
        assert r == PumpChunks(l1, failing, streamId, q[1..]);
        PumpChunksWrites(l1, failing, streamId, q[1..]);
        assert l1.sent == log.sent + [ChunkOf(streamId, q[0])];
        forall m | 0 <= m < n
          ensures log.sent + ChunksOf(streamId, q[..m + 1]) == l1.sent + ChunksOf(streamId, q[1..][..m])
        {
          assert q[..m + 1] == [q[0]] + q[1..][..m];
          assert ChunksOf(streamId, q[..m + 1]) == [ChunkOf(streamId, q[0])] + ChunksOf(streamId, q[1..][..m]);
          SeqAssoc(log.sent, [ChunkOf(streamId, q[0])], ChunksOf(streamId, q[1..][..m]));
        }
        assert n - 1 == |q[1..]| - |r.1|;
      }
    }
  }

  /** Chunk messages belong to their stream. */
  lemma ChunksInStream(streamId: string, q: seq<seq<Byte>>)
    ensures OfStream(ChunksOf(streamId, q), streamId)
  {
    ChunksAt(streamId, q);
  }

  lemma {:induction false} ChunksAt(streamId: string, q: seq<seq<Byte>>)
    ensures forall i :: 0 <= i < |q| ==> ChunksOf(streamId, q)[i] == ChunkOf(streamId, q[i])
    decreases |q|
  {
    if q != [] {
      ChunksAt(streamId, q[1..]);
      forall i | 0 <= i < |q|
        ensures ChunksOf(streamId, q)[i] == ChunkOf(streamId, q[i])
      {
        if i > 0 { assert q[1..][i - 1] == q[i]; }
      }
    }
  }

  /**
   * _handle_openai_responses once the client and websocket are found: the start, the
   * chunk loop, and in `finally` one stop whose write error is ignored. The queue is
   * the audio the client holds; the model ends the loop when it is drained.
   */
  function PumpSpec(log: Log, failing: set<nat>, streamId: string, q: seq<seq<Byte>>): (r: (Log, seq<seq<Byte>>))
    // No audio is taken when the start cannot be written.
    ensures |r.1| <= |q|
    ensures !SendSucceeds(log.attempts, failing) ==> r.1 == q
    // The start and the stop are always attempted.
    ensures r.0.attempts == log.attempts + 2 + (|q| - |r.1|)
    ensures |log.sent| <= |r.0.sent| && r.0.sent[..|log.sent|] == log.sent
  {
    var body := PumpBody(log, failing, streamId, q);
    (Emit(body.0, failing, StopOf(streamId)).0, body.1)
  }

  /** The `try` part of the pump: the start, then the chunk loop when the start went through. */
  function PumpBody(log: Log, failing: set<nat>, streamId: string, q: seq<seq<Byte>>): (r: (Log, seq<seq<Byte>>))
    ensures |r.1| <= |q|
    ensures r.0.attempts == log.attempts + 1 + (|q| - |r.1|)
    ensures |log.sent| <= |r.0.sent| && r.0.sent[..|log.sent|] == log.sent
  {
    var (l1, ok) := Emit(log, failing, StartOf(streamId));
    if ok then PumpChunks(l1, failing, streamId, q) else (l1, q)
  }

  /** The chunk loop takes audio from the front of the queue: what is left is a suffix of it. */
  lemma {:induction false} PumpChunksSuffix(log: Log, failing: set<nat>, streamId: string, q: seq<seq<Byte>>)
    ensures var r := PumpChunks(log, failing, streamId, q);
      r.1 == q[|q| - |r.1|..]
    decreases |q|
  {
    if q != [] {
      var (l1, ok) := Emit(log, failing, ChunkOf(streamId, q[0]));
      if ok {
        var r := PumpChunks(l1, failing, streamId, q[1..]);
        PumpChunksSuffix(l1, failing, streamId, q[1..]);
        assert q[1..][|q[1..]| - |r.1|..] == q[|q| - |r.1|..];
      }
    }
  }

  /** The pump takes audio from the front of the queue: what is left is a suffix of it. */
  lemma PumpSpecSuffix(log: Log, failing: set<nat>, streamId: string, q: seq<seq<Byte>>)
    ensures var r := PumpSpec(log, failing, streamId, q);
      r.1 == q[|q| - |r.1|..]
  {
    var (l1, ok) := Emit(log, failing, StartOf(streamId));
    if ok {
      PumpChunksSuffix(l1, failing, streamId, q);
    }
  }

  lemma PumpBodyOneStream(log: Log, failing: set<nat>, streamId: string, q: seq<seq<Byte>>)
    ensures var r := PumpBody(log, failing, streamId, q);
      && OfStream(r.0.sent[|log.sent|..], streamId)
      && (SendSucceeds(log.attempts, failing) ==> |r.0.sent| > |log.sent| && r.0.sent[|log.sent|] == StartOf(streamId))
  {
    var (l1, ok) := Emit(log, failing, StartOf(streamId));
    var l2 := PumpBody(log, failing, streamId, q).0;
    if ok {
      var rest := PumpChunks(l1, failing, streamId, q).1;
      PumpChunksWrites(l1, failing, streamId, q);
      var taken := if l2.sent == l1.sent + ChunksOf(streamId, q[..|q| - |rest|]) then q[..|q| - |rest|] else q[..|q| - |rest| - 1];
      ChunksInStream(streamId, taken);
      assert l2.sent[|log.sent|..] == [StartOf(streamId)] + ChunksOf(streamId, taken);
    } else {
      assert l2.sent[|log.sent|..] == [];
    }
  }

  lemma OfStreamAppend(a: seq<Sent>, b: seq<Sent>, streamId: string)
    requires OfStream(a, streamId) && OfStream(b, streamId)
    ensures OfStream(a + b, streamId)
  {
  }

  /** Everything the pump writes belongs to its stream; the first write attempted is the start, the last the stop. */
  lemma PumpOneStream(log: Log, failing: set<nat>, streamId: string, q: seq<seq<Byte>>)
    ensures var r := PumpSpec(log, failing, streamId, q);
      && OfStream(r.0.sent[|log.sent|..], streamId)
      && (SendSucceeds(log.attempts, failing) ==> r.0.sent[|log.sent|] == StartOf(streamId))
      && (SendSucceeds(r.0.attempts - 1, failing) ==> r.0.sent[|r.0.sent| - 1] == StopOf(streamId))
  {
    var (l2, rest) := PumpBody(log, failing, streamId, q);
    PumpBodyOneStream(log, failing, streamId, q);
    var (l3, ok3) := Emit(l2, failing, StopOf(streamId));
    var tail := if ok3 then [StopOf(streamId)] else [];
    assert l3.sent == l2.sent + tail;
    OfStreamAppend(l2.sent[|log.sent|..], tail, streamId);
    assert l3.sent[|log.sent|..] == l2.sent[|log.sent|..] + tail;
  }

  /** With every write going through, the pump writes start, one chunk per queued audio in order, and stop. */
  lemma PumpUndisturbed(log: Log, failing: set<nat>, streamId: string, q: seq<seq<Byte>>)
    requires forall a :: log.attempts <= a < log.attempts + |q| + 2 ==> SendSucceeds(a, failing)
    ensures PumpSpec(log, failing, streamId, q)
         == (Log(log.sent + [StartOf(streamId)] + ChunksOf(streamId, q) + [StopOf(streamId)], log.attempts + |q| + 2), [])
  {
    PumpBodyUndisturbed(log, failing, streamId, q);
    var l2 := Log(log.sent + [StartOf(streamId)] + ChunksOf(streamId, q), log.attempts + 1 + |q|);
    assert SendSucceeds(l2.attempts, failing);
    PumpFinally(log, failing, streamId, q, l2);
    var finished := (Log(l2.sent + [StopOf(streamId)], l2.attempts + 1), []);
    var expected: (Log, seq<seq<Byte>>) :=
      (Log(log.sent + [StartOf(streamId)] + ChunksOf(streamId, q) + [StopOf(streamId)], log.attempts + |q| + 2), []);
    assert PumpSpec(log, failing, streamId, q) == finished;
    assert finished.0 == expected.0 && finished.1 == expected.1;
  }

  lemma PumpBodyUndisturbed(log: Log, failing: set<nat>, streamId: string, q: seq<seq<Byte>>)
    requires forall a :: log.attempts <= a < log.attempts + |q| + 1 ==> SendSucceeds(a, failing)
    ensures PumpBody(log, failing, streamId, q) == (Log(log.sent + [StartOf(streamId)] + ChunksOf(streamId, q), log.attempts + 1 + |q|), [])
  {
    EmitOk(log, failing, StartOf(streamId));
    var l1 := Log(log.sent + [StartOf(streamId)], log.attempts + 1);
    assert PumpBody(log, failing, streamId, q) == PumpChunks(l1, failing, streamId, q);
    PumpChunksUndisturbed(l1, failing, streamId, q);
    var drained := (Log(l1.sent + ChunksOf(streamId, q), l1.attempts + |q|), []);
    var expected: (Log, seq<seq<Byte>>) := (Log(log.sent + [StartOf(streamId)] + ChunksOf(streamId, q), log.attempts + 1 + |q|), []);
    assert drained.0 == expected.0 && drained.1 == expected.1;
  }

  lemma PumpFinally(log: Log, failing: set<nat>, streamId: string, q: seq<seq<Byte>>, l2: Log)
    requires PumpBody(log, failing, streamId, q) == (l2, []) && SendSucceeds(l2.attempts, failing)
    ensures PumpSpec(log, failing, streamId, q) == (Log(l2.sent + [StopOf(streamId)], l2.attempts + 1), [])
  {
    EmitOk(l2, failing, StopOf(streamId));
  }

  lemma EmitOk(log: Log, failing: set<nat>, s: Sent)
    requires SendSucceeds(log.attempts, failing)
    ensures Emit(log, failing, s) == (Log(log.sent + [s], log.attempts + 1), true)
  {
  }

  lemma {:induction false} PumpChunksUndisturbed(log: Log, failing: set<nat>, streamId: string, q: seq<seq<Byte>>)
    requires forall a :: log.attempts <= a < log.attempts + |q| ==> SendSucceeds(a, failing)
    ensures PumpChunks(log, failing, streamId, q) == (Log(log.sent + ChunksOf(streamId, q), log.attempts + |q|), [])
    decreases |q|
  {
    if q == [] {
      assert log.sent + ChunksOf(streamId, q) == log.sent;
    } else {
      EmitOk(log, failing, ChunkOf(streamId, q[0]));
      var l1 := Log(log.sent + [ChunkOf(streamId, q[0])], log.attempts + 1);
      assert PumpChunks(log, failing, streamId, q) == PumpChunks(l1, failing, streamId, q[1..]);
      PumpChunksUndisturbed(l1, failing, streamId, q[1..]);
      assert ChunksOf(streamId, q) == [ChunkOf(streamId, q[0])] + ChunksOf(streamId, q[1..]);
      SeqAssoc(log.sent, [ChunkOf(streamId, q[0])], ChunksOf(streamId, q[1..]));
    }
  }

  /** Each chunk the pump writes decodes back to the audio it was made from. */
  lemma ChunkCarriesAudio(streamId: string, audio: seq<Byte>)
    ensures Base64.Decode(ChunkOf(streamId, audio).msg.audioChunk) == Success(audio)
  {
    Base64.RoundTrip(audio);
  }

  /**
   * Caller audio the AudioCodes side base64-encodes reaches OpenAI byte for byte: the
   * chunk decodes, and a send that succeeds appends exactly the original audio.
   */
  lemma CallerAudioForwarded(s: ClientState, connectFails: set<nat>, sendErrors: map<nat, SendError>, audio: seq<Byte>, now: int)
    requires Valid(s)
    ensures Base64.Decode(Base64.Encode(audio)).Success?
    ensures var r := SendSpec(s, connectFails, sendErrors, Base64.Decode(Base64.Encode(audio)).value, now);
      (r.1 ==> r.0.sentAudio == s.sentAudio + [audio]) && (!r.1 ==> r.0.sentAudio == s.sentAudio)
  {
    Base64.RoundTrip(audio);
  }

  /** Whether a Python object is truthy, for the stream id: a non-zero int. */
  predicate IntTruthy(n: int) {
    n != 0
  }

  /** `RealtimeAudioClient(...)` followed by `connect()`. */
  method NewClient(connectFails: set<nat>, sendErrors: map<nat, SendError>, now: int) returns (c: RealtimeAudioClient)
    ensures fresh(c) && c.Inv()
    ensures c.connectFails == connectFails && c.sendErrors == sendErrors
    ensures c.State() == ConnectSpec(Initial(), connectFails, now).0
  {
    c := new RealtimeAudioClient(connectFails, sendErrors);
    var _ := c.Connect(now);
  }

  /** The body of _handle_openai_responses once the client and websocket are found. */
  method Pump(client: RealtimeAudioClient, ws: Socket, streamId: string)
    requires client.Inv()
    modifies client, ws
    ensures client.Inv()
    ensures (ws.LogOf(), client.queue) == PumpSpec(old(ws.LogOf()), ws.failing, streamId, old(client.queue))
  {
    var ok := ws.Send(StartOf(streamId));
    if ok {
      PumpLoop(client, ws, streamId);
    }
    var _ := ws.Send(StopOf(streamId));
  }

  /** The chunk loop of the pump. */
  method PumpLoop(client: RealtimeAudioClient, ws: Socket, streamId: string)
    requires client.Inv()
    modifies client, ws
    ensures client.Inv()
    ensures (ws.LogOf(), client.queue) == PumpChunks(old(ws.LogOf()), ws.failing, streamId, old(client.queue))
  {
    var going := true;
    while going && client.queue != []
      invariant client.Inv()
      invariant going ==>
        PumpChunks(old(ws.LogOf()), ws.failing, streamId, old(client.queue)) == PumpChunks(ws.LogOf(), ws.failing, streamId, client.queue)
      invariant !going ==> PumpChunks(old(ws.LogOf()), ws.failing, streamId, old(client.queue)) == (ws.LogOf(), client.queue)
      decreases |client.queue|
    {
      PumpChunksStep(ws.LogOf(), ws.failing, streamId, client.queue);
      var audio := client.ReceiveAudioChunk();
      going := ws.Send(ChunkOf(streamId, audio.value));
    }
  }

  lemma PumpChunksStep(log: Log, failing: set<nat>, streamId: string, q: seq<seq<Byte>>)
    requires q != []
    ensures var (l1, ok) := Emit(log, failing, ChunkOf(streamId, q[0]));
      PumpChunks(log, failing, streamId, q) == if ok then PumpChunks(l1, failing, streamId, q[1..]) else (l1, q[1..])
  {
  }

  /** AudiocodesRealtimeBridge. */
  class AudiocodesRealtimeBridge {
    var clients: map<string, RealtimeAudioClient>
    var streamIds: map<string, int>
    var websockets: map<string, Socket>
    /** OPENAI_API_KEY as read from the environment; None when unset. */
    const apiKey: Option<string>

    /** The three maps share their keys, and every client keeps its own invariant. */
    ghost predicate Valid()
      reads this, clients.Values
    {
      && clients.Keys == websockets.Keys == streamIds.Keys
      && forall k :: k in clients ==> clients[k].Inv()
    }

    constructor (apiKey: Option<string>)
      ensures Valid() && this.apiKey == apiKey
      ensures clients == map[] && streamIds == map[] && websockets == map[]
    {
      this.apiKey := apiKey;
      clients := map[];
      streamIds := map[];
      websockets := map[];
    }

    /** Whether the API key is truthy. */
    predicate HasKey()
    {
      apiKey.Some? && apiKey.value != ""
    }

    /**
     * create_client. The new client's connection attempts and sends follow the given
     * scripts; its connect result is not looked at. The response task is not started
     * here: HandleOpenaiResponses is what it runs.
     */
    method CreateClient(id: string, ws: Socket, connectFails: set<nat>, sendErrors: map<nat, SendError>, now: int)
      returns (r: Result<(), string>)
      requires Valid()
      modifies this
      ensures Valid()
      ensures !HasKey() ==> r.Failure? && clients == old(clients) && websockets == old(websockets) && streamIds == old(streamIds)
      ensures HasKey() ==>
        && r.Success?
        && clients.Keys == old(clients.Keys) + {id}
        && websockets == old(websockets)[id := ws] && streamIds == old(streamIds)[id := 1]
        && fresh(clients[id]) && clients[id].State() == ConnectSpec(Initial(), connectFails, now).0
        && (forall k :: k in old(clients) && k != id ==> clients[k] == old(clients)[k])
    {
      if !HasKey() {
        return Failure("ValueError: OPENAI_API_KEY environment variable not set");
      }
      var client := NewClient(connectFails, sendErrors, now);
      Register(id, client, ws);
      r := Success(());
    }

    /** The three map updates of create_client; the stream counter starts at 1. */
    method Register(id: string, client: RealtimeAudioClient, ws: Socket)
      requires Valid() && client.Inv()
      modifies this`clients, this`websockets, this`streamIds
      ensures Valid()
      ensures clients == old(clients)[id := client] && websockets == old(websockets)[id := ws]
      ensures streamIds == old(streamIds)[id := 1]
    {
      clients := clients[id := client];
      websockets := websockets[id := ws];
      streamIds := streamIds[id := 1];
    }

    /** send_audio_chunk: decode the base64 text and forward the bytes to the conversation's client. */
    method SendAudioChunk(id: string, audioChunk: string, now: int) returns (r: Result<(), string>)
      requires Valid()
      modifies if id in clients then {clients[id]} else {}
      ensures Valid()
      ensures id !in clients ==> r.Success?
      ensures id in clients ==> (r.Success? <==> Base64.Decode(audioChunk).Success?)
      ensures id in clients && r.Success? ==>
        var c := clients[id];
        c.State() == SendSpec(old(c.State()), c.connectFails, c.sendErrors, Base64.Decode(audioChunk).value, now).0
      ensures id in clients && r.Failure? ==> clients[id].State() == old(clients[id].State())
    {
      if id !in clients {
        return Success(());
      }
      var client := clients[id];
      var decoded := Base64.Decode(audioChunk);
      if decoded.Failure? {
        return Failure("binascii.Error: invalid base64 data");
      }
      var _ := client.SendAudioChunk(decoded.value, now);
      r := Success(());
    }

    /**
     * _handle_openai_responses: with the conversation's client and websocket, write the
     * start, one chunk per audio the client has queued, and the stop.
     */
    method HandleOpenaiResponses(id: string)
      requires Valid()
      // Without the conversation's client and websocket nothing is written and no audio is taken.
      modifies if id in clients && id in websockets then {clients[id], websockets[id]} else {}
      ensures Valid()
      ensures id in clients && id in websockets ==>
        var ws := websockets[id];
        var c := clients[id];
        (ws.LogOf(), c.queue) == PumpSpec(old(ws.LogOf()), ws.failing, Decimal(streamIds[id]), old(c.queue))
    {
      if id !in clients || id !in websockets {
        return;
      }
      Pump(clients[id], websockets[id], Decimal(streamIds[id]));
    }

    /** stop_stream: one stop when the conversation has a websocket and a truthy stream id; a failed write raises. */
    method StopStream(id: string) returns (r: Result<(), string>)
      requires Valid()
      modifies if id in websockets && id in streamIds && IntTruthy(streamIds[id]) then {websockets[id]} else {}
      ensures !(id in websockets && id in streamIds && IntTruthy(streamIds[id])) ==> r.Success?
      ensures id in websockets && id in streamIds && IntTruthy(streamIds[id]) ==>
        var ws := websockets[id];
        var (log, ok) := Emit(old(ws.LogOf()), ws.failing, StopOf(Decimal(streamIds[id])));
        ws.LogOf() == log && (r.Success? <==> ok)
      ensures Valid()
    {
      if id !in websockets || id !in streamIds || !IntTruthy(streamIds[id]) {
        return Success(());
      }
      var ok := websockets[id].Send(StopOf(Decimal(streamIds[id])));
      r := if ok then Success(()) else Failure("websocket send failed");
    }

    /** close_client: forget the conversation in all three maps and close its client, if it had one. */
    method CloseClient(id: string)
      requires Valid()
      // An unknown id, or a second close, touches no client.
      modifies this, if id in clients then {clients[id]} else {}
      ensures Valid()
      ensures clients == old(clients) - {id} && websockets == old(websockets) - {id} && streamIds == old(streamIds) - {id}
      ensures id in old(clients) ==> old(clients)[id].State() == CloseSpec(old(clients[id].State()))
    {
      var client: Option<RealtimeAudioClient> := if id in clients then Some(clients[id]) else None;
      Forget(id);
      if client.Some? {
        client.value.Close();
      }
    }

    /** The three `pop(conversation_id, None)` calls of close_client. */
    method Forget(id: string)
      requires Valid()
      modifies this`clients, this`websockets, this`streamIds
      ensures Valid()
      ensures clients == old(clients) - {id} && websockets == old(websockets) - {id} && streamIds == old(streamIds) - {id}
    {
      clients := clients - {id};
      websockets := websockets - {id};
      streamIds := streamIds - {id};
    }
  }
}
