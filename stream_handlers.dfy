/**
 * Audio stream handlers (app/handlers/stream_handlers.py): the replies to
 * userStream.start/chunk/stop, splitting audio into chunks, and the
 * playStream.start, playStream.chunk*, playStream.stop sequence.
 */
module StreamHandlers {
  import opened Wrappers
  import opened Json
  import opened MessageSchemas
  import opened Transport
  import Base64

  type Byte = Base64.Byte

  const DefaultChunkSize: int := 4000

  // ---------------------------------------------------------------------------
  // Replies to the user stream messages.

  /** handle_user_stream_start: a started reply carrying the message's id, or no id when the message does not validate. */
  function HandleUserStreamStart(message: map<string, Json>): (r: Reply)
    ensures r.ModelReply? && r.msg.UserStreamStarted?
    // The reply carries the id exactly when the message validates with a string id; a wrong type,
    // or an id that is neither a string nor null, gives a reply without id.
    ensures r.msg.conversationId ==
      if HasType(message, "userStream.start") && Get(message, "conversationId").JStr? then Some(Get(message, "conversationId").s) else None
  {
    var parsed := ParseIdOnly(message, "userStream.start");
    ModelReply(UserStreamStarted(if parsed.Success? then parsed.value else None))
  }

  /** handle_user_stream_chunk: the chunk is validated (and only logged); nothing is returned either way. */
  function HandleUserStreamChunk(message: map<string, Json>): (r: Reply)
    ensures r == NoReply
  {
    var _ := ParseUserStreamChunk(message);
    NoReply
  }

  /** handle_user_stream_stop: a stopped reply carrying the message's id, or no id when the message does not validate. */
  function HandleUserStreamStop(message: map<string, Json>): (r: Reply)
    ensures r.ModelReply? && r.msg.UserStreamStopped?
    // The reply carries the id exactly when the message validates with a string id; a wrong type,
    // or an id that is neither a string nor null, gives a reply without id.
    ensures r.msg.conversationId ==
      if HasType(message, "userStream.stop") && Get(message, "conversationId").JStr? then Some(Get(message, "conversationId").s) else None
  {
    var parsed := ParseIdOnly(message, "userStream.stop");
    ModelReply(UserStreamStopped(if parsed.Success? then parsed.value else None))
  }

  // ---------------------------------------------------------------------------
  // Splitting audio into chunks.

  /** The slices `data[i:i + size]` for `i` in `range(0, len(data), size)`, for a positive size. */
  function Chunks(data: seq<Byte>, size: nat): seq<seq<Byte>>
    requires size > 0
    decreases |data|
  {
    if data == [] then []
    else if |data| <= size then [data]
    else [data[..size]] + Chunks(data[size..], size)
  }

  function Flatten(chunks: seq<seq<Byte>>): seq<Byte>
    decreases |chunks|
  {
    if chunks == [] then [] else chunks[0] + Flatten(chunks[1..])
  }

  /** Concatenating the chunks gives back the audio. */
  lemma {:induction false} ChunksConcatenate(data: seq<Byte>, size: nat)
    requires size > 0
    ensures Flatten(Chunks(data, size)) == data
    decreases |data|
  {
    if data != [] && |data| > size {
      ChunksConcatenate(data[size..], size);
      assert data[..size] + data[size..] == data;
    }
  }

  /** There are ceil(len/size) chunks: the least count whose total capacity covers the audio. */
  lemma {:induction false} ChunkCount(data: seq<Byte>, size: nat)
    requires size > 0
    ensures |data| <= |Chunks(data, size)| * size
    ensures Chunks(data, size) != [] ==> (|Chunks(data, size)| - 1) * size < |data|
    ensures Chunks(data, size) == [] <==> data == []
    decreases |data|
  {
    if data != [] && |data| > size {
      ChunkCount(data[size..], size);
      var k := |Chunks(data[size..], size)|;
      assert |Chunks(data, size)| == k + 1;
      assert (k + 1) * size == k * size + size;
    }
  }

  /** Every chunk but the last has exactly `size` bytes, and the last has 1 to `size`. */
  lemma {:induction false} ChunkLengths(data: seq<Byte>, size: nat)
    requires size > 0
    ensures var c := Chunks(data, size);
      (forall i :: 0 <= i < |c| - 1 ==> |c[i]| == size)
      && (c != [] ==> 1 <= |c[|c| - 1]| <= size)
    decreases |data|
  {
    var c := Chunks(data, size);
    if data != [] && |data| > size {
      ChunkLengths(data[size..], size);
      var rest := Chunks(data[size..], size);
      assert c == [data[..size]] + rest;
      ChunkCount(data[size..], size);
      assert c[|c| - 1] == rest[|rest| - 1];
      forall i | 0 <= i < |c| - 1
        ensures |c[i]| == size
      {
        if i > 0 { assert c[i] == rest[i - 1]; }
      }
    }
  }

  /** One step of the chunking loop: the slice starting at `i`, then the chunks of what follows it. */
  lemma ChunksStep(data: seq<Byte>, i: nat, size: nat)
    requires size > 0 && i < |data|
    ensures var end := if i + size <= |data| then i + size else |data|;
      Chunks(data[i..], size) == [data[i..end]] + Chunks(data[end..], size)
  {
    var d := data[i..];
    if |d| > size {
      assert d[..size] == data[i..i + size];
      assert d[size..] == data[i + size..];
    } else {
      var end := if i + size <= |data| then i + size else |data|;
      assert end == |data| && d == data[i..end];
      assert Chunks(d, size) == [d];
      assert data[end..] == [];
    }
  }

  /** chunk_audio_data: a zero size raises ValueError (`range` step 0); a negative size gives no chunks. */
  method ChunkAudioData(data: seq<Byte>, size: int) returns (r: Result<seq<seq<Byte>>, string>)
    ensures r.Failure? <==> size == 0
    ensures size < 0 ==> r == Success([])
    ensures size > 0 ==> r == Success(Chunks(data, size))
  {
    if size == 0 {
      return Failure("ValueError: range() arg 3 must not be zero");
    }
    if size < 0 {
      return Success([]);
    }
    var chunks := SliceAudio(data, size);
    r := Success(chunks);
  }

  /** The slicing loop of chunk_audio_data, for a positive size. */
  method SliceAudio(data: seq<Byte>, size: nat) returns (chunks: seq<seq<Byte>>)
    requires size > 0
    ensures chunks == Chunks(data, size)
  {
    chunks := [];
    var i := 0;
    assert data[0..] == data;
    while i < |data|
      invariant 0 <= i <= |data|
      invariant chunks + Chunks(data[i..], size) == Chunks(data, size)
      decreases |data| - i
    {
      var end := if i + size <= |data| then i + size else |data|;
      ChunksStep(data, i, size);
      chunks := chunks + [data[i..end]];
      i := end;
    }
    assert data[i..] == [];
    assert chunks + [] == chunks;
  }

  /** The chunk list send_play_stream iterates over, when chunking succeeds. */
  function ChunkList(data: seq<Byte>, size: int): seq<seq<Byte>>
    requires size != 0
  {
    if size < 0 then [] else Chunks(data, size)
  }

  // ---------------------------------------------------------------------------
  // The play stream sequence.

  /** The `conversation_id` argument as the models read it: None, a string, or a validation error. */
  function ConversationIdArg(id: Json): (r: Result<Option<string>, string>)
    ensures r.Success? <==> id.JNull? || id.JStr?
    ensures id.JStr? ==> r == Success(Some(id.s))
    ensures id.JNull? ==> r == Success(None)
  {
    match id
    case JNull => Success(None)
    case JStr(s) => Success(Some(s))
    case _ => Failure("ValidationError: conversationId should be a valid string")
  }

  function ChunkMessage(id: Option<string>, streamId: string, chunk: seq<Byte>): Message {
    PlayStreamChunk(id, streamId, Base64.Encode(chunk))
  }

  function ChunkMessages(id: Option<string>, streamId: string, chunks: seq<seq<Byte>>): (r: seq<Sent>)
    ensures |r| == |chunks|
    decreases |chunks|
  {
    if chunks == [] then [] else [SentMessage(ChunkMessage(id, streamId, chunks[0]))] + ChunkMessages(id, streamId, chunks[1..])
  }

  /** The i-th chunk message carries the i-th chunk, encoded. */
  lemma {:induction false} ChunkMessagesAt(id: Option<string>, streamId: string, chunks: seq<seq<Byte>>)
    ensures forall i :: 0 <= i < |chunks| ==> ChunkMessages(id, streamId, chunks)[i] == SentMessage(ChunkMessage(id, streamId, chunks[i]))
    decreases |chunks|
  {
    if chunks != [] {
      ChunkMessagesAt(id, streamId, chunks[1..]);
      var r := ChunkMessages(id, streamId, chunks);
      forall i | 0 <= i < |chunks|
        ensures r[i] == SentMessage(ChunkMessage(id, streamId, chunks[i]))
      {
        if i > 0 { assert r[i] == ChunkMessages(id, streamId, chunks[1..])[i - 1]; }
      }
    }
  }

  /**
   * The chunk loop of send_play_stream: it stops at the first write that raises.
   * Building each chunk's model never raises, since chunks are never empty
   * (ChunksNonEmpty, EncodedChunkAccepted).
   */
  function SendChunks(log: Log, failing: set<nat>, id: Option<string>, streamId: string, chunks: seq<seq<Byte>>): Log
    decreases |chunks|
  {
    if chunks == [] then log
    else
      var (log', ok) := Emit(log, failing, SentMessage(ChunkMessage(id, streamId, chunks[0])));
      if ok then SendChunks(log', failing, id, streamId, chunks[1..]) else log'
  }

  /** How many chunk writes succeed from attempt `a` before the first scripted failure. */
  function Delivered(a: nat, failing: set<nat>, n: nat): (k: nat)
    ensures k <= n
    decreases n
  {
    if n == 0 || a in failing then 0 else 1 + Delivered(a + 1, failing, n - 1)
  }

  /** Non-empty chunks are written in order until the first failing attempt, which is consumed and ends the loop. */
  lemma {:induction false} SendChunksLog(log: Log, failing: set<nat>, id: Option<string>, streamId: string, chunks: seq<seq<Byte>>)
    ensures SendChunks(log, failing, id, streamId, chunks).sent
         == log.sent + ChunkMessages(id, streamId, chunks[..Delivered(log.attempts, failing, |chunks|)])
    ensures var k := Delivered(log.attempts, failing, |chunks|);
      SendChunks(log, failing, id, streamId, chunks).attempts == log.attempts + (if k < |chunks| then k + 1 else k)
    decreases |chunks|
  {
    if chunks == [] || log.attempts in failing {
      SendChunksDone(log, failing, id, streamId, chunks);
    } else {
      var first := SentMessage(ChunkMessage(id, streamId, chunks[0]));
      var log' := Log(log.sent + [first], log.attempts + 1);
      var k' := Delivered(log.attempts + 1, failing, |chunks| - 1);
      var sent' := ChunkMessages(id, streamId, chunks[1..][..k']);
      var r := SendChunks(log, failing, id, streamId, chunks);
      var r' := SendChunks(log', failing, id, streamId, chunks[1..]);
      SendChunksLog(log', failing, id, streamId, chunks[1..]);
      SendChunksStep(log, failing, id, streamId, chunks);
      assert r == r' && r'.sent == (log.sent + [first]) + sent';
      SeqAssoc(log.sent, [first], sent');
    }
  }

  /** No chunk left, or the next write raises: nothing more is written. */
  lemma SendChunksDone(log: Log, failing: set<nat>, id: Option<string>, streamId: string, chunks: seq<seq<Byte>>)
    requires chunks == [] || log.attempts in failing
    ensures Delivered(log.attempts, failing, |chunks|) == 0
    ensures SendChunks(log, failing, id, streamId, chunks)
         == if chunks == [] then log else Log(log.sent, log.attempts + 1)
    ensures ChunkMessages(id, streamId, chunks[..0]) == []
  {
    assert chunks[..0] == [];
  }

  /** One written chunk: the rest of the loop continues from the log with it appended. */
  lemma SendChunksStep(log: Log, failing: set<nat>, id: Option<string>, streamId: string, chunks: seq<seq<Byte>>)
    requires chunks != [] && log.attempts !in failing
    ensures var first := SentMessage(ChunkMessage(id, streamId, chunks[0]));
      var k' := Delivered(log.attempts + 1, failing, |chunks| - 1);
      SendChunks(log, failing, id, streamId, chunks) == SendChunks(Log(log.sent + [first], log.attempts + 1), failing, id, streamId, chunks[1..])
      && Delivered(log.attempts, failing, |chunks|) == k' + 1
      && ChunkMessages(id, streamId, chunks[..k' + 1]) == [first] + ChunkMessages(id, streamId, chunks[1..][..k'])
  {
    var k' := Delivered(log.attempts + 1, failing, |chunks| - 1);
    assert chunks[..k' + 1][1..] == chunks[1..][..k'];
  }

  lemma {:induction false} ChunksNonEmpty(data: seq<Byte>, size: nat)
    requires size > 0
    ensures forall i :: 0 <= i < |Chunks(data, size)| ==> Chunks(data, size)[i] != []
    decreases |data|
  {
    if data != [] && |data| > size {
      ChunksNonEmpty(data[size..], size);
      var c := Chunks(data, size);
      forall i | 0 <= i < |c|
        ensures c[i] != []
      {
        if i > 0 { assert c[i] == Chunks(data[size..], size)[i - 1]; }
      }
    }
  }

  /** The playStream.start message, when its model can be built. */
  function StartMessage(id: Json, streamId: string, mediaFormat: string): (r: Result<Message, string>)
    ensures r.Success? <==> (id.JNull? || id.JStr?) && mediaFormat in SupportedMediaFormats
    ensures r.Success? ==> r.value == PlayStreamStart(ConversationIdArg(id).value, streamId, mediaFormat)
  {
    var cid := ConversationIdArg(id);
    if cid.Failure? then Failure(cid.error)
    else
      BuildPlayStreamStart(cid.value, streamId, mediaFormat);
      Build(PlayStreamStart(cid.value, streamId, mediaFormat))
  }

  /** The `try`/`finally` part of send_play_stream, once the start was written: the chunks, then the stop in any case. */
  function AfterStart(log: Log, failing: set<nat>, id: Option<string>, streamId: string, audio: seq<Byte>,
                      chunkSize: int): (r: (Log, Outcome))
    ensures |r.0.sent| >= |log.sent| && r.0.attempts >= log.attempts + 1
  {
    var chunks := if chunkSize == 0 then [] else ChunkList(audio, chunkSize);
    var chunksLog := if chunkSize == 0 then log else SendChunks(log, failing, id, streamId, chunks);
    SendChunksGrows(log, failing, id, streamId, chunks);
    var (log', ok) := Emit(chunksLog, failing, SentMessage(PlayStreamStop(id, streamId)));
    (log', if ok then Returned(NoReply) else Raised("send failed"))
  }

  /** The `try`/`finally` part only appends, and the stop is the last write attempted; the call returns exactly when it succeeds. */
  lemma AfterStartStopsLast(log: Log, failing: set<nat>, id: Option<string>, streamId: string, audio: seq<Byte>,
                            chunkSize: int)
    ensures var r := AfterStart(log, failing, id, streamId, audio, chunkSize);
      r.0.sent[..|log.sent|] == log.sent
      && (r.1.Returned? <==> SendSucceeds(r.0.attempts - 1, failing))
      && (r.1.Returned? ==>
        r.1.reply == NoReply && |r.0.sent| > |log.sent| && r.0.sent[|r.0.sent| - 1] == SentMessage(PlayStreamStop(id, streamId)))
  {
    var chunks := if chunkSize == 0 then [] else ChunkList(audio, chunkSize);
    SendChunksGrows(log, failing, id, streamId, chunks);
  }

  /** send_play_stream, as a function of the write log before the call. */
  function PlayStreamSpec(log: Log, failing: set<nat>, streamId: string, mediaFormat: string, audio: seq<Byte>,
                          id: Json, chunkSize: int): (r: (Log, Outcome))
    // An unsupported format or a non-string id raises before anything is written.
    ensures StartMessage(id, streamId, mediaFormat).Failure? ==> r.0 == log && r.1.Raised?
    // A failed start write raises; nothing else is attempted.
    ensures StartMessage(id, streamId, mediaFormat).Success? && !SendSucceeds(log.attempts, failing) ==>
      r.0 == Log(log.sent, log.attempts + 1) && r.1.Raised?
  {
    match StartMessage(id, streamId, mediaFormat)
    case Failure(e) => (log, Raised(e))
    case Success(start) =>
      var (log1, ok1) := Emit(log, failing, SentMessage(start));
      if !ok1 then (log1, Raised("send failed"))
      else AfterStart(log1, failing, start.conversationId, streamId, audio, chunkSize)
  }

  /** Once the start was written, the stop is always attempted after it, and is the last message written; nothing written before is touched. */
  lemma PlayStreamStartsAndStops(log: Log, failing: set<nat>, streamId: string, mediaFormat: string, audio: seq<Byte>,
                                 id: Json, chunkSize: int)
    ensures var r := PlayStreamSpec(log, failing, streamId, mediaFormat, audio, id, chunkSize);
      (StartMessage(id, streamId, mediaFormat).Success? && SendSucceeds(log.attempts, failing) ==>
        |r.0.sent| > |log.sent|
        && r.0.sent[|log.sent|] == SentMessage(StartMessage(id, streamId, mediaFormat).value)
        && r.0.attempts >= log.attempts + 2
        && (r.1.Returned? <==> SendSucceeds(r.0.attempts - 1, failing))
        && (r.1.Returned? ==> r.0.sent[|r.0.sent| - 1] == SentMessage(PlayStreamStop(ConversationIdArg(id).value, streamId))))
      && (r.1.Returned? ==> r.1.reply == NoReply)
      && |r.0.sent| >= |log.sent| && r.0.sent[..|log.sent|] == log.sent
  {
    var r := PlayStreamSpec(log, failing, streamId, mediaFormat, audio, id, chunkSize);
    var start := StartMessage(id, streamId, mediaFormat);
    if start.Success? && SendSucceeds(log.attempts, failing) {
      var log1 := Log(log.sent + [SentMessage(start.value)], log.attempts + 1);
      var n := |log.sent|;
      assert r == AfterStart(log1, failing, start.value.conversationId, streamId, audio, chunkSize);
      AfterStartStopsLast(log1, failing, start.value.conversationId, streamId, audio, chunkSize);
      assert r.0.sent[..n] == log.sent && r.0.sent[n] == SentMessage(start.value) by {
        assert r.0.sent[..n + 1] == log1.sent;
        assert r.0.sent[..n + 1][..n] == r.0.sent[..n];
        assert r.0.sent[..n + 1][n] == r.0.sent[n];
      }
    }
  }

  lemma {:induction false} SendChunksGrows(log: Log, failing: set<nat>, id: Option<string>, streamId: string, chunks: seq<seq<Byte>>)
    ensures var log' := SendChunks(log, failing, id, streamId, chunks);
      |log'.sent| >= |log.sent| && log'.sent[..|log.sent|] == log.sent && log'.attempts >= log.attempts
    decreases |chunks|
  {
    if chunks != [] {
      var (log', ok) := Emit(log, failing, SentMessage(ChunkMessage(id, streamId, chunks[0])));
      if ok {
        SendChunksGrows(log', failing, id, streamId, chunks[1..]);
      }
    }
  }

  /** The messages of an undisturbed play stream: start, one chunk per slice of the audio, stop. */
  function PlayStreamMessages(id: Option<string>, streamId: string, mediaFormat: string, audio: seq<Byte>, chunkSize: nat): seq<Sent>
    requires chunkSize > 0
  {
    [SentMessage(PlayStreamStart(id, streamId, mediaFormat))]
    + ChunkMessages(id, streamId, Chunks(audio, chunkSize))
    + [SentMessage(PlayStreamStop(id, streamId))]
  }

  /** The audio one written message carries: the decoded chunk of a playStream.chunk, nothing otherwise. */
  function Payload(s: Sent): seq<Byte> {
    if s.SentMessage? && s.msg.PlayStreamChunk? && Base64.Decode(s.msg.audioChunk).Success?
    then Base64.Decode(s.msg.audioChunk).value
    else []
  }

  /** The audio carried by a sequence of written messages, decoded and concatenated. */
  function CarriedAudio(msgs: seq<Sent>): seq<Byte>
    decreases |msgs|
  {
    if msgs == [] then [] else Payload(msgs[0]) + CarriedAudio(msgs[1..])
  }

  lemma {:induction false} ChunkMessagesCarry(id: Option<string>, streamId: string, chunks: seq<seq<Byte>>)
    ensures CarriedAudio(ChunkMessages(id, streamId, chunks)) == Flatten(chunks)
    decreases |chunks|
  {
    if chunks != [] {
      Base64.RoundTrip(chunks[0]);
      ChunkMessagesCarry(id, streamId, chunks[1..]);
      var msgs := ChunkMessages(id, streamId, chunks);
      assert msgs[1..] == ChunkMessages(id, streamId, chunks[1..]);
    }
  }

  lemma {:induction false} CarriedAudioAppend(a: seq<Sent>, b: seq<Sent>)
    ensures CarriedAudio(a + b) == CarriedAudio(a) + CarriedAudio(b)
    decreases |a|
  {
    if a != [] {
      assert (a + b)[0] == a[0];
      assert (a + b)[1..] == a[1..] + b;
      CarriedAudioAppend(a[1..], b);
      calc {
        CarriedAudio(a + b);
        Payload(a[0]) + CarriedAudio(a[1..] + b);
        Payload(a[0]) + (CarriedAudio(a[1..]) + CarriedAudio(b));
        (Payload(a[0]) + CarriedAudio(a[1..])) + CarriedAudio(b);
      }
    } else {
      assert a + b == b;
    }
  }

  /** Every message names the same stream and conversation. */
  predicate SameStream(msgs: seq<Sent>, id: Option<string>, streamId: string) {
    forall i :: 0 <= i < |msgs| ==>
      msgs[i].SentMessage? && (msgs[i].msg.PlayStreamStart? || msgs[i].msg.PlayStreamChunk? || msgs[i].msg.PlayStreamStop?)
      && msgs[i].msg.streamId == streamId && msgs[i].msg.conversationId == id
  }

  lemma SameStreamCons(m: Sent, tail: seq<Sent>, id: Option<string>, streamId: string)
    requires SameStream([m], id, streamId) && SameStream(tail, id, streamId)
    ensures SameStream([m] + tail, id, streamId)
  {
    var msgs := [m] + tail;
    forall i | 0 <= i < |msgs|
      ensures msgs[i].SentMessage? && (msgs[i].msg.PlayStreamStart? || msgs[i].msg.PlayStreamChunk? || msgs[i].msg.PlayStreamStop?)
      ensures msgs[i].msg.streamId == streamId && msgs[i].msg.conversationId == id
    {
      if i == 0 { assert msgs[i] == [m][0]; } else { assert msgs[i] == tail[i - 1]; }
    }
  }

  /** With no failing write, every chunk is written, in order. */
  lemma AllChunksDelivered(log: Log, failing: set<nat>, id: Option<string>, streamId: string, chunks: seq<seq<Byte>>)
    requires forall a :: log.attempts <= a < log.attempts + |chunks| ==> a !in failing
    ensures SendChunks(log, failing, id, streamId, chunks) == Log(log.sent + ChunkMessages(id, streamId, chunks), log.attempts + |chunks|)
  {
    SendChunksLog(log, failing, id, streamId, chunks);
    NoFailureDeliversAll(log.attempts, failing, |chunks|);
    assert chunks[..|chunks|] == chunks;
  }

  /** The chunks of the undisturbed sequence carry exactly the audio, in order. */
  lemma PlayStreamMessagesCarryAudio(id: Option<string>, streamId: string, mediaFormat: string, audio: seq<Byte>, chunkSize: nat)
    requires chunkSize > 0
    ensures CarriedAudio(PlayStreamMessages(id, streamId, mediaFormat, audio, chunkSize)) == audio
  {
    var chunks := Chunks(audio, chunkSize);
    var start := [SentMessage(PlayStreamStart(id, streamId, mediaFormat))];
    var stop := [SentMessage(PlayStreamStop(id, streamId))];
    ChunkMessagesCarry(id, streamId, chunks);
    ChunksConcatenate(audio, chunkSize);
    CarriedAudioAppend(start, ChunkMessages(id, streamId, chunks));
    CarriedAudioAppend(start + ChunkMessages(id, streamId, chunks), stop);
  }

  /** Every message of the undisturbed sequence names the one stream and conversation. */
  lemma PlayStreamMessagesOneStream(id: Option<string>, streamId: string, mediaFormat: string, audio: seq<Byte>, chunkSize: nat)
    requires chunkSize > 0
    ensures SameStream(PlayStreamMessages(id, streamId, mediaFormat, audio, chunkSize), id, streamId)
  {
    var msgs := PlayStreamMessages(id, streamId, mediaFormat, audio, chunkSize);
    var body := ChunkMessages(id, streamId, Chunks(audio, chunkSize));
    ChunkMessagesAt(id, streamId, Chunks(audio, chunkSize));
    forall i | 0 <= i < |msgs|
      ensures msgs[i].SentMessage? && (msgs[i].msg.PlayStreamStart? || msgs[i].msg.PlayStreamChunk? || msgs[i].msg.PlayStreamStop?)
      ensures msgs[i].msg.streamId == streamId && msgs[i].msg.conversationId == id
    {
      if 0 < i < |msgs| - 1 {
        assert msgs[i] == body[i - 1];
      }
    }
  }

  lemma AfterStartUndisturbed(log: Log, failing: set<nat>, id: Option<string>, streamId: string, audio: seq<Byte>, chunkSize: nat)
    requires chunkSize > 0
    requires forall a :: log.attempts <= a <= log.attempts + |Chunks(audio, chunkSize)| ==> a !in failing
    ensures AfterStart(log, failing, id, streamId, audio, chunkSize)
         == (Log(log.sent + ChunkMessages(id, streamId, Chunks(audio, chunkSize)) + [SentMessage(PlayStreamStop(id, streamId))],
                 log.attempts + |Chunks(audio, chunkSize)| + 1),
             Returned(NoReply))
  {
    AllChunksDelivered(log, failing, id, streamId, Chunks(audio, chunkSize));
  }

  /** Once the start message is written, send_play_stream continues as its `try`/`finally` part. */
  lemma PlayStreamStarted(log: Log, failing: set<nat>, streamId: string, mediaFormat: string, audio: seq<Byte>,
                          id: Json, chunkSize: int)
    requires StartMessage(id, streamId, mediaFormat).Success?
    requires SendSucceeds(log.attempts, failing)
    ensures PlayStreamSpec(log, failing, streamId, mediaFormat, audio, id, chunkSize)
         == AfterStart(Log(log.sent + [SentMessage(PlayStreamStart(ConversationIdArg(id).value, streamId, mediaFormat))], log.attempts + 1),
                       failing, ConversationIdArg(id).value, streamId, audio, chunkSize)
  {
  }

  /** With no failing write, send_play_stream writes exactly start, one chunk per slice of the audio, and stop. */
  lemma PlayStreamUndisturbed(log: Log, failing: set<nat>, streamId: string, mediaFormat: string, audio: seq<Byte>,
                              id: Json, chunkSize: nat)
    requires chunkSize > 0
    requires StartMessage(id, streamId, mediaFormat).Success?
    requires forall a :: log.attempts <= a <= log.attempts + |Chunks(audio, chunkSize)| + 1 ==> a !in failing
    ensures var msgs := PlayStreamMessages(ConversationIdArg(id).value, streamId, mediaFormat, audio, chunkSize);
      PlayStreamSpec(log, failing, streamId, mediaFormat, audio, id, chunkSize)
      == (Log(log.sent + msgs, log.attempts + |msgs|), Returned(NoReply))
  {
    var cid := ConversationIdArg(id).value;
    PlayStreamStarted(log, failing, streamId, mediaFormat, audio, id, chunkSize);
    StartedUndisturbed(log, failing, cid, streamId, mediaFormat, audio, chunkSize);
  }

  lemma StartedUndisturbed(log: Log, failing: set<nat>, cid: Option<string>, streamId: string, mediaFormat: string,
                           audio: seq<Byte>, chunkSize: nat)
    requires chunkSize > 0
    requires forall a :: log.attempts + 1 <= a <= log.attempts + |Chunks(audio, chunkSize)| + 1 ==> a !in failing
    ensures var msgs := PlayStreamMessages(cid, streamId, mediaFormat, audio, chunkSize);
      AfterStart(Log(log.sent + [SentMessage(PlayStreamStart(cid, streamId, mediaFormat))], log.attempts + 1), failing, cid, streamId, audio, chunkSize)
      == (Log(log.sent + msgs, log.attempts + |msgs|), Returned(NoReply))
  {
    var start := SentMessage(PlayStreamStart(cid, streamId, mediaFormat));
    var stop := SentMessage(PlayStreamStop(cid, streamId));
    var log1 := Log(log.sent + [start], log.attempts + 1);
    var chunks := Chunks(audio, chunkSize);
    var body := ChunkMessages(cid, streamId, chunks);
    var r := AfterStart(log1, failing, cid, streamId, audio, chunkSize);
    assert r.0.sent == log1.sent + body + [stop] && r.0.attempts == log1.attempts + |chunks| + 1
        && r.1 == Returned(NoReply) by {
      AfterStartUndisturbed(log1, failing, cid, streamId, audio, chunkSize);
    }
    var msgs := PlayStreamMessages(cid, streamId, mediaFormat, audio, chunkSize);
    assert msgs == [start] + body + [stop];
    assert (log.sent + [start]) + body + [stop] == log.sent + ([start] + body + [stop]);
    assert r.0 == Log(log.sent + msgs, log.attempts + |msgs|);
  }

  /** Whatever writes fail, the `try`/`finally` part writes only chunks and the stop of one stream. */
  lemma AfterStartOneStream(log: Log, failing: set<nat>, id: Option<string>, streamId: string, audio: seq<Byte>, chunkSize: int)
    ensures SameStream(AfterStart(log, failing, id, streamId, audio, chunkSize).0.sent[|log.sent|..], id, streamId)
  {
    var r := AfterStart(log, failing, id, streamId, audio, chunkSize);
    var chunks := if chunkSize == 0 then [] else ChunkList(audio, chunkSize);
    var mid := if chunkSize == 0 then log else SendChunks(log, failing, id, streamId, chunks);
    var k := Delivered(log.attempts, failing, |chunks|);
    SendChunksLog(log, failing, id, streamId, chunks);
    assert mid.sent == log.sent + ChunkMessages(id, streamId, chunks[..k]) by {
      if chunkSize == 0 {
        assert chunks[..k] == [];
      }
    }
    var body := ChunkMessages(id, streamId, chunks[..k]);
    ChunkMessagesAt(id, streamId, chunks[..k]);
    var stop := SentMessage(PlayStreamStop(id, streamId));
    if SendSucceeds(mid.attempts, failing) {
      assert r.0.sent[|log.sent|..] == body + [stop];
    } else {
      assert r.0.sent[|log.sent|..] == body;
    }
  }

  /** Whatever writes fail, send_play_stream writes only messages of the one stream it was asked to play. */
  lemma PlayStreamOneStream(log: Log, failing: set<nat>, streamId: string, mediaFormat: string, audio: seq<Byte>,
                            id: Json, chunkSize: int)
    ensures var r := PlayStreamSpec(log, failing, streamId, mediaFormat, audio, id, chunkSize);
      |r.0.sent| >= |log.sent|
      && (ConversationIdArg(id).Failure? ==> r.0.sent == log.sent)
      && (ConversationIdArg(id).Success? ==> SameStream(r.0.sent[|log.sent|..], ConversationIdArg(id).value, streamId))
  {
    var r := PlayStreamSpec(log, failing, streamId, mediaFormat, audio, id, chunkSize);
    if StartMessage(id, streamId, mediaFormat).Success? && SendSucceeds(log.attempts, failing) {
      var cid := ConversationIdArg(id).value;
      var log1 := Log(log.sent + [SentMessage(PlayStreamStart(cid, streamId, mediaFormat))], log.attempts + 1);
      PlayStreamStarted(log, failing, streamId, mediaFormat, audio, id, chunkSize);
      AfterStartOneStream(log1, failing, cid, streamId, audio, chunkSize);
      AfterStartStopsLast(log1, failing, cid, streamId, audio, chunkSize);
      var s := r.0.sent;
      var n := |log.sent|;
      assert s[n] == log1.sent[n] by {
        assert s[..n + 1] == log1.sent;
      }
      assert s[n..] == [s[n]] + s[n + 1..];
      SameStreamCons(s[n], s[n + 1..], cid, streamId);
    } else {
      assert r.0.sent[|log.sent|..] == [];
    }
  }

  lemma {:induction false} NoFailureDeliversAll(a: nat, failing: set<nat>, n: nat)
    requires forall j :: a <= j < a + n ==> j !in failing
    ensures Delivered(a, failing, n) == n
    decreases n
  {
    if n > 0 {
      NoFailureDeliversAll(a + 1, failing, n - 1);
    }
  }

  /** send_play_stream. */
  method SendPlayStream(ws: Socket, streamId: string, mediaFormat: string, audio: seq<Byte>, id: Json, chunkSize: int)
    returns (out: Outcome)
    modifies ws`sent, ws`attempts
    ensures (ws.LogOf(), out) == PlayStreamSpec(old(ws.LogOf()), ws.failing, streamId, mediaFormat, audio, id, chunkSize)
  {
    var start := StartMessage(id, streamId, mediaFormat);
    if start.Failure? {
      return Raised(start.error);
    }
    var cid := start.value.conversationId;
    var ok := ws.Send(SentMessage(start.value));
    if !ok {
      return Raised("send failed");
    }
    ghost var log1 := ws.LogOf();
    var chunked := ChunkAudioData(audio, chunkSize);
    if chunked.Success? {
      // The `try` block: a model that fails to build or a write that raises ends the loop.
      var chunks := chunked.value;
      if chunkSize > 0 {
        ChunksNonEmpty(audio, chunkSize);
      }
      var i := 0;
      var stopped := false;
      while i < |chunks| && !stopped
        invariant 0 <= i <= |chunks|
        invariant forall j :: 0 <= j < |chunks| ==> chunks[j] != []
        invariant stopped ==> SendChunks(log1, ws.failing, cid, streamId, chunks) == ws.LogOf()
        invariant !stopped ==>
          SendChunks(log1, ws.failing, cid, streamId, chunks) == SendChunks(ws.LogOf(), ws.failing, cid, streamId, chunks[i..])
        decreases |chunks| - i, if stopped then 0 else 1
      {
        BuildEncodedChunk(cid, streamId, chunks[i]);
        var m := ChunkMessage(cid, streamId, chunks[i]);
        assert Build(m).Success?;
        assert chunks[i..][1..] == chunks[i + 1..];
        var sentOk := ws.Send(SentMessage(m));
        if sentOk {
          i := i + 1;
        } else {
          stopped := true;
        }
      }
    }
    var stopOk := ws.Send(SentMessage(PlayStreamStop(cid, streamId)));
    out := if stopOk then Returned(NoReply) else Raised("send failed");
  }
}
