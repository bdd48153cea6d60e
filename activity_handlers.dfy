/**
 * Activity handlers (app/handlers/activity_handlers.py): answering a call's
 * "start" event by playing the sample recording, the fallback for messages
 * that do not validate, and sending activities (hangup) to the client.
 */
module ActivityHandlers {
  import opened Wrappers
  import opened Json
  import opened MessageSchemas
  import opened Transport
  import opened Conversation
  import opened StreamHandlers

  /** The media format used when the conversation is not found. */
  const DefaultMediaFormat: string := "raw/lpcm16"

  /**
   * What play_sample_audio reads from outside the socket:
   *  - whether the sample file exists;
   *  - the frames the WAV reader returns (empty when reading fails);
   *  - the registry reachable through the websocket's application, if it has one;
   *  - the stream id uuid4 generates for a playback that begins once `n` writes were attempted
   *    on the socket (a playback that reaches the wire attempts at least one write, so an
   *    injective `streamId` gives every written stream its own id).
   */
  datatype SampleEnv = SampleEnv(fileExists: bool, audio: seq<Byte>, appRegistry: Option<Registry>, streamId: nat -> string)

  /** The media format play_sample_audio plays in, or a failure when the registry lookup raises. */
  function SampleFormat(env: SampleEnv, id: Json): (r: Result<string, string>)
    ensures env.appRegistry.None? ==> r == Success(DefaultMediaFormat)
    ensures r.Failure? <==> env.appRegistry.Some? && HashKey(id).None?
    ensures env.appRegistry.Some? && HashKey(id).Some? && HashKey(id).value in env.appRegistry.value ==>
      r == Success(env.appRegistry.value[HashKey(id).value].mediaFormat)
  {
    match env.appRegistry
    case None => Success(DefaultMediaFormat)
    case Some(reg) =>
      match Lookup(reg, id)
      case Failure(e) => Failure(e)
      case Success(info) => Success(if info.Some? then info.value.mediaFormat else DefaultMediaFormat)
  }

  /** play_sample_audio, as a function of the write log; every exception is caught, so it always returns. */
  function PlaySampleSpec(log: Log, failing: set<nat>, env: SampleEnv, id: Json): (r: Log)
    ensures !env.fileExists || env.audio == [] ==> r == log
    ensures |r.sent| >= |log.sent| && r.sent[..|log.sent|] == log.sent
    // Only one play stream, for this conversation and the generated stream id, is ever written.
    ensures ConversationIdArg(id).Failure? ==> r.sent == log.sent
    ensures ConversationIdArg(id).Success? ==> SameStream(r.sent[|log.sent|..], ConversationIdArg(id).value, env.streamId(log.attempts))
  {
    if !env.fileExists then log
    else
      match SampleFormat(env, id)
      case Failure(_) => log
      case Success(fmt) =>
        if env.audio == [] then log
        else
          PlayStreamOneStream(log, failing, env.streamId(log.attempts), fmt, env.audio, id, DefaultChunkSize);
          PlayStreamStartsAndStops(log, failing, env.streamId(log.attempts), fmt, env.audio, id, DefaultChunkSize);
          PlayStreamSpec(log, failing, env.streamId(log.attempts), fmt, env.audio, id, DefaultChunkSize).0
  }

  /** The `conversation_id` a validated message hands on: None or a string. */
  function IdValue(id: Option<string>): (r: Json)
    ensures ConversationIdArg(r) == Success(id)
  {
    if id.Some? then JStr(id.value) else JNull
  }

  /** The loop over validated activities: each "start" event plays the sample; other events only log. */
  function PlayStarts(log: Log, failing: set<nat>, env: SampleEnv, id: Option<string>, events: seq<ActivityEvent>): (r: Log)
    ensures |r.sent| >= |log.sent| && r.sent[..|log.sent|] == log.sent
    ensures PlaysFor(r.sent[|log.sent|..], id)
    decreases |events|
  {
    if events == [] then
      assert log.sent[|log.sent|..] == [];
      log
    else
      var log' := if events[0].name == "start" then PlaySampleSpec(log, failing, env, IdValue(id)) else log;
      var r := PlayStarts(log', failing, env, id, events[1..]);
      PlaysForAppend(log.sent, log'.sent, r.sent, id);
      r
  }

  /** The loop of the fallback: items that are not dictionaries raise AttributeError; a "start" event plays only for a truthy id. */
  function FallbackPlays(log: Log, failing: set<nat>, env: SampleEnv, id: Json, items: seq<Json>): (r: (Log, Outcome))
    ensures |r.0.sent| >= |log.sent| && r.0.sent[..|log.sent|] == log.sent
    ensures r.1.Returned? ==> r.1.reply == NoReply
    ensures ConversationIdArg(id).Failure? ==> r.0.sent == log.sent
    ensures ConversationIdArg(id).Success? ==> PlaysFor(r.0.sent[|log.sent|..], ConversationIdArg(id).value)
    decreases |items|
  {
    if items == [] then
      assert log.sent[|log.sent|..] == [];
      (log, Returned(NoReply))
    else if !items[0].JObj? then
      assert log.sent[|log.sent|..] == [];
      (log, Raised("AttributeError: object has no attribute 'get'"))
    else
      var play := IsStartEvent(items[0]) && Truthy(id);
      var log' := if play then PlaySampleSpec(log, failing, env, id) else log;
      var r := FallbackPlays(log', failing, env, id, items[1..]);
      FallbackStep(log, log', failing, env, id, items, r);
      r
  }

  /** The fallback loop's guarantees carry over from the rest of the items to all of them. */
  lemma FallbackStep(log: Log, log': Log, failing: set<nat>, env: SampleEnv, id: Json, items: seq<Json>, r: (Log, Outcome))
    requires items != [] && items[0].JObj?
    requires |log'.sent| >= |log.sent| && log'.sent[..|log.sent|] == log.sent
    requires ConversationIdArg(id).Failure? ==> log'.sent == log.sent
    requires ConversationIdArg(id).Success? ==> log' == log || PlaysFor(log'.sent[|log.sent|..], ConversationIdArg(id).value)
    requires |r.0.sent| >= |log'.sent| && r.0.sent[..|log'.sent|] == log'.sent
    requires ConversationIdArg(id).Failure? ==> r.0.sent == log'.sent
    requires ConversationIdArg(id).Success? ==> PlaysFor(r.0.sent[|log'.sent|..], ConversationIdArg(id).value)
    ensures |r.0.sent| >= |log.sent| && r.0.sent[..|log.sent|] == log.sent
    ensures ConversationIdArg(id).Success? ==> PlaysFor(r.0.sent[|log.sent|..], ConversationIdArg(id).value)
  {
    if ConversationIdArg(id).Success? {
      PlaysForAppend(log.sent, log'.sent, r.0.sent, ConversationIdArg(id).value);
    }
  }

  /** The fallback loop raises exactly when some item is not a dictionary. */
  lemma {:induction false} FallbackRaisesOnNonDict(log: Log, failing: set<nat>, env: SampleEnv, id: Json, items: seq<Json>)
    ensures FallbackPlays(log, failing, env, id, items).1.Returned? <==> forall i :: 0 <= i < |items| ==> items[i].JObj?
    decreases |items|
  {
    if items != [] && items[0].JObj? {
      var play := IsStartEvent(items[0]) && Truthy(id);
      var log' := if play then PlaySampleSpec(log, failing, env, id) else log;
      FallbackRaisesOnNonDict(log', failing, env, id, items[1..]);
      FallbackUnfold(log, failing, env, id, items);
      AllObjectsCons(items);
    }
  }

  /** After a dictionary item, which played the sample if it was a "start" event and the id is truthy, the loop goes on with the rest. */
  lemma FallbackUnfold(log: Log, failing: set<nat>, env: SampleEnv, id: Json, items: seq<Json>)
    requires items != [] && items[0].JObj?
    ensures var log' := if IsStartEvent(items[0]) && Truthy(id) then PlaySampleSpec(log, failing, env, id) else log;
      FallbackPlays(log, failing, env, id, items) == FallbackPlays(log', failing, env, id, items[1..])
  {
  }

  /** A raw activity the fallback plays for: a dictionary of type "event" named "start". */
  predicate IsStartEvent(item: Json) {
    item.JObj? && Get(item.fields, "type") == JStr("event") && Get(item.fields, "name") == JStr("start")
  }

  /** The "start" events the fallback meets before the first item that is not a dictionary. */
  function FallbackEvents(items: seq<Json>): seq<ActivityEvent>
    decreases |items|
  {
    if items == [] || !items[0].JObj? then []
    else (if IsStartEvent(items[0]) then [ActivityEvent("start", None)] else []) + FallbackEvents(items[1..])
  }

  /** Without a truthy id, or without a "start" event among the items, the fallback writes nothing at all. */
  lemma {:induction false} FallbackSilent(log: Log, failing: set<nat>, env: SampleEnv, id: Json, items: seq<Json>)
    requires !Truthy(id) || forall i :: 0 <= i < |items| ==> !IsStartEvent(items[i])
    ensures FallbackPlays(log, failing, env, id, items).0 == log
    decreases |items|
  {
    if items != [] && items[0].JObj? {
      assert FallbackPlays(log, failing, env, id, items) == FallbackPlays(log, failing, env, id, items[1..]) by {
        FallbackUnfold(log, failing, env, id, items);
        assert !(IsStartEvent(items[0]) && Truthy(id));
      }
      assert !Truthy(id) || forall i :: 0 <= i < |items[1..]| ==> !IsStartEvent(items[1..][i]) by {
        assert forall i :: 0 <= i < |items[1..]| ==> items[1..][i] == items[i + 1];
      }
      FallbackSilent(log, failing, env, id, items[1..]);
    }
  }

  /**
   * For a non-empty string id the fallback writes, under any failing writes, exactly what the
   * validated loop writes for the "start" events it meets before the first item that is not a
   * dictionary.
   */
  lemma {:induction false} FallbackAsValidated(log: Log, failing: set<nat>, env: SampleEnv, id: string, items: seq<Json>)
    requires id != ""
    ensures FallbackPlays(log, failing, env, JStr(id), items).0 == PlayStarts(log, failing, env, Some(id), FallbackEvents(items))
    decreases |items|
  {
    if items != [] && items[0].JObj? {
      var log' := if IsStartEvent(items[0]) then PlaySampleSpec(log, failing, env, JStr(id)) else log;
      assert FallbackPlays(log, failing, env, JStr(id), items) == FallbackPlays(log', failing, env, JStr(id), items[1..]) by {
        FallbackUnfold(log, failing, env, JStr(id), items);
      }
      assert PlayStarts(log, failing, env, Some(id), FallbackEvents(items))
          == PlayStarts(log', failing, env, Some(id), FallbackEvents(items[1..])) by {
        FallbackEventsStep(log, failing, env, id, items);
      }
      FallbackAsValidated(log', failing, env, id, items[1..]);
    }
  }

  lemma FallbackEventsStep(log: Log, failing: set<nat>, env: SampleEnv, id: string, items: seq<Json>)
    requires items != [] && items[0].JObj?
    ensures var log' := if IsStartEvent(items[0]) then PlaySampleSpec(log, failing, env, JStr(id)) else log;
      PlayStarts(log, failing, env, Some(id), FallbackEvents(items))
      == PlayStarts(log', failing, env, Some(id), FallbackEvents(items[1..]))
  {
    var events := FallbackEvents(items);
    if IsStartEvent(items[0]) {
      assert events == [ActivityEvent("start", None)] + FallbackEvents(items[1..]);
      PlayStartsStep(log, failing, env, Some(id), events);
      assert events[1..] == FallbackEvents(items[1..]);
    } else {
      assert events == FallbackEvents(items[1..]);
    }
  }

  /**
   * With the sample present, no registry reachable, a non-empty string id and no failing write,
   * the fallback plays the whole sample once per "start" event, in order, up to the first item
   * that is not a dictionary.
   */
  lemma FallbackUndisturbed(log: Log, env: SampleEnv, id: string, items: seq<Json>)
    requires env.fileExists && env.audio != [] && env.appRegistry.None? && id != ""
    ensures var e := ExpectedPlays(env, Some(id), FallbackEvents(items), log.attempts);
      && FallbackPlays(log, {}, env, JStr(id), items).0 == Log(log.sent + e, log.attempts + |e|)
      && CarriedAudio(e) == Repeat(env.audio, StartCount(FallbackEvents(items)))
  {
    FallbackAsValidated(log, {}, env, id, items);
    PlayStartsUndisturbed(log, env, Some(id), FallbackEvents(items));
    ExpectedPlaysCarry(env, Some(id), FallbackEvents(items), log.attempts);
  }

  lemma AllObjectsCons(items: seq<Json>)
    requires items != []
    ensures (forall i :: 0 <= i < |items| ==> items[i].JObj?)
        <==> items[0].JObj? && forall i :: 0 <= i < |items[1..]| ==> items[1..][i].JObj?
  {
    if items[0].JObj? && forall i :: 0 <= i < |items[1..]| ==> items[1..][i].JObj? {
      forall i | 0 <= i < |items|
        ensures items[i].JObj?
      {
        if i > 0 { assert items[i] == items[1..][i - 1]; }
      }
    }
  }

  /** Every message is a play stream message for the conversation `id`. */
  predicate PlaysFor(msgs: seq<Sent>, id: Option<string>) {
    forall i :: 0 <= i < |msgs| ==>
      msgs[i].SentMessage? && (msgs[i].msg.PlayStreamStart? || msgs[i].msg.PlayStreamChunk? || msgs[i].msg.PlayStreamStop?)
      && msgs[i].msg.conversationId == id
  }

  lemma PlaysForAppend(a: seq<Sent>, b: seq<Sent>, c: seq<Sent>, id: Option<string>)
    requires |a| <= |b| <= |c| && b[..|a|] == a && c[..|b|] == b
    requires PlaysFor(b[|a|..], id) || b == a
    requires PlaysFor(c[|b|..], id)
    ensures PlaysFor(c[|a|..], id)
  {
    forall i | 0 <= i < |c| - |a|
      ensures c[|a|..][i].SentMessage?
      ensures c[|a|..][i].msg.PlayStreamStart? || c[|a|..][i].msg.PlayStreamChunk? || c[|a|..][i].msg.PlayStreamStop?
      ensures c[|a|..][i].msg.conversationId == id
    {
      if i < |b| - |a| {
        assert c[|a|..][i] == b[|a|..][i];
      } else {
        assert c[|a|..][i] == c[|b|..][i - (|b| - |a|)];
      }
    }
  }

  /** What `for activity in message.get("activities", [])` iterates over, or the error raised on the way. */
  function FallbackItems(container: Json): (r: Result<seq<Json>, string>)
    ensures container.JArr? ==> r == Success(container.items)
    ensures container.JNull? || container.JInt? || container.JBool? ==> r.Failure?
  {
    match container
    case JArr(items) => Success(items)
    // A string iterates over its characters and a dictionary over its keys, all strings, which have no `get`.
    case JStr(s) => if s == [] then Success([]) else Failure("AttributeError: 'str' object has no attribute 'get'")
    case JObj(f) => if f == map[] then Success([]) else Failure("AttributeError: 'str' object has no attribute 'get'")
    case _ => Failure("TypeError: object is not iterable")
  }

  /** handle_activities, as a function of the write log before the call. */
  function ActivitiesSpec(log: Log, failing: set<nat>, env: SampleEnv, message: map<string, Json>): (r: (Log, Outcome))
    ensures |r.0.sent| >= |log.sent| && r.0.sent[..|log.sent|] == log.sent
    ensures r.1.Returned? ==> r.1.reply == NoReply
    // A message that validates never makes the handler raise.
    ensures ParseActivities(message).Success? ==> r.1.Returned?
    // Only play streams for the message's own conversation are written; a non-string id writes nothing.
    ensures ConversationIdArg(Get(message, "conversationId")).Success? ==>
      PlaysFor(r.0.sent[|log.sent|..], ConversationIdArg(Get(message, "conversationId")).value)
    ensures ConversationIdArg(Get(message, "conversationId")).Failure? ==> r.0.sent == log.sent
    // A message that does not validate plays nothing, and writes nothing, without a truthy id.
    ensures ParseActivities(message).Failure? && !Truthy(Get(message, "conversationId")) ==> r.0 == log
  {
    match ParseActivities(message)
    case Success(m) =>
      (PlayStarts(log, failing, env, m.conversationId, m.activities), Returned(NoReply))
    case Failure(_) =>
      var id := Get(message, "conversationId");
      match FallbackItems(GetOr(message, "activities", JArr([])))
      case Failure(e) =>
        assert log.sent[|log.sent|..] == [];
        (log, Raised(e))
      case Success(items) =>
        if !Truthy(id) then
          FallbackSilent(log, failing, env, id, items);
          FallbackPlays(log, failing, env, id, items)
        else FallbackPlays(log, failing, env, id, items)
  }

  /**
   * A message that does not validate, with a list of activities and a non-empty string id, plays
   * as the validated loop would for the "start" events met before the first item that is not a
   * dictionary; so, when nothing fails, the sample once for each of them.
   */
  lemma ActivitiesFallback(log: Log, failing: set<nat>, env: SampleEnv, message: map<string, Json>, id: string, items: seq<Json>)
    requires ParseActivities(message).Failure?
    requires Get(message, "conversationId") == JStr(id) && id != ""
    requires "activities" in message && message["activities"] == JArr(items)
    ensures ActivitiesSpec(log, failing, env, message).0 == PlayStarts(log, failing, env, Some(id), FallbackEvents(items))
    ensures ActivitiesSpec(log, failing, env, message).1.Returned? <==> forall i :: 0 <= i < |items| ==> items[i].JObj?
  {
    FallbackAsValidated(log, failing, env, id, items);
    FallbackRaisesOnNonDict(log, failing, env, JStr(id), items);
  }

  /** How many events of a list are "start" events. */
  function StartCount(events: seq<ActivityEvent>): nat
    decreases |events|
  {
    if events == [] then 0 else (if events[0].name == "start" then 1 else 0) + StartCount(events[1..])
  }

  /** The messages written for the "start" events, when nothing fails and `a` writes were attempted before. */
  function ExpectedPlays(env: SampleEnv, id: Option<string>, events: seq<ActivityEvent>, a: nat): seq<Sent>
    decreases |events|
  {
    if events == [] then []
    else
      ExpectedHere(env, id, events[0], a) + ExpectedPlays(env, id, events[1..], a + PlayLength(env, events[0]))
  }

  /** How many messages one event makes undisturbed handling write. */
  function PlayLength(env: SampleEnv, event: ActivityEvent): nat {
    if event.name == "start" then |Chunks(env.audio, DefaultChunkSize)| + 2 else 0
  }

  /** The messages written for one event when nothing fails: a whole play stream for "start", nothing otherwise. */
  function ExpectedHere(env: SampleEnv, id: Option<string>, event: ActivityEvent, a: nat): (r: seq<Sent>)
    ensures |r| == PlayLength(env, event)
  {
    if event.name == "start" then PlayStreamMessages(id, env.streamId(a), DefaultMediaFormat, env.audio, DefaultChunkSize) else []
  }

  /**
   * In the deployed application (no registry reachable from the websocket), with the sample
   * present and no failing write, every "start" event plays the whole sample once, in order.
   */
  lemma {:induction false} PlayStartsUndisturbed(log: Log, env: SampleEnv, id: Option<string>, events: seq<ActivityEvent>)
    requires env.fileExists && env.audio != [] && env.appRegistry.None?
    ensures var e := ExpectedPlays(env, id, events, log.attempts);
      PlayStarts(log, {}, env, id, events) == Log(log.sent + e, log.attempts + |e|)
    decreases |events|
  {
    if events == [] {
      assert log.sent + [] == log.sent;
    } else {
      var here := ExpectedHere(env, id, events[0], log.attempts);
      var log' := Log(log.sent + here, log.attempts + PlayLength(env, events[0]));
      PlayStartsStep(log, {}, env, id, events);
      if events[0].name == "start" {
        PlaySampleUndisturbed(log, env, id);
      } else {
        assert log.sent + here == log.sent;
      }
      PlayStartsUndisturbed(log', env, id, events[1..]);
      ExpectedPlaysStep(env, id, events, log.attempts);
      SeqAssoc(log.sent, here, ExpectedPlays(env, id, events[1..], log'.attempts));
    }
  }

  lemma ExpectedPlaysStep(env: SampleEnv, id: Option<string>, events: seq<ActivityEvent>, a: nat)
    requires events != []
    ensures ExpectedPlays(env, id, events, a)
         == ExpectedHere(env, id, events[0], a) + ExpectedPlays(env, id, events[1..], a + PlayLength(env, events[0]))
  {
  }

  lemma PlayStartsStep(log: Log, failing: set<nat>, env: SampleEnv, id: Option<string>, events: seq<ActivityEvent>)
    requires events != []
    ensures PlayStarts(log, failing, env, id, events)
         == PlayStarts(if events[0].name == "start" then PlaySampleSpec(log, failing, env, IdValue(id)) else log,
                       failing, env, id, events[1..])
  {
  }

  lemma PlaySampleUndisturbed(log: Log, env: SampleEnv, id: Option<string>)
    requires env.fileExists && env.audio != [] && env.appRegistry.None?
    ensures var msgs := ExpectedHere(env, id, ActivityEvent("start", None), log.attempts);
      PlaySampleSpec(log, {}, env, IdValue(id)) == Log(log.sent + msgs, log.attempts + |msgs|)
  {
    assert DefaultMediaFormat in SupportedMediaFormats;
    PlayStreamUndisturbed(log, {}, env.streamId(log.attempts), DefaultMediaFormat, env.audio, IdValue(id), DefaultChunkSize);
  }

  /** Each played sample carries the whole recording: the audio written is the sample repeated once per "start" event. */
  lemma {:induction false} ExpectedPlaysCarry(env: SampleEnv, id: Option<string>, events: seq<ActivityEvent>, a: nat)
    ensures CarriedAudio(ExpectedPlays(env, id, events, a)) == Repeat(env.audio, StartCount(events))
    decreases |events|
  {
    if events != [] {
      ExpectedPlaysCarry(env, id, events[1..], a + PlayLength(env, events[0]));
      ExpectedPlaysCarryStep(env, id, events, a);
      RepeatStep(env.audio, events);
    }
  }

  /** The first event contributes the whole sample when it is a "start", and nothing otherwise. */
  lemma ExpectedPlaysCarryStep(env: SampleEnv, id: Option<string>, events: seq<ActivityEvent>, a: nat)
    requires events != []
    ensures var rest := ExpectedPlays(env, id, events[1..], a + PlayLength(env, events[0]));
      CarriedAudio(ExpectedPlays(env, id, events, a))
      == (if events[0].name == "start" then env.audio + CarriedAudio(rest) else CarriedAudio(rest))
  {
    var here := ExpectedHere(env, id, events[0], a);
    var rest := ExpectedPlays(env, id, events[1..], a + PlayLength(env, events[0]));
    ExpectedPlaysStep(env, id, events, a);
    CarriedAudioAppend(here, rest);
    if events[0].name == "start" {
      PlayStreamMessagesCarryAudio(id, env.streamId(a), DefaultMediaFormat, env.audio, DefaultChunkSize);
    } else {
      assert here == [];
    }
  }

  /** The sample repeated once per "start": one more copy in front exactly when the first event is a "start". */
  lemma RepeatStep(s: seq<Byte>, events: seq<ActivityEvent>)
    requires events != []
    ensures var k := StartCount(events[1..]);
      Repeat(s, StartCount(events)) == (if events[0].name == "start" then s + Repeat(s, k) else Repeat(s, k))
  {
    var k := StartCount(events[1..]);
    if events[0].name == "start" {
      assert StartCount(events) == k + 1;
    } else {
      assert StartCount(events) == k;
    }
  }

  /** `n` copies of `s`, one after the other. */
  function Repeat(s: seq<Byte>, n: nat): seq<Byte> {
    if n == 0 then [] else s + Repeat(s, n - 1)
  }

  /** A validated activities message without "start" events writes nothing. */
  lemma {:induction false} NoStartNoWrite(log: Log, failing: set<nat>, env: SampleEnv, id: Option<string>, events: seq<ActivityEvent>)
    requires StartCount(events) == 0
    ensures PlayStarts(log, failing, env, id, events) == log
    decreases |events|
  {
    if events != [] {
      NoStartNoWrite(log, failing, env, id, events[1..]);
    }
  }

  /** play_sample_audio. */
  method PlaySampleAudio(ws: Socket, id: Json, env: SampleEnv)
    modifies ws`sent, ws`attempts
    ensures ws.LogOf() == PlaySampleSpec(old(ws.LogOf()), ws.failing, env, id)
  {
    if !env.fileExists {
      return;
    }
    var fmt := SampleFormat(env, id);
    if fmt.Failure? {
      return;
    }
    if env.audio == [] {
      return;
    }
    var _ := SendPlayStream(ws, env.streamId(ws.attempts), fmt.value, env.audio, id, DefaultChunkSize);
  }

  /** The loop of handle_activities over a validated message's events. */
  method PlayValidated(ws: Socket, events: seq<ActivityEvent>, id: Option<string>, env: SampleEnv)
    modifies ws`sent, ws`attempts
    ensures ws.LogOf() == PlayStarts(old(ws.LogOf()), ws.failing, env, id, events)
  {
    ghost var log0 := ws.LogOf();
    var i := 0;
    while i < |events|
      invariant 0 <= i <= |events|
      invariant PlayStarts(log0, ws.failing, env, id, events) == PlayStarts(ws.LogOf(), ws.failing, env, id, events[i..])
    {
      assert events[i..][1..] == events[i + 1..];
      if events[i].name == "start" {
        PlaySampleAudio(ws, IdValue(id), env);
      }
      i := i + 1;
    }
    assert events[i..] == [];
  }

  /** The loop of handle_activities's fallback over the raw items. */
  method PlayFallback(ws: Socket, items: seq<Json>, id: Json, env: SampleEnv) returns (out: Outcome)
    modifies ws`sent, ws`attempts
    ensures (ws.LogOf(), out) == FallbackPlays(old(ws.LogOf()), ws.failing, env, id, items)
  {
    ghost var log0 := ws.LogOf();
    var i := 0;
    while i < |items|
      invariant 0 <= i <= |items|
      invariant FallbackPlays(log0, ws.failing, env, id, items) == FallbackPlays(ws.LogOf(), ws.failing, env, id, items[i..])
    {
      var raised := FallbackNext(ws, items, i, id, env);
      if raised {
        return Raised("AttributeError: object has no attribute 'get'");
      }
      i := i + 1;
    }
    assert items[i..] == [];
    out := Returned(NoReply);
  }

  /** One pass of the fallback loop: `item.get(...)` raises on a non-dictionary; a "start" event plays the sample. */
  method FallbackNext(ws: Socket, items: seq<Json>, i: nat, id: Json, env: SampleEnv) returns (raised: bool)
    requires i < |items|
    modifies ws`sent, ws`attempts
    ensures raised <==> !items[i].JObj?
    ensures raised ==>
      FallbackPlays(old(ws.LogOf()), ws.failing, env, id, items[i..])
      == (ws.LogOf(), Raised("AttributeError: object has no attribute 'get'"))
    ensures !raised ==>
      FallbackPlays(old(ws.LogOf()), ws.failing, env, id, items[i..])
      == FallbackPlays(ws.LogOf(), ws.failing, env, id, items[i + 1..])
  {
    assert items[i..][1..] == items[i + 1..];
    if !items[i].JObj? {
      return true;
    }
    var f := items[i].fields;
    if Get(f, "type") == JStr("event") && Get(f, "name") == JStr("start") && Truthy(id) {
      PlaySampleAudio(ws, id, env);
    }
    return false;
  }

  /** handle_activities: the validated path, or the fallback when the message does not validate. */
  method HandleActivities(message: map<string, Json>, ws: Socket, env: SampleEnv) returns (out: Outcome)
    modifies ws`sent, ws`attempts
    ensures (ws.LogOf(), out) == ActivitiesSpec(old(ws.LogOf()), ws.failing, env, message)
  {
    var parsed := ParseActivities(message);
    if parsed.Success? {
      PlayValidated(ws, parsed.value.activities, parsed.value.conversationId, env);
      return Returned(NoReply);
    }
    var items := FallbackItems(GetOr(message, "activities", JArr([])));
    if items.Failure? {
      return Raised(items.error);
    }
    out := PlayFallback(ws, items.value, Get(message, "conversationId"), env);
  }

  /** send_activities: the model is built first (an empty list or an invalid DTMF value raises), then written once. */
  function SendActivitiesSpec(log: Log, failing: set<nat>, events: seq<ActivityEvent>, id: Option<string>): (r: (Log, Outcome))
    ensures events == [] || !EventsValid(events) ==> r.0 == log && r.1.Raised?
    ensures events != [] && EventsValid(events) ==>
      r.0 == Emit(log, failing, SentMessage(Activities(id, events))).0
      && (r.1 == Returned(NoReply) <==> SendSucceeds(log.attempts, failing))
  {
    BuildActivities(id, events);
    match Build(Activities(id, events))
    case Failure(e) => (log, Raised(e))
    case Success(m) =>
      var (log', ok) := Emit(log, failing, SentMessage(m));
      (log', if ok then Returned(NoReply) else Raised("send failed"))
  }

  method SendActivities(ws: Socket, events: seq<ActivityEvent>, id: Option<string>) returns (out: Outcome)
    modifies ws`sent, ws`attempts
    ensures (ws.LogOf(), out) == SendActivitiesSpec(old(ws.LogOf()), ws.failing, events, id)
  {
    var built := Build(Activities(id, events));
    if built.Failure? {
      return Raised(built.error);
    }
    var ok := ws.Send(SentMessage(built.value));
    out := if ok then Returned(NoReply) else Raised("send failed");
  }

  /** The single hangup event hangup_call sends. */
  const Hangup: seq<ActivityEvent> := [ActivityEvent("hangup", None)]

  /** hangup_call always writes exactly one activities message holding the hangup event. */
  lemma HangupWritesOne(log: Log, failing: set<nat>, id: Option<string>)
    ensures var r := SendActivitiesSpec(log, failing, Hangup, id);
      r.0.attempts == log.attempts + 1
      && r.0.sent == (if SendSucceeds(log.attempts, failing) then log.sent + [SentMessage(Activities(id, Hangup))] else log.sent)
  {
    assert ValidateEventValue(Some(Hangup[0].name), Hangup[0].value).Accept?;
    assert EventsValid(Hangup);
  }

  /** hangup_call. */
  method HangupCall(ws: Socket, id: Option<string>) returns (out: Outcome)
    modifies ws`sent, ws`attempts
    ensures (ws.LogOf(), out) == SendActivitiesSpec(old(ws.LogOf()), ws.failing, Hangup, id)
  {
    out := SendActivities(ws, Hangup, id);
  }
}
