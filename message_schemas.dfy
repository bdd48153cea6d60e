/**
 * The AudioCodes Bot API message kinds and the field validators of their
 * Pydantic models. A validator either keeps its value (possibly logging a
 * warning) or raises ValueError, which makes constructing the model fail.
 */
module MessageSchemas {
  import opened Wrappers
  import opened Json
  import Base64

  const SupportedMediaFormats: seq<string> := ["raw/lpcm16", "audio/wav", "audio/mp3", "audio/alaw"]
  const DtmfSymbols: string := "0123456789*#ABCD"
  const KnownEventNames: seq<string> := ["start", "dtmf", "hangup"]

  /** What a field validator does with its value: keep it (with or without a logged warning) or raise ValueError. */
  datatype Check<+T> = Accept(value: T, warned: bool) | Reject(reason: string)

  // ---------------------------------------------------------------------------
  // Character classes and the two regular expressions.

  predicate IsAsciiDigit(c: char) { '0' <= c <= '9' }

  predicate IsLowerHex(c: char) { IsAsciiDigit(c) || 'a' <= c <= 'f' }

  /** `[0-9a-f]{8}-[0-9a-f]{4}-[0-9a-f]{4}-[0-9a-f]{4}-[0-9a-f]{12}` over the whole string. */
  predicate IsUuid(s: string) {
    |s| == 36 &&
    forall i :: 0 <= i < 36 ==> if i == 8 || i == 13 || i == 18 || i == 23 then s[i] == '-' else IsLowerHex(s[i])
  }

  /** `re.match` of a pattern ending in `$`, which also matches just before a final newline. */
  predicate MatchesWithDollar(s: string, body: string -> bool) {
    body(s) || (|s| > 0 && s[|s| - 1] == '\n' && body(s[..|s| - 1]))
  }

  /** UUID_PATTERN.match(s). */
  predicate MatchesUuidPattern(s: string) {
    MatchesWithDollar(s, IsUuid)
  }

  predicate IsPhoneBody(t: string) {
    6 <= |t| <= 15 && forall i :: 0 <= i < |t| ==> IsAsciiDigit(t[i]) || t[i] == '-' || t[i] == ' '
  }

  /** PHONE_PATTERN.match(s) for `^\+?[0-9\- ]{6,15}$`. */
  predicate MatchesPhonePattern(s: string) {
    var t := if |s| > 0 && s[0] == '+' then s[1..] else s;
    MatchesWithDollar(t, IsPhoneBody)
  }

  /** `str.isspace` for one character: the characters Python's `str.strip()` removes. */
  predicate IsSpace(c: char) {
    c == ' ' || '\t' <= c <= '\r' || '\U{1c}' <= c <= '\U{1f}' || c == '\U{85}' || c == '\U{a0}'
    || c == '\U{1680}' || '\U{2000}' <= c <= '\U{200a}' || c == '\U{2028}' || c == '\U{2029}'
    || c == '\U{202f}' || c == '\U{205f}' || c == '\U{3000}'
  }

  predicate AllSpace(s: string) {
    forall i :: 0 <= i < |s| ==> IsSpace(s[i])
  }

  function TrimStart(s: string): string
    decreases |s|
  {
    if s != [] && IsSpace(s[0]) then TrimStart(s[1..]) else s
  }

  function TrimEnd(s: string): string
    decreases |s|
  {
    if s != [] && IsSpace(s[|s| - 1]) then TrimEnd(s[..|s| - 1]) else s
  }

  /** `str.strip()`. */
  function Strip(s: string): string {
    TrimEnd(TrimStart(s))
  }

  lemma {:induction false} TrimStartEmpty(s: string)
    ensures TrimStart(s) == [] <==> AllSpace(s)
    ensures TrimStart(s) != [] ==> !IsSpace(TrimStart(s)[0])
    decreases |s|
  {
    if s != [] && IsSpace(s[0]) {
      TrimStartEmpty(s[1..]);
      assert AllSpace(s) <==> AllSpace(s[1..]) by {
        if AllSpace(s[1..]) {
          forall i | 0 <= i < |s| ensures IsSpace(s[i]) {
            if i > 0 { assert s[i] == s[1..][i - 1]; }
          }
        }
      }
    }
  }

  lemma {:induction false} TrimEndKeepsHead(s: string)
    requires s != [] && !IsSpace(s[0])
    ensures TrimEnd(s) != [] && TrimEnd(s)[0] == s[0]
    decreases |s|
  {
    if IsSpace(s[|s| - 1]) {
      assert |s| > 1;
      TrimEndKeepsHead(s[..|s| - 1]);
    }
  }

  /** A string strips to nothing exactly when every character in it is whitespace. */
  lemma StripEmptyIffAllSpace(s: string)
    ensures Strip(s) == [] <==> AllSpace(s)
  {
    TrimStartEmpty(s);
    if TrimStart(s) != [] {
      TrimEndKeepsHead(TrimStart(s));
    }
  }

  /** `s` with every character of `drop` removed (three chained `str.replace` calls). */
  function RemoveChars(s: string, drop: set<char>): (r: string)
    ensures forall i :: 0 <= i < |r| ==> r[i] !in drop
    decreases |s|
  {
    if s == [] then [] else (if s[0] in drop then [] else [s[0]]) + RemoveChars(s[1..], drop)
  }

  /** `str.isdigit` (ASCII digits only in this model). */
  predicate IsDigitString(s: string) {
    s != [] && forall i :: 0 <= i < |s| ==> IsAsciiDigit(s[i])
  }

  // ---------------------------------------------------------------------------
  // Substring test: Python's `v in "0123456789*#ABCD"`.

  predicate IsPrefix(p: string, s: string) {
    |p| <= |s| && s[..|p|] == p
  }

  /** The scan Python performs for `needle in hay`. */
  predicate Contains(hay: string, needle: string)
    decreases |hay|
  {
    IsPrefix(needle, hay) || (hay != [] && Contains(hay[1..], needle))
  }

  /** `needle` occurs as a contiguous block of `hay`. */
  ghost predicate IsSubstring(needle: string, hay: string) {
    exists i, j :: 0 <= i <= j <= |hay| && hay[i..j] == needle
  }

  /** The scan finds `needle` exactly when it occurs as a contiguous block. */
  lemma {:induction false} ContainsIsSubstring(hay: string, needle: string)
    ensures Contains(hay, needle) <==> IsSubstring(needle, hay)
    decreases |hay|
  {
    if IsPrefix(needle, hay) {
      assert hay[0..|needle|] == needle;
    } else if hay == [] {
    } else {
      ContainsIsSubstring(hay[1..], needle);
      if IsSubstring(needle, hay[1..]) {
        var i, j :| 0 <= i <= j <= |hay[1..]| && hay[1..][i..j] == needle;
        assert hay[i + 1..j + 1] == needle;
      }
      if IsSubstring(needle, hay) {
        var i, j :| 0 <= i <= j <= |hay| && hay[i..j] == needle;
        if i > 0 {
          assert hay[1..][i - 1..j - 1] == needle;
        }
      }
    }
  }

  // ---------------------------------------------------------------------------
  // Field validators (app/models/message_schemas.py).

  /** BaseMessage.conversationId: a value not shaped like a UUID is only logged. */
  function ValidateConversationId(v: Option<string>): (r: Check<Option<string>>)
    ensures r.Accept? && r.value == v
    ensures r.warned <==> v.Some? && !MatchesUuidPattern(v.value)
  {
    Accept(v, v.Some? && !MatchesUuidPattern(v.value))
  }

  /** SessionInitiateMessage.botName: blank names are refused. */
  function ValidateBotName(v: string): (r: Check<string>)
    ensures r.Reject? <==> AllSpace(v)
    ensures r.Accept? ==> r.value == v && !r.warned
  {
    StripEmptyIffAllSpace(v);
    if Strip(v) == [] then Reject("Bot name cannot be empty") else Accept(v, false)
  }

  /** SessionInitiateMessage.caller: a number-like caller off the phone pattern is only logged. */
  function ValidateCaller(v: string): (r: Check<string>)
    ensures r.Accept? && r.value == v
    ensures r.warned <==> IsDigitString(RemoveChars(v, {'+', '-', ' '})) && !MatchesPhonePattern(v)
  {
    Accept(v, IsDigitString(RemoveChars(v, {'+', '-', ' '})) && !MatchesPhonePattern(v))
  }

  /** `any(fmt in SUPPORTED_MEDIA_FORMATS for fmt in v)`. */
  predicate AnySupported(v: seq<string>)
    decreases |v|
  {
    v != [] && (v[0] in SupportedMediaFormats || AnySupported(v[1..]))
  }

  lemma {:induction false} AnySupportedIff(v: seq<string>)
    ensures AnySupported(v) <==> exists i :: 0 <= i < |v| && v[i] in SupportedMediaFormats
    decreases |v|
  {
    if v != [] {
      AnySupportedIff(v[1..]);
      if exists i :: 0 <= i < |v| && v[i] in SupportedMediaFormats {
        var i :| 0 <= i < |v| && v[i] in SupportedMediaFormats;
        if i > 0 { assert v[1..][i - 1] == v[i]; }
      }
      if exists i :: 0 <= i < |v[1..]| && v[1..][i] in SupportedMediaFormats {
        var i :| 0 <= i < |v[1..]| && v[1..][i] in SupportedMediaFormats;
        assert v[i + 1] == v[1..][i];
      }
    }
  }

  /** SessionInitiateMessage.supportedMediaFormats: refused when empty or when no entry is a supported format. */
  function ValidateMediaFormats(v: seq<string>): (r: Check<seq<string>>)
    ensures r.Reject? <==> v == [] || forall i :: 0 <= i < |v| ==> v[i] !in SupportedMediaFormats
    ensures r.Accept? ==> r.value == v && !r.warned
  {
    AnySupportedIff(v);
    if v == [] || !AnySupported(v) then
      Reject("At least one supported media format required")
    else
      Accept(v, false)
  }

  /** SessionAcceptedResponse.mediaFormat and PlayStreamStartMessage.mediaFormat. */
  function ValidateMediaFormat(v: string): (r: Check<string>)
    ensures r.Accept? <==> v in SupportedMediaFormats
    ensures r.Accept? ==> r.value == v && !r.warned
  {
    if v !in SupportedMediaFormats then Reject("Unsupported media format") else Accept(v, false)
  }

  /**
   * UserStreamChunkMessage.audioChunk and PlayStreamChunkMessage.audioChunk:
   * the empty-chunk ValueError is caught and re-raised, so every refusal
   * carries the same reason.
   */
  function ValidateAudioChunk(v: string): (r: Check<string>)
    ensures r.Accept? <==> v != [] && Base64.Decode(v).Success?
    ensures r.Accept? ==> r.value == v && !r.warned
    ensures r.Reject? ==> r.reason == "Invalid base64 encoded audio data"
  {
    if v != [] && Base64.Decode(v).Success? then Accept(v, false)
    else Reject("Invalid base64 encoded audio data")
  }

  /** UserStreamHypothesisResponse.alternatives. */
  function ValidateAlternatives(v: seq<map<string, string>>): (r: Check<seq<map<string, string>>>)
    ensures r.Reject? <==> v == [] || exists i :: 0 <= i < |v| && "text" !in v[i]
    ensures r.Accept? ==> r.value == v && !r.warned
  {
    if v == [] then Reject("At least one hypothesis required")
    else if exists i :: 0 <= i < |v| && "text" !in v[i] then Reject("Each hypothesis must contain 'text' field")
    else Accept(v, false)
  }

  /** ActivityEvent.name: an unknown name is only logged. */
  function ValidateEventName(v: string): (r: Check<string>)
    ensures r.Accept? && r.value == v
    ensures r.warned <==> v != "start" && v != "dtmf" && v != "hangup"
  {
    Accept(v, v !in KnownEventNames)
  }

  /** ActivityEvent.value: for a DTMF event a given value must occur in "0123456789*#ABCD". */
  function ValidateEventValue(name: Option<string>, v: Option<string>): (r: Check<Option<string>>)
    ensures r.Reject? <==> name == Some("dtmf") && v.Some? && !IsSubstring(v.value, DtmfSymbols)
    ensures r.Accept? ==> r.value == v && !r.warned
  {
    if name == Some("dtmf") && v.Some? && !Contains(DtmfSymbols, v.value) then
      ContainsIsSubstring(DtmfSymbols, v.value);
      Reject("Invalid DTMF value")
    else
      (if v.Some? then ContainsIsSubstring(DtmfSymbols, v.value); Accept(v, false) else Accept(v, false))
  }

  /** ActivitiesMessage.activities. */
  function ValidateActivities<T>(v: seq<T>): (r: Check<seq<T>>)
    ensures r.Reject? <==> v == []
    ensures r.Accept? ==> r.value == v && !r.warned
  {
    if v == [] then Reject("At least one activity required") else Accept(v, false)
  }

  // ---------------------------------------------------------------------------
  // Message kinds.

  /** An activity event; its `type` is always the literal "event". */
  datatype ActivityEvent = ActivityEvent(name: string, value: Option<string>)

  /** Every message kind of the protocol, incoming and outgoing. */
  datatype Message =
    | SessionInitiate(conversationId: Option<string>, expectAudioMessages: bool, botName: string, caller: string,
                      supportedMediaFormats: seq<string>)
    | SessionResume(conversationId: Option<string>)
    | SessionEnd(conversationId: Option<string>, reasonCode: string, reason: string)
    | SessionAccepted(conversationId: Option<string>, mediaFormat: string)
    | SessionError(conversationId: Option<string>, reason: string)
    | UserStreamStart(conversationId: Option<string>)
    | UserStreamChunk(conversationId: Option<string>, audioChunk: string)
    | UserStreamStop(conversationId: Option<string>)
    | UserStreamStarted(conversationId: Option<string>)
    | UserStreamStopped(conversationId: Option<string>)
    | UserStreamHypothesis(conversationId: Option<string>, alternatives: seq<map<string, string>>)
    | PlayStreamStart(conversationId: Option<string>, streamId: string, mediaFormat: string)
    | PlayStreamChunk(conversationId: Option<string>, streamId: string, audioChunk: string)
    | PlayStreamStop(conversationId: Option<string>, streamId: string)
    | Activities(conversationId: Option<string>, activities: seq<ActivityEvent>)
    | ConnectionValidate(conversationId: Option<string>)
    | ConnectionValidated(conversationId: Option<string>, success: bool)

  /** The `type` literal of each kind. */
  function TypeName(m: Message): string {
    match m
    case SessionInitiate(_, _, _, _, _) => "session.initiate"
    case SessionResume(_) => "session.resume"
    case SessionEnd(_, _, _) => "session.end"
    case SessionAccepted(_, _) => "session.accepted"
    case SessionError(_, _) => "session.error"
    case UserStreamStart(_) => "userStream.start"
    case UserStreamChunk(_, _) => "userStream.chunk"
    case UserStreamStop(_) => "userStream.stop"
    case UserStreamStarted(_) => "userStream.started"
    case UserStreamStopped(_) => "userStream.stopped"
    case UserStreamHypothesis(_, _) => "userStream.speech.hypothesis"
    case PlayStreamStart(_, _, _) => "playStream.start"
    case PlayStreamChunk(_, _, _) => "playStream.chunk"
    case PlayStreamStop(_, _) => "playStream.stop"
    case Activities(_, _) => "activities"
    case ConnectionValidate(_) => "connection.validate"
    case ConnectionValidated(_, _) => "connection.validated"
  }

  /** The IncomingMessage union. */
  predicate IsIncoming(m: Message) {
    m.SessionInitiate? || m.SessionResume? || m.SessionEnd? || m.UserStreamStart? || m.UserStreamChunk?
    || m.UserStreamStop? || m.Activities? || m.ConnectionValidate?
  }

  /** The OutgoingMessage union. */
  predicate IsOutgoing(m: Message) {
    m.SessionAccepted? || m.SessionError? || m.UserStreamStarted? || m.UserStreamStopped?
    || m.UserStreamHypothesis? || m.PlayStreamStart? || m.PlayStreamChunk? || m.PlayStreamStop?
    || m.Activities? || m.ConnectionValidated?
  }

  /** Every DTMF value of the event list passes its validator. */
  predicate EventsValid(events: seq<ActivityEvent>) {
    forall i :: 0 <= i < |events| ==> ValidateEventValue(Some(events[i].name), events[i].value).Accept?
  }

  /** Constructing the Pydantic model of `m`: it succeeds exactly when every field validator accepts. */
  function Build(m: Message): (r: Result<Message, string>)
    ensures r.Success? ==> r.value == m
  {
    var failed := FirstReject(FieldChecks(m));
    if failed.Some? then Failure(failed.value) else Success(m)
  }

  /** The field validators of `m`'s model, in declaration order. */
  function FieldChecks(m: Message): seq<Check<()>> {
    match m
    case SessionInitiate(_, _, botName, caller, formats) =>
      [Erase(ValidateBotName(botName)), Erase(ValidateCaller(caller)), Erase(ValidateMediaFormats(formats))]
    case SessionAccepted(_, fmt) => [Erase(ValidateMediaFormat(fmt))]
    case UserStreamChunk(_, chunk) => [Erase(ValidateAudioChunk(chunk))]
    case UserStreamHypothesis(_, alternatives) => [Erase(ValidateAlternatives(alternatives))]
    case PlayStreamStart(_, _, fmt) => [Erase(ValidateMediaFormat(fmt))]
    case PlayStreamChunk(_, _, chunk) => [Erase(ValidateAudioChunk(chunk))]
    case Activities(_, events) =>
      [Erase(ValidateActivities(events)), DtmfCheck(events)]
    case _ => []
  }

  /** The model validator of Activities that checks every DTMF value. */
  function DtmfCheck(events: seq<ActivityEvent>): (r: Check<()>)
    // Accepts exactly when every dtmf event that carries a value carries a substring of "0123456789*#ABCD".
    ensures r.Accept? <==> forall i :: 0 <= i < |events| ==>
      events[i].name == "dtmf" && events[i].value.Some? ==> IsSubstring(events[i].value.value, DtmfSymbols)
    ensures r.Accept? ==> !r.warned
    ensures r.Reject? ==> r.reason == "Invalid DTMF value"
  {
    if EventsValid(events) then Accept((), false) else Reject("Invalid DTMF value")
  }

  function Erase<T>(c: Check<T>): Check<()> {
    match c
    case Accept(_, w) => Accept((), w)
    case Reject(reason) => Reject(reason)
  }

  function FirstReject(checks: seq<Check<()>>): (r: Option<string>)
    ensures r.None? <==> forall i :: 0 <= i < |checks| ==> checks[i].Accept?
    decreases |checks|
  {
    if checks == [] then None
    else if checks[0].Reject? then Some(checks[0].reason)
    else FirstReject(checks[1..])
  }

  /** A playStream.start model can be built exactly when its media format is supported. */
  lemma BuildPlayStreamStart(id: Option<string>, streamId: string, fmt: string)
    ensures Build(PlayStreamStart(id, streamId, fmt)).Success? <==> fmt in SupportedMediaFormats
  {
    var checks := [Erase(ValidateMediaFormat(fmt))];
    assert FirstReject(checks).None? <==> checks[0].Accept?;
  }

  /** A playStream.chunk model built from the encoding of non-empty audio always validates. */
  lemma BuildEncodedChunk(id: Option<string>, streamId: string, data: seq<Base64.Byte>)
    requires data != []
    ensures Build(PlayStreamChunk(id, streamId, Base64.Encode(data))) == Success(PlayStreamChunk(id, streamId, Base64.Encode(data)))
  {
    Base64.RoundTrip(data);
    var checks := [Erase(ValidateAudioChunk(Base64.Encode(data)))];
    assert checks[0].Accept?;
    assert FirstReject(checks).None?;
  }

  /** An activities model can be built exactly when its list is non-empty and every DTMF value is valid. */
  lemma BuildActivities(id: Option<string>, events: seq<ActivityEvent>)
    ensures Build(Activities(id, events)).Success? <==> events != [] && EventsValid(events)
  {
    var first := Erase(ValidateActivities(events));
    ActivitiesChecks(id, events);
    FirstRejectPair(first, DtmfCheck(events));
  }

  lemma ActivitiesChecks(id: Option<string>, events: seq<ActivityEvent>)
    ensures Build(Activities(id, events)).Success?
        <==> FirstReject([Erase(ValidateActivities(events)), DtmfCheck(events)]).None?
  {
    assert FieldChecks(Activities(id, events)) == [Erase(ValidateActivities(events)), DtmfCheck(events)];
  }

  lemma FirstRejectPair(a: Check<()>, b: Check<()>)
    ensures FirstReject([a, b]).None? <==> a.Accept? && b.Accept?
  {
    assert [a, b][1..] == [b];
  }

  // ---------------------------------------------------------------------------
  // Validation of raw JSON dictionaries into models.

  /** The `type: Literal[...]` field. */
  predicate HasType(fields: map<string, Json>, literal: string) {
    Get(fields, "type") == JStr(literal)
  }

  /** `ActivityEvent(**item)`. */
  function ParseActivityEvent(j: Json): (r: Result<ActivityEvent, string>)
    ensures r.Success? ==> j.JObj? && HasType(j.fields, "event") && Get(j.fields, "name") == JStr(r.value.name)
    ensures r.Success? ==> ValidateEventValue(Some(r.value.name), r.value.value).Accept?
    // Every well-formed event is accepted, and it keeps the value it was given.
    ensures r.Success? <==>
      j.JObj? && HasType(j.fields, "event") && Get(j.fields, "name").JStr? && OptionalStr(j.fields, "value").Success?
      && ValidateEventValue(Some(Get(j.fields, "name").s), OptionalStr(j.fields, "value").value).Accept?
    ensures r.Success? ==> r.value.value == OptionalStr(j.fields, "value").value
  {
    match j
    case JObj(f) =>
      var name := Get(f, "name");
      var value := OptionalStr(f, "value");
      var nameSeen := if name.JStr? then Some(name.s) else None;
      if !HasType(f, "event") then Failure("type: Input should be 'event'")
      else if !name.JStr? then Failure("name: Input should be a valid string")
      else if value.Failure? then Failure("value: " + value.error)
      else if ValidateEventValue(nameSeen, value.value).Reject? then Failure("value: Invalid DTMF value")
      else Success(ActivityEvent(name.s, value.value))
    case _ => Failure("Input should be a valid dictionary or instance of ActivityEvent")
  }

  function ParseActivityEvents(items: seq<Json>): (r: Result<seq<ActivityEvent>, string>)
    ensures r.Success? ==> |r.value| == |items|
    ensures r.Success? ==> forall i :: 0 <= i < |items| ==> ParseActivityEvent(items[i]) == Success(r.value[i])
    ensures r.Failure? ==> exists i :: 0 <= i < |items| && ParseActivityEvent(items[i]).Failure?
    decreases |items|
  {
    if items == [] then Success([])
    else
      match ParseActivityEvent(items[0])
      case Failure(e) => Failure(e)
      case Success(ev) =>
        match ParseActivityEvents(items[1..])
        case Failure(e) => Failure(e)
        case Success(rest) => Success([ev] + rest)
  }

  /** `ActivitiesMessage(**message)`. */
  function ParseActivities(fields: map<string, Json>): (r: Result<Message, string>)
    ensures r.Success? ==> r.value.Activities? && r.value.activities != []
    ensures r.Success? ==> HasType(fields, "activities") && Get(fields, "activities").JArr?
    ensures r.Success? ==> OptionalStr(fields, "conversationId") == Success(r.value.conversationId)
    ensures r.Success? ==> ParseActivityEvents(Get(fields, "activities").items) == Success(r.value.activities)
    ensures Get(fields, "activities") == JArr([]) ==> r.Failure?
    // Every well-formed message with at least one activity is accepted.
    ensures r.Success? <==>
      HasType(fields, "activities") && OptionalStr(fields, "conversationId").Success? && Get(fields, "activities").JArr?
      && ParseActivityEvents(Get(fields, "activities").items).Success? && ParseActivityEvents(Get(fields, "activities").items).value != []
  {
    var id := OptionalStr(fields, "conversationId");
    var list := Get(fields, "activities");
    if !HasType(fields, "activities") then Failure("type: Input should be 'activities'")
    else if id.Failure? then Failure("conversationId: " + id.error)
    else if !list.JArr? then Failure("activities: Input should be a valid list")
    else
      match ParseActivityEvents(list.items)
      case Failure(e) => Failure("activities: " + e)
      case Success(events) =>
        if ValidateActivities(events).Reject? then Failure("activities: At least one activity required")
        else Success(Activities(id.value, events))
  }

  /** `UserStreamStartMessage(**message)` and `UserStreamStopMessage(**message)`: only `type` and `conversationId` are checked. */
  function ParseIdOnly(fields: map<string, Json>, literal: string): (r: Result<Option<string>, string>)
    ensures r.Success? <==> HasType(fields, literal) && OptionalStr(fields, "conversationId").Success?
    ensures r.Success? ==> r == OptionalStr(fields, "conversationId")
  {
    if !HasType(fields, literal) then Failure("type: Input should be '" + literal + "'")
    else OptionalStr(fields, "conversationId")
  }

  /** `UserStreamChunkMessage(**message)`. */
  function ParseUserStreamChunk(fields: map<string, Json>): (r: Result<Message, string>)
    ensures r.Success? <==>
      HasType(fields, "userStream.chunk") && OptionalStr(fields, "conversationId").Success?
      && Get(fields, "audioChunk").JStr? && ValidateAudioChunk(Get(fields, "audioChunk").s).Accept?
    ensures r.Success? ==> r.value == UserStreamChunk(OptionalStr(fields, "conversationId").value, Get(fields, "audioChunk").s)
  {
    var id := OptionalStr(fields, "conversationId");
    var chunk := Get(fields, "audioChunk");
    if !HasType(fields, "userStream.chunk") then Failure("type: Input should be 'userStream.chunk'")
    else if id.Failure? then Failure("conversationId: " + id.error)
    else if !chunk.JStr? then Failure("audioChunk: Input should be a valid string")
    else if ValidateAudioChunk(chunk.s).Reject? then Failure("audioChunk: Invalid base64 encoded audio data")
    else Success(UserStreamChunk(id.value, chunk.s))
  }

  // ---------------------------------------------------------------------------
  // Examples the validators are documented with.

  /** Each listed media format is accepted on its own; "invalid/format" is not, and neither is an empty list. */
  lemma MediaFormatExamples()
    ensures ValidateMediaFormats(["raw/lpcm16", "audio/wav"]).Accept?
    ensures ValidateMediaFormats([]).Reject?
    ensures ValidateMediaFormats(["invalid/format"]).Reject?
    ensures ValidateMediaFormat("invalid/format").Reject?
    ensures forall f :: f in SupportedMediaFormats ==> ValidateMediaFormat(f).Accept?
  {
    assert ["raw/lpcm16", "audio/wav"][0] in SupportedMediaFormats;
  }

  /** "5", "123", "*#" and the empty string are DTMF values (substrings); "Z" and "15" are not. */
  lemma DtmfExamples()
    ensures ValidateEventValue(Some("dtmf"), Some("5")).Accept?
    ensures ValidateEventValue(Some("dtmf"), Some("123")).Accept?
    ensures ValidateEventValue(Some("dtmf"), Some("*#")).Accept?
    ensures ValidateEventValue(Some("dtmf"), Some("")).Accept?
    ensures ValidateEventValue(Some("dtmf"), Some("Z")).Reject?
    ensures ValidateEventValue(Some("dtmf"), Some("15")).Reject?
    ensures ValidateEventValue(Some("dtmf"), None).Accept?
    ensures forall v :: ValidateEventValue(Some("hangup"), Some(v)).Accept?
  {
    assert DtmfSymbols[5..6] == "5";
    assert DtmfSymbols[1..4] == "123";
    assert DtmfSymbols[10..12] == "*#";
    assert DtmfSymbols[0..0] == "";
    NotSubstring("Z");
    NotSubstring("15");
  }

  lemma NotSubstring(v: string)
    requires v == "Z" || v == "15"
    ensures !IsSubstring(v, DtmfSymbols)
  {
    forall i, j | 0 <= i <= j <= |DtmfSymbols|
      ensures DtmfSymbols[i..j] != v
    {
      if j - i == |v| {
        assert DtmfSymbols[i..j][0] == DtmfSymbols[i];
        if v == "15" && i == 1 {
          assert DtmfSymbols[i..j][1] == '2';
        }
      }
    }
  }

  /** The encoding of non-empty audio is a valid audio chunk. */
  lemma EncodedChunkAccepted(data: seq<Base64.Byte>)
    requires data != []
    ensures ValidateAudioChunk(Base64.Encode(data)) == Accept(Base64.Encode(data), false)
  {
    Base64.RoundTrip(data);
  }

  /** An audio chunk is refused when empty or not base64 ("not base64!"); the encoding of any non-empty audio is accepted. */
  lemma AudioChunkExamples(data: seq<Base64.Byte>)
    requires data != []
    ensures ValidateAudioChunk("").Reject?
    ensures ValidateAudioChunk("not base64!").Reject?
    ensures ValidateAudioChunk(Base64.Encode(data)).Accept?
  {
    Base64.NotBase64Rejected();
    EncodedChunkAccepted(data);
  }

  /** An empty bot name or one made of whitespace only is refused; "TestBot" is kept. */
  lemma BotNameExamples()
    ensures ValidateBotName("").Reject?
    ensures ValidateBotName("  \t").Reject?
    ensures ValidateBotName("TestBot") == Accept("TestBot", false)
  {
    assert !IsSpace("TestBot"[0]);
  }
}
