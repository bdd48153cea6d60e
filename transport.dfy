/**
 * Sockets as the handlers see them: a scripted sequence of incoming frames,
 * a log of what was written, and a script of which write attempts raise.
 */
module Transport {
  import opened Wrappers
  import opened Json
  import opened MessageSchemas
  import Base64

  /**
   * An incoming frame: text or binary data, each with the JSON it holds (None when it is not valid
   * JSON). `json.loads` reads bytes as well as text, so a binary frame can carry a message too.
   */
  datatype Frame = Text(json: Option<Json>) | Binary(data: seq<Base64.Byte>, json: Option<Json>)

  /** Something written to a socket: a protocol message, or raw bytes. */
  datatype Sent = SentMessage(msg: Message) | SentBytes(data: seq<Base64.Byte>)

  /** What a message handler hands back: nothing, a plain dictionary, or a Pydantic model. */
  datatype Reply = NoReply | DictReply(msg: Message) | ModelReply(msg: Message)

  /** How a coroutine ended: by returning (with its reply) or by raising. */
  datatype Outcome = Returned(reply: Reply) | Raised(error: string)

  /** Python's truthiness of a handler's return value: None is false, a non-empty dict and a model are true. */
  predicate ReplyTruthy(r: Reply) {
    !r.NoReply?
  }

  /** Whether the send attempt numbered `attempt` succeeds under the script `failing`. */
  predicate SendSucceeds(attempt: nat, failing: set<nat>) {
    attempt !in failing
  }

  /** The part of a socket a handler changes: what was written, and how many writes were attempted. */
  datatype Log = Log(sent: seq<Sent>, attempts: nat)

  /** One write attempt on a log. */
  function Emit(log: Log, failing: set<nat>, s: Sent): (r: (Log, bool))
    ensures r.0.attempts == log.attempts + 1
    ensures r.1 <==> SendSucceeds(log.attempts, failing)
    ensures r.0.sent == if r.1 then log.sent + [s] else log.sent
  {
    if SendSucceeds(log.attempts, failing) then (Log(log.sent + [s], log.attempts + 1), true)
    else (Log(log.sent, log.attempts + 1), false)
  }

  /** A WebSocket connection. Write attempts are numbered from 0; those in `failing` raise. */
  class Socket {
    var sent: seq<Sent>
    var attempts: nat
    const failing: set<nat>
    const inbox: seq<Frame>
    var received: nat
    var closes: nat

    ghost predicate Valid()
      reads this
    {
      received <= |inbox|
    }

    constructor (inbox: seq<Frame>, failing: set<nat>)
      ensures Valid()
      ensures this.inbox == inbox && this.failing == failing
      ensures sent == [] && attempts == 0 && received == 0 && closes == 0
    {
      this.inbox := inbox;
      this.failing := failing;
      sent := [];
      attempts := 0;
      received := 0;
      closes := 0;
    }

    /** The socket's write log. */
    function LogOf(): Log
      reads this
    {
      Log(sent, attempts)
    }

    /** The frames not yet received. */
    function Pending(): (r: seq<Frame>)
      reads this
      requires Valid()
      ensures |r| == |inbox| - received
    {
      inbox[received..]
    }

    /** `send_text` / `send`: the write is logged unless this attempt is scripted to raise. */
    method Send(s: Sent) returns (ok: bool)
      modifies this`sent, this`attempts
      ensures (LogOf(), ok) == Emit(old(LogOf()), failing, s)
    {
      ok := SendSucceeds(attempts, failing);
      if ok {
        sent := sent + [s];
      }
      attempts := attempts + 1;
    }

    /** `receive_text` / `recv`: the next scripted frame, or None once the peer has disconnected. */
    method Receive() returns (f: Option<Frame>)
      requires Valid()
      modifies this`received
      ensures Valid()
      ensures old(received) < |inbox| ==> f == Some(inbox[old(received)]) && received == old(received) + 1
      ensures old(received) == |inbox| ==> f.None? && received == old(received)
    {
      if received < |inbox| {
        f := Some(inbox[received]);
        received := received + 1;
      } else {
        f := None;
      }
    }

    /** `close`. */
    method Close()
      modifies this`closes
      ensures closes == old(closes) + 1
    {
      closes := closes + 1;
    }
  }
}
