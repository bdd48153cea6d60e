/**
 * The registry of active conversations (app/models/conversation.py): a
 * dictionary from conversation id to the conversation's websocket and media
 * format, updated in place.
 */
module Conversation {
  import opened Wrappers
  import opened Json
  import opened Transport

  /** The value stored per conversation: `{"websocket": ..., "media_format": ...}`. */
  datatype Entry = Entry(websocket: Socket, mediaFormat: string)

  type Registry = map<Key, Entry>

  /** A registry update. */
  datatype Op = AddOp(id: Key, websocket: Socket, mediaFormat: string) | RemoveOp(id: Key)

  /** The effect of one update: adding overwrites, removing an absent id changes nothing. */
  function Apply(r: Registry, op: Op): (r': Registry)
    ensures op.AddOp? ==> op.id in r' && r'[op.id] == Entry(op.websocket, op.mediaFormat)
    ensures op.AddOp? ==> r'.Keys == r.Keys + {op.id}
    ensures op.RemoveOp? ==> r'.Keys == r.Keys - {op.id}
    ensures op.RemoveOp? && op.id !in r ==> r' == r
    ensures forall k :: k != op.id && k in r ==> k in r' && r'[k] == r[k]
  {
    match op
    case AddOp(id, ws, fmt) => r[id := Entry(ws, fmt)]
    case RemoveOp(id) => if id in r then r - {id} else r
  }

  /** The registry after a sequence of updates applied to an empty one. */
  function Replay(ops: seq<Op>): Registry
    decreases |ops|
  {
    if ops == [] then map[] else Apply(Replay(ops[..|ops| - 1]), ops[|ops| - 1])
  }

  /** `ops[i]` added `id`, and no later update touched it. */
  ghost predicate AddedAndKept(ops: seq<Op>, id: Key, i: int) {
    0 <= i < |ops| && ops[i].AddOp? && ops[i].id == id && forall j :: i < j < |ops| ==> ops[j].id != id
  }

  /** The registry holds exactly the ids added and not since removed, each with its latest entry. */
  lemma {:induction false} ReplayHoldsLiveIds(ops: seq<Op>, id: Key)
    ensures id in Replay(ops) <==> exists i :: AddedAndKept(ops, id, i)
    ensures forall i :: AddedAndKept(ops, id, i) ==> Replay(ops)[id] == Entry(ops[i].websocket, ops[i].mediaFormat)
    decreases |ops|
  {
    if ops != [] {
      var init := ops[..|ops| - 1];
      var last := ops[|ops| - 1];
      ReplayHoldsLiveIds(init, id);
      forall i | AddedAndKept(ops, id, i) && i < |ops| - 1
        ensures AddedAndKept(init, id, i)
      {
      }
      if last.id != id {
        if exists i :: AddedAndKept(init, id, i) {
          var i :| AddedAndKept(init, id, i);
          assert AddedAndKept(ops, id, i);
        }
      } else if last.AddOp? {
        assert AddedAndKept(ops, id, |ops| - 1);
        forall i | AddedAndKept(ops, id, i)
          ensures i == |ops| - 1
        {
        }
      } else {
        forall i | 0 <= i < |ops|
          ensures !AddedAndKept(ops, id, i)
        {
        }
      }
    }
  }

  /** `get_conversation` on a registry value: the stored entry or None; an unhashable id raises TypeError. */
  function Lookup(r: Registry, id: Json): (res: Result<Option<Entry>, string>)
    ensures res.Failure? <==> HashKey(id).None?
    ensures res.Success? ==> (res.value.Some? <==> HashKey(id).value in r)
    ensures res.Success? && res.value.Some? ==> res.value.value == r[HashKey(id).value]
  {
    match HashKey(id)
    case None => Failure("TypeError: unhashable type")
    case Some(k) => Success(if k in r then Some(r[k]) else None)
  }

  /** What a message handler may change: the registry and the write log of the connection's socket. */
  datatype World = World(active: Registry, log: Log)

  /** ConversationManager: `active_conversations` mutated in place. */
  class ConversationManager {
    var active: Registry

    constructor ()
      ensures active == map[]
    {
      active := map[];
    }

    /** `add_conversation`: stores the entry, overwriting any previous one; an unhashable id raises TypeError. */
    method Add(id: Json, ws: Socket, mediaFormat: string) returns (ok: bool)
      modifies this
      ensures ok <==> HashKey(id).Some?
      ensures active == if ok then Apply(old(active), AddOp(HashKey(id).value, ws, mediaFormat)) else old(active)
    {
      var key := HashKey(id);
      ok := key.Some?;
      if ok {
        active := active[key.value := Entry(ws, mediaFormat)];
      }
    }

    /** `get_conversation`: the stored entry or None; an unhashable id raises TypeError. */
    function Get(id: Json): (r: Result<Option<Entry>, string>)
      reads this
      ensures r.Failure? <==> HashKey(id).None?
      ensures r.Success? ==> (r.value.Some? <==> HashKey(id).value in active)
      ensures r.Success? && r.value.Some? ==> r.value.value == active[HashKey(id).value]
    {
      Lookup(active, id)
    }

    /** `remove_conversation`: deletes the entry if present; an unhashable id raises TypeError. */
    method Remove(id: Json) returns (ok: bool)
      modifies this
      ensures ok <==> HashKey(id).Some?
      ensures active == if ok then Apply(old(active), RemoveOp(HashKey(id).value)) else old(active)
    {
      var key := HashKey(id);
      ok := key.Some?;
      if ok && key.value in active {
        active := active - {key.value};
      }
    }

    /** `get_all_conversations`: the registry itself. */
    function GetAll(): (r: Registry)
      reads this
      ensures forall k :: k in r <==> k in active
      ensures forall k :: k in r ==> r[k] == active[k]
    {
      active
    }
  }
}
