/** The channels of one Rust conversation over queue objects (crates/ssh3-core/src/conversation.rs). A
    channel is represented by the reference to its queue, which `add_channel` replaces by the queue
    that dangled for the channel. Each method is proved against the slots of `Routing`, in which the
    references have become roles: the channel's own queue, the one about to replace it, the one
    that dangles. */
module CoreConversation {
  import opened Wire
  import opened Queues
  import opened Routing

  datatype Outcome = Malformed(error: Error) | ChannelNotFound(id: nat) | Delivered | Blocked

  datatype Role = Current(id: nat) | Next(id: nat) | Dangles(id: nat)

  /** A queue by channel id. */
  type QueueMap = map<nat, DatagramsQueue<Bytes>>

  type Roles = map<DatagramsQueue<Bytes>, Role>

  /** Every queue object has one role: changing one queue changes one channel. */
  ghost predicate Wired(channels: QueueMap, dangling: QueueMap, opening: QueueMap, roles: Roles) {
    && channels.Keys !! dangling.Keys && opening.Keys <= channels.Keys
    && (forall a :: a in channels ==> channels[a] in roles && roles[channels[a]] == Current(a))
    && (forall a :: a in opening ==> opening[a] in roles && roles[opening[a]] == Next(a))
    && (forall a :: a in dangling ==> dangling[a] in roles && roles[dangling[a]] == Dangles(a))
  }

  lemma InsertWired(channels: QueueMap, dangling: QueueMap, opening: QueueMap, roles: Roles,
                    id: nat, own: DatagramsQueue<Bytes>)
    requires Wired(channels, dangling, opening, roles) && id !in channels && own !in roles
    ensures id !in dangling ==> Wired(channels[id := own], dangling, opening, roles[own := Current(id)])
    ensures id in dangling ==>
      Wired(channels[id := own], dangling - {id}, opening[id := dangling[id]],
            roles[dangling[id] := Next(id)][own := Current(id)])
  {
  }

  lemma SwapWired(channels: QueueMap, dangling: QueueMap, opening: QueueMap, roles: Roles, id: nat)
    requires Wired(channels, dangling, opening, roles) && id in opening
    ensures Wired(channels[id := opening[id]], dangling, opening - {id}, roles[opening[id] := Current(id)])
  {
  }

  lemma ParkWired(channels: QueueMap, dangling: QueueMap, opening: QueueMap, roles: Roles,
                  id: nat, queue: DatagramsQueue<Bytes>)
    requires Wired(channels, dangling, opening, roles) && id !in channels && queue !in roles
    ensures Wired(channels, dangling[id := queue], opening, roles[queue := Dangles(id)])
  {
  }

  /** The other keys do not notice an update or a removal. */
  lemma OtherKeys(m: QueueMap, id: nat, queue: DatagramsQueue<Bytes>)
    ensures m[id := queue] - {id} == m - {id} && m - {id} - {id} == m - {id}
  {
  }

  class Conversation {
    /** The queue each channel has. */
    var channels: QueueMap
    var dangling: QueueMap
    /** The queue a call of `AddChannel` holds between its two steps. */
    ghost var opening: QueueMap
    ghost var roles: Roles

    ghost predicate Valid()
      reads this
    {
      Wired(channels, dangling, opening, roles)
    }

    /** What exists for a channel id. */
    ghost function At(id: nat): Slot
      requires Valid()
      reads this, roles.Keys
    {
      if id in dangling then Unopened(Some(dangling[id].Value()))
      else if id in opening then Opening(channels[id].Value(), opening[id].Value())
      else if id in channels then Open(channels[id].Value())
      else Unopened(None)
    }

    /** The references of the other channels. */
    ghost function Others(id: nat): (QueueMap, QueueMap, QueueMap)
      reads this
    {
      (channels - {id}, dangling - {id}, opening - {id})
    }

    constructor ()
      ensures Valid() && roles == map[] && forall id :: At(id) == Unopened(None)
    {
      channels, dangling, opening, roles := map[], map[], map[], map[];
    }

    /** The critical section of `add_channel`: the channel is visible, with its own queue. */
    method InsertChannel(id: nat, own: DatagramsQueue<Bytes>) returns (pending: Option<DatagramsQueue<Bytes>>)
      requires Valid() && id !in channels && own !in roles && own.items == []
      modifies this
      ensures Valid() && At(id) == old(At(id)).Insert(own.capacity)
      ensures Others(id) == old(Others(id))
      ensures if pending.None? then At(id).Open? else id in opening && opening[id] == pending.value
    {
      InsertWired(channels, dangling, opening, roles, id, own);
      assert id !in opening;
      hide Wired;
      OtherKeys(channels, id, own);
      OtherKeys(dangling, id, own);
      if id in dangling {
        OtherKeys(opening, id, dangling[id]);
        pending := Some(dangling[id]);
        opening, roles := opening[id := dangling[id]], roles[dangling[id] := Next(id)][own := Current(id)];
        dangling := dangling - {id};
      } else {
        pending := None;
        roles := roles[own := Current(id)];
      }
      channels := channels[id := own];
    }

    /** `set_datagram_queue`: whatever is in the channel's own queue by now is dropped with it. */
    method SetDatagramQueue(id: nat, queue: DatagramsQueue<Bytes>)
      requires Valid() && id in opening && opening[id] == queue
      modifies this
      ensures Valid() && At(id) == old(At(id)).Swap()
      ensures Others(id) == old(Others(id))
    {
      SwapWired(channels, dangling, opening, roles, id);
      assert id !in dangling;
      hide Wired;
      OtherKeys(channels, id, queue);
      OtherKeys(opening, id, queue);
      opening := opening - {id};
      roles := roles[queue := Current(id)];
      channels := channels[id := queue];
    }

    /** Without interference the channel ends up with what dangled for it, or with its own queue. */
    method AddChannel(id: nat, own: DatagramsQueue<Bytes>)
      requires Valid() && id !in channels && own !in roles && own.items == []
      modifies this
      ensures Valid() && At(id).Open? && At(id).queue.items == old(At(id)).Dangling()
      ensures Others(id) == old(Others(id))
    {
      var pending := InsertChannel(id, own);
      if pending.Some? {
        SetDatagramQueue(id, pending.value);
      }
    }

    /** `add_dangling_datagrams_queue`: the datagrams go to the channel if it exists by now; otherwise
        the queue dangles, in place of the one before. */
    method AddDanglingDatagramsQueue(id: nat, queue: DatagramsQueue<Bytes>)
      requires Valid() && queue !in roles
      modifies this, queue, if id in channels then {channels[id]} else {}
      ensures Valid() && At(id) == old(At(id)).Park(old(queue.Value()))
      ensures Others(id) == old(Others(id))
    {
      hide Queue.AddAll;
      if id in channels {
        channels[id].Drain(queue);
      } else {
        ParkWired(channels, dangling, opening, roles, id, queue);
        OtherKeys(dangling, id, queue);
        roles := roles[queue := Dangles(id)];
        dangling := dangling[id := queue];
      }
    }

    /** The queue of the channel a datagram names. */
    ghost function Target(datagram: Bytes): set<object>
      reads this
    {
      var id := ReadVarInt(datagram);
      if id.Done? && id.value in channels then {channels[id.value]} else {}
    }

    /** `add_datagram` without interference: the payload goes behind what is queued for its channel, or
        dangles alone. */
    method AddDatagram(datagram: Bytes) returns (outcome: Outcome)
      requires Valid()
      modifies this, Target(datagram)
      ensures Valid()
      ensures match ReadVarInt(datagram) {
        case Fail(error) =>
          && outcome == Malformed(error)
          && channels == old(channels) && dangling == old(dangling) && opening == old(opening)
        case Done(id, payload) =>
          && Others(id) == old(Others(id))
          && if old(At(id)).Unopened? then
               && outcome == ChannelNotFound(id)
               && At(id) == Unopened(Some(Queue([payload], DANGLING_DATAGRAM_QUEUE_SIZE)))
             else
               && outcome == (if old(At(id)).Current().Full() then Blocked else Delivered)
               && At(id) == old(At(id)).Add(payload)
      }
    {
      hide Wire.ReadVarInt;
      var parsed := ReadVarInt(datagram);
      if parsed.Fail? {
        return Malformed(parsed.error);
      }
      var id, payload := parsed.value, parsed.rest;
      if id in channels {
        var added := channels[id].Add(payload);
        return if added then Delivered else Blocked;
      }
      var queue := new DatagramsQueue<Bytes>(DANGLING_DATAGRAM_QUEUE_SIZE);
      var _ := queue.Add(payload);
      assert queue.Value() == Queue([payload], DANGLING_DATAGRAM_QUEUE_SIZE);
      AddDanglingDatagramsQueue(id, queue);
      return ChannelNotFound(id);
    }
  }
}
