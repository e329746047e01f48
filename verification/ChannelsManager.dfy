/** `channelsManager` of resources_manager.go over the queue objects of util/util.go: the queue parked
    for an unknown channel becomes that channel's own queue when it registers.
    Each method is proved against a function on the abstract value of the manager. */
module ChannelsManager {
  import opened Wire
  import opened Queues

  const MAX_DANGLING: nat := 128
  const DANGLING_CAPACITY: nat := 10

  /** A datagram, tagged with its position among all arrivals. */
  datatype Item = Item(index: nat, payload: Bytes)

  // ----- Values -----

  datatype Manager = Manager(channels: map<nat, Queue<Item>>, dangling: map<nat, Queue<Item>>) {
    /** Registration: a parked queue replaces the channel's own. */
    function Register(id: nat, own: Queue<Item>): Manager {
      Manager(channels[id := if id in dangling then dangling[id] else own], dangling - {id})
    }

    /** What `addDanglingDatagramsQueue` does with the datagrams of `queue`. */
    function Park(id: nat, queue: Queue<Item>): Manager {
      if id in channels then
        Manager(channels[id := channels[id].AddAll(queue.items)], dangling)
      else if id in dangling then
        Manager(channels, dangling[id := dangling[id].AddAll(queue.items)])
      else if |dangling| < MAX_DANGLING then
        Manager(channels, dangling[id := queue])
      else
        this
    }
  }

  /** What `AddDatagram` did: `Blocked` is a send waiting on a full channel queue. */
  datatype Outcome = Malformed | ChannelNotFound(id: nat) | Delivered | Blocked

  // ----- Objects -----

  class Registry {
    /** The queue object each registered channel currently holds. */
    var channels: map<nat, DatagramsQueue<Item>>
    var dangling: map<nat, DatagramsQueue<Item>>
    /** The abstract value. */
    ghost var model: Manager

    /** No queue is shared: changing one channel's queue changes no other. */
    ghost predicate Separate()
      reads this
    {
      && channels.Keys !! dangling.Keys
      && (forall a, b :: a in channels && b in channels && a != b ==> channels[a] != channels[b])
      && (forall a, b :: a in dangling && b in dangling && a != b ==> dangling[a] != dangling[b])
      && (forall a, b :: a in channels && b in dangling ==> channels[a] != dangling[b])
    }

    ghost predicate Valid()
      reads this, channels.Values, dangling.Values
    {
      && Separate()
      && model.channels.Keys == channels.Keys && model.dangling.Keys == dangling.Keys
      && (forall a :: a in channels ==> model.channels[a] == channels[a].Value())
      && (forall a :: a in dangling ==> model.dangling[a] == dangling[a].Value())
    }

    ghost predicate Unknown(queue: DatagramsQueue<Item>)
      reads this
    {
      queue !in channels.Values && queue !in dangling.Values
    }

    constructor ()
      ensures Valid() && model == Manager(map[], map[])
    {
      channels, dangling := map[], map[];
      model := Manager(map[], map[]);
    }

    method GetChannel(id: nat) returns (queue: DatagramsQueue?<Item>)
      requires Valid()
      ensures queue != null <==> id in model.channels
      ensures queue != null ==> queue.Value() == model.channels[id]
    {
      queue := if id in channels then channels[id] else null;
    }

    /** `addChannel`: the channel comes with a queue nothing else refers to. */
    method AddChannel(id: nat, own: DatagramsQueue<Item>)
      requires Valid() && Unknown(own)
      modifies this
      ensures Valid() && model == old(model).Register(id, own.Value())
    {
      model := model.Register(id, own.Value());
      var queue := own;
      if id in dangling {
        queue := dangling[id];
        dangling := dangling - {id};
      }
      channels := channels[id := queue];
    }

    /** `addDanglingDatagramsQueue`. */
    method AddDanglingDatagramsQueue(id: nat, queue: DatagramsQueue<Item>)
      requires Valid() && Unknown(queue)
      modifies this, queue, channels.Values, dangling.Values
      ensures Valid() && model == old(model).Park(id, old(queue.Value()))
    {
      assert |model.dangling| == |dangling| by {
        assert |model.dangling.Keys| == |dangling.Keys|;
      }
      if id in channels {
        OfferToChannel(id, queue);
      } else if id in dangling {
        OfferToDangling(id, queue);
      } else if |dangling| < MAX_DANGLING {
        model := model.(dangling := model.dangling[id := queue.Value()]);
        dangling := dangling[id := queue];
      }
    }

    /** `Conversation.AddDatagram` without interference: the payload behind the channel id goes to
        the registered channel, or is parked in a fresh queue of ten. */
    method AddDatagram(datagram: Bytes, index: nat) returns (outcome: Outcome)
      requires Valid()
      modifies this, channels.Values, dangling.Values
      ensures Valid()
      ensures ReadVarInt(datagram).Fail? ==> outcome == Malformed && model == old(model)
      ensures ReadVarInt(datagram).Done? ==>
                var id, item := ReadVarInt(datagram).value, Item(index, ReadVarInt(datagram).rest);
                if id !in old(model).channels then
                  outcome == ChannelNotFound(id) && model == old(model).Park(id, Queue([item], DANGLING_CAPACITY))
                else if old(model).channels[id].Full() then
                  outcome == Blocked && model == old(model)
                else
                  outcome == Delivered
                  && model == old(model).(channels := old(model).channels[id := old(model).channels[id].Add(item)])
    {
      hide Wire.ReadVarInt, Manager.Park, Queue.AddAll, Separate;
      var parsed := ReadVarInt(datagram);
      if parsed.Fail? {
        return Malformed;
      }
      var id, item := parsed.value, Item(index, parsed.rest);
      if id in channels {
        if channels[id].capacity <= |channels[id].items| {
          return Blocked;
        }
        AddToChannel(id, item);
        return Delivered;
      }
      var queue := new DatagramsQueue<Item>(DANGLING_CAPACITY);
      var _ := queue.Add(item);
      assert queue.Value() == Queue([item], DANGLING_CAPACITY);
      AddDanglingDatagramsQueue(id, queue);
      return ChannelNotFound(id);
    }

    method AddToChannel(id: nat, item: Item)
      requires Valid() && id in channels
      modifies this`model, channels[id]
      ensures Valid()
      ensures model == old(model).(channels := old(model).channels[id := old(model).channels[id].Add(item)])
    {
      hide Queue.Add;
      model := model.(channels := model.channels[id := model.channels[id].Add(item)]);
      var _ := channels[id].Add(item);
    }

    method OfferToChannel(id: nat, queue: DatagramsQueue<Item>)
      requires Valid() && Unknown(queue) && id in channels
      modifies this`model, queue, channels[id]
      ensures Valid()
      ensures model ==
        old(model).(channels := old(model).channels[id := old(model).channels[id].AddAll(old(queue.items))])
    {
      hide Queue.AddAll;
      model := model.(channels := model.channels[id := model.channels[id].AddAll(queue.items)]);
      channels[id].Drain(queue);
    }

    method OfferToDangling(id: nat, queue: DatagramsQueue<Item>)
      requires Valid() && Unknown(queue) && id in dangling
      modifies this`model, queue, dangling[id]
      ensures Valid()
      ensures model ==
        old(model).(dangling := old(model).dangling[id := old(model).dangling[id].AddAll(old(queue.items))])
    {
      hide Queue.AddAll;
      model := model.(dangling := model.dangling[id := model.dangling[id].AddAll(queue.items)]);
      dangling[id].Drain(queue);
    }
  }
}
