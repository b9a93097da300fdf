/** The broker and its stream handler as objects updated in place. */
module HubBroker {
  import opened Events
  import opened Ring
  import BrokerRuns

  /** A Go channel of 32 slots, as far as non-blocking sends and receives can see it. */
  class Channel {
    var queue: seq<EventRecord>

    constructor ()
      ensures queue == []
    {
      queue := [];
    }

    method TrySend(ev: EventRecord) returns (sent: bool)
      modifies this
      ensures queue == BrokerRuns.Offer(old(queue), ev)
      ensures queue == if |old(queue)| < 32 then old(queue) + [ev] else old(queue)
      ensures sent <==> |old(queue)| < 32
    {
      sent := |queue| < BrokerRuns.CHANNEL_CAP;
      if sent {
        queue := queue + [ev];
      }
    }
  }

  class Broker {
    const ringCap: nat
    var ring: seq<EventRecord>
    var subs: set<Channel>
    /** Everything published so far. */
    ghost var log: seq<EventRecord>

    ghost predicate Valid()
      reads this
    {
      ringCap >= 1 && ring == Window(log, ringCap)
    }

    constructor (cap: int)
      ensures Valid() && log == [] && subs == {}
      ensures ringCap == if cap <= 0 then 256 else cap
    {
      ringCap := if cap <= 0 then 256 else cap;
      ring, subs, log := [], {}, [];
    }

    /** No subscriber can hold Publish up: each one gets the event or loses it. */
    method Publish(ev: EventRecord)
      requires Valid()
      modifies this`ring, this`log, subs
      ensures Valid() && log == old(log) + [ev]
      ensures forall ch :: ch in subs ==> ch.queue == BrokerRuns.Offer(old(ch.queue), ev)
    {
      PushRefinesLog(log, ringCap, ev);
      ring := ring + [ev];
      if |ring| > ringCap {
        ring := ring[|ring| - ringCap..];
      }
      log := log + [ev];
      var todo := subs;
      while todo != {}
        invariant Valid() && log == old(log) + [ev] && todo <= subs
        invariant forall ch :: ch in todo ==> ch.queue == old(ch.queue)
        invariant forall ch :: ch in subs - todo ==> ch.queue == BrokerRuns.Offer(old(ch.queue), ev)
        decreases |todo|
      {
        var ch :| ch in todo;
        var _ := ch.TrySend(ev);
        todo := todo - {ch};
      }
    }

    /** A new channel, and everything in the ring after the given event. */
    method Subscribe(afterEventID: string) returns (ch: Channel, replay: seq<EventRecord>)
      requires Valid()
      modifies this`subs
      ensures Valid() && fresh(ch) && ch.queue == [] && subs == old(subs) + {ch}
      ensures replay == ReplayAfter(Window(log, ringCap), afterEventID)
    {
      ch := new Channel();
      subs := subs + {ch};
      replay := [];
      if afterEventID != "" {
        var found := false;
        for i := 0 to |ring|
          invariant !found ==> replay == [] && ReplayAfter(ring, afterEventID) == ReplayAfter(ring[i..], afterEventID)
          invariant found ==> ReplayAfter(ring, afterEventID) == replay + ring[i..]
        {
          if found {
            replay := replay + [ring[i]];
          } else if ring[i].eventId == afterEventID {
            found := true;
          }
        }
      }
    }

    method Unsubscribe(ch: Channel)
      requires Valid()
      modifies this`subs
      ensures Valid() && subs == old(subs) - {ch}
    {
      subs := subs - {ch};
    }
  }

  /** One run of streamHandler: `written` is what went out on the response. */
  class EventStream {
    const channel: Channel
    var written: seq<EventRecord>

    /** The Last-Event-ID header wins over the query parameter; the whole replay goes out first. */
    constructor (broker: Broker, lastEventID: string, since: string)
      requires broker.Valid()
      modifies broker`subs
      ensures broker.Valid() && fresh(channel) && channel.queue == [] && broker.subs == old(broker.subs) + {channel}
      ensures written == ReplayAfter(Window(broker.log, broker.ringCap), if lastEventID == "" then since else lastEventID)
    {
      var last := lastEventID;
      if last == "" {
        last := since;
      }
      var ch, replay := broker.Subscribe(last);
      channel := ch;
      written := [];
      new;
      for i := 0 to |replay|
        invariant written == replay[..i]
        invariant channel.queue == [] && broker.subs == old(broker.subs) + {channel} && broker.Valid()
      {
        written := written + [replay[i]];
      }
    }

    /** One turn of the receive loop; false when the channel has nothing to offer. */
    method Pump() returns (progress: bool)
      modifies this, channel
      ensures progress <==> old(channel.queue) != []
      ensures written + channel.queue == old(written) + old(channel.queue)
      ensures |written| == |old(written)| + if progress then 1 else 0
    {
      progress := channel.queue != [];
      if progress {
        written, channel.queue := written + [channel.queue[0]], channel.queue[1..];
      }
    }
  }
}
