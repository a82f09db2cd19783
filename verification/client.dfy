/**
 * The producer (`AzureServiceBusClient`): a lazily opened connection and a
 * pool of senders keyed by destination pattern. Every broker call is an
 * effect appended to `log`.
 */
module TransportClient {
  import opened Wrappers
  import opened JsValues
  import opened JsMap
  import opened Bus
  import opened Envelope

  /**
   * The one broker call `dispatchEvent` makes for an envelope: schedule it
   * when its `scheduledEnqueueTimeUtc` is truthy, whatever that time is
   * (it is never compared with the clock), otherwise send it.
   */
  function Delivery(sender: Sender, envelope: map<string, Value>): (e: Effect)
    ensures e.ScheduleEnvelope? || e.SendEnvelope?
    ensures e.sender == sender && e.envelope == envelope
    ensures e.ScheduleEnvelope? <==> Truthy(Lookup(envelope, ScheduledEnqueueTimeKey))
    ensures e.ScheduleEnvelope? ==> e.enqueueTime == envelope[ScheduledEnqueueTimeKey]
  {
    var at := Lookup(envelope, ScheduledEnqueueTimeKey);
    if Truthy(at) then ScheduleEnvelope(sender, envelope, at) else SendEnvelope(sender, envelope)
  }

  /** A scheduled time in the past still schedules: the adapter never reads the clock. */
  lemma PastScheduleStillScheduled(sender: Sender, body: Value, at: int, now: int)
    requires at < now
    ensures var envelope := BuildMessage(Packet(body, map[ScheduledEnqueueTimeKey := Time(at)]));
            Delivery(sender, envelope) == ScheduleEnvelope(sender, envelope, Time(at))
  {
  }

  /** The `close` calls for a pool's senders, in insertion order. */
  function CloseSenders(senders: seq<Sender>): (effects: seq<Effect>)
    ensures |effects| == |senders|
    ensures forall i :: 0 <= i < |senders| ==> effects[i] == CloseSender(senders[i])
    decreases |senders|
  {
    if senders == [] then [] else CloseSenders(senders[..|senders| - 1]) + [CloseSender(senders[|senders| - 1])]
  }

  /** `if (this.client) await this.client.close()`. */
  function CloseConnection(client: Option<BusClient>): (effects: seq<Effect>)
  {
    if client.Some? then [CloseClient(client.value)] else []
  }

  class Client {
    const connectionString: string
    var client: Option<BusClient>
    var senders: OrderedMap<Sender>
    /** The broker calls made so far. */
    var log: seq<Effect>

    /** The pool is a well-formed map and holds, under each pattern, the sender for that pattern. */
    ghost predicate Valid()
      reads this
    {
      && senders.Valid()
      && forall p :: p in senders.entries ==> senders.entries[p] == Sender(p)
    }

    constructor (connectionString: string)
      ensures Valid()
      ensures this.connectionString == connectionString
      ensures client == None && senders.keys == [] && log == []
    {
      this.connectionString := connectionString;
      client := None;
      senders := Empty();
      log := [];
    }

    /** `connect()`: returns the open connection, opening one only when there is none. */
    method Connect() returns (c: BusClient)
      requires Valid()
      modifies this`client, this`log
      ensures Valid()
      ensures client == Some(c)
      ensures old(client).Some? ==> c == old(client).value && log == old(log)
      ensures old(client).None? ==>
                c == BusClient(connectionString) && log == old(log) + [OpenClient(c)]
    {
      if client.Some? {
        return client.value;
      }
      c := BusClient(connectionString);
      client := Some(c);
      log := log + [OpenClient(c)];
    }

    /**
     * `close()`: closes every pooled sender in insertion order, then the
     * connection if there is one; afterwards the pool is empty and there is
     * no connection, so a second `close` makes no broker call.
     */
    method Close()
      requires Valid()
      modifies this`client, this`senders, this`log
      ensures Valid()
      ensures client == None && senders.keys == [] && senders.entries == map[]
      ensures log == old(log) + CloseSenders(Values(old(senders))) + CloseConnection(old(client))
    {
      var pooled := Values(senders);
      ghost var start := log;
      for i := 0 to |pooled|
        invariant log == start + CloseSenders(pooled[..i])
        invariant senders == old(senders) && client == old(client)
      {
        assert pooled[..i + 1][..i] == pooled[..i];
        assert CloseSenders(pooled[..i + 1]) == CloseSenders(pooled[..i]) + [CloseSender(pooled[i])];
        log := log + [CloseSender(pooled[i])];
      }
      assert pooled[..|pooled|] == pooled;
      log := log + CloseConnection(client);
      client := None;
      senders := Empty();
    }

    /**
     * `getSender(pattern)`: the pooled sender when there is one; otherwise a
     * new sender, pooled under `pattern`. With neither a pooled sender nor a
     * connection, `this.client.createSender` throws (`None`) and nothing changes.
     */
    method GetSender(pattern: string) returns (s: Option<Sender>)
      requires Valid()
      modifies this`senders, this`log
      ensures Valid()
      ensures pattern in old(senders.entries) ==>
                s == Some(Sender(pattern)) && senders == old(senders) && log == old(log)
      ensures pattern !in old(senders.entries) && client.None? ==>
                s == None && senders == old(senders) && log == old(log)
      ensures pattern !in old(senders.entries) && client.Some? ==>
                && s == Some(Sender(pattern))
                && senders == Set(old(senders), pattern, Sender(pattern))
                && log == old(log) + [CreateSender(Sender(pattern))]
      ensures s.Some? ==> pattern in senders.entries && senders.entries[pattern] == s.value
    {
      if pattern in senders.entries {
        return Some(senders.entries[pattern]);
      }
      if client.None? {
        return None;
      }
      var sender := Sender(pattern);
      senders := Set(senders, pattern, sender);
      log := log + [CreateSender(sender)];
      s := Some(sender);
    }

    /**
     * `dispatchEvent`: obtains the pattern's sender through the pool, builds
     * the envelope, and makes exactly one broker call, a schedule or a send.
     * Returns false when obtaining the sender throws.
     */
    method DispatchEvent(pattern: string, packet: Packet) returns (ok: bool)
      requires Valid()
      modifies this`senders, this`log
      ensures Valid()
      ensures ok <==> pattern in old(senders.entries) || client.Some?
      ensures !ok ==> senders == old(senders) && log == old(log)
      ensures ok && pattern in old(senders.entries) ==>
                senders == old(senders)
                && log == old(log) + [Delivery(Sender(pattern), BuildMessage(packet))]
      ensures ok && pattern !in old(senders.entries) ==>
                senders == Set(old(senders), pattern, Sender(pattern))
                && log == old(log) + [CreateSender(Sender(pattern)), Delivery(Sender(pattern), BuildMessage(packet))]
    {
      var sender := GetSender(pattern);
      if sender.None? {
        return false;
      }
      var envelope := BuildMessage(packet);
      log := log + [Delivery(sender.value, envelope)];
      ok := true;
    }
  }

  /**
   * Two emits to the same new pattern on a connected client create one
   * sender between them, and both go through it.
   */
  method RepeatedEmitsShareSender(c: Client, pattern: string, first: Packet, second: Packet)
    requires c.Valid() && c.client.Some? && pattern !in c.senders.entries
    modifies c
    ensures c.log == old(c.log) + [CreateSender(Sender(pattern)),
                                   Delivery(Sender(pattern), BuildMessage(first)),
                                   Delivery(Sender(pattern), BuildMessage(second))]
  {
    var ok1 := c.DispatchEvent(pattern, first);
    var ok2 := c.DispatchEvent(pattern, second);
  }

  /** Closing twice: the second close makes no broker call and leaves the pool empty. */
  method CloseTwice(c: Client)
    requires c.Valid()
    modifies c
    ensures c.client == None && c.senders.entries == map[]
    ensures c.log == old(c.log) + CloseSenders(Values(old(c.senders))) + CloseConnection(old(c.client))
  {
    c.Close();
    var afterFirst := c.log;
    c.Close();
    assert Values(c.senders) == [];
    assert c.log == afterFirst;
  }
}
