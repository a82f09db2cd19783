/**
 * The consumer (`AzureServiceBusServer`): on `listen` it opens a connection
 * and binds every registered handler to a receiver and a subscription,
 * pooling receivers by topic and subscriptions by topic followed by
 * subscription name; each delivered message goes through the error-recovery
 * policy; `cleanUp` closes everything and resets the pools.
 */
module TransportServer {
  import opened Wrappers
  import opened JsValues
  import opened JsMap
  import opened Bus
  import opened ErrorRecovery

  /** The `extras` a handler is registered with. */
  datatype HandlerExtras = HandlerExtras(subscriptionName: string, errorStrategy: ErrorStrategy)

  /** `${topicName}${subscriptionName}`: plain concatenation, with no separator. */
  function SubscriptionKey(topic: string, subscription: string): string
  {
    topic + subscription
  }

  /** The two pools and the broker calls made so far, as `bindHandlers` builds them up. */
  datatype Bindings = Bindings(receivers: OrderedMap<Receiver>,
                               subscriptions: OrderedMap<Subscription>,
                               effects: seq<Effect>)
  {
    ghost predicate Valid()
    {
      receivers.Valid() && subscriptions.Valid()
    }
  }

  /**
   * One iteration of `bindHandlers`: create the receiver and pool it under
   * the topic, subscribe and pool the subscription under its key.
   */
  function BindOne(b: Bindings, topic: string, extras: HandlerExtras): (r: Bindings)
    requires b.Valid()
    ensures r.Valid()
    ensures r.receivers.entries == b.receivers.entries[topic := Receiver(topic, extras.subscriptionName)]
    ensures r.subscriptions.entries == b.subscriptions.entries[SubscriptionKey(topic, extras.subscriptionName) :=
                                                                 Subscription(Receiver(topic, extras.subscriptionName))]
    ensures r.effects == b.effects + [CreateReceiver(Receiver(topic, extras.subscriptionName)),
                                      Subscribe(Subscription(Receiver(topic, extras.subscriptionName)))]
  {
    var receiver := Receiver(topic, extras.subscriptionName);
    var subscription := Subscription(receiver);
    Bindings(Set(b.receivers, topic, receiver),
             Set(b.subscriptions, SubscriptionKey(topic, extras.subscriptionName), subscription),
             b.effects + [CreateReceiver(receiver), Subscribe(subscription)])
  }

  /** `bindHandlers` over the handlers registered under `topics`, in that order. */
  function BindAll(b: Bindings, topics: seq<string>, handlers: map<string, HandlerExtras>): (r: Bindings)
    requires b.Valid()
    requires forall t :: t in topics ==> t in handlers
    ensures r.Valid()
    decreases |topics|
  {
    if topics == [] then b
    else
      var last := topics[|topics| - 1];
      BindOne(BindAll(b, topics[..|topics| - 1], handlers), last, handlers[last])
  }

  /** The handlers of a well-formed map registered before position `n`, bound one more step. */
  lemma BindAllStep(b: Bindings, handlers: OrderedMap<HandlerExtras>, n: nat)
    requires b.Valid() && handlers.Valid() && n < |handlers.keys|
    ensures forall t :: t in handlers.keys[..n] ==> t in handlers.entries
    ensures forall t :: t in handlers.keys[..n + 1] ==> t in handlers.entries
    ensures var topic := handlers.keys[n];
            BindAll(b, handlers.keys[..n + 1], handlers.entries)
              == BindOne(BindAll(b, handlers.keys[..n], handlers.entries), topic, handlers.entries[topic])
  {
    assert handlers.keys[..n + 1][..n] == handlers.keys[..n];
  }

  /** After binding, each handler's topic holds the receiver for that topic and subscription. */
  lemma {:induction false} BoundReceivers(b: Bindings, topics: seq<string>, handlers: map<string, HandlerExtras>)
    requires b.Valid()
    requires forall t :: t in topics ==> t in handlers
    ensures BindAll(b, topics, handlers).receivers.entries ==
            b.receivers.entries + map t | t in topics :: Receiver(t, handlers[t].subscriptionName)
    decreases |topics|
  {
    if topics != [] {
      var init, last := topics[..|topics| - 1], topics[|topics| - 1];
      BoundReceivers(b, init, handlers);
      var receiver := Receiver(last, handlers[last].subscriptionName);
      var boundBefore := map t | t in init :: Receiver(t, handlers[t].subscriptionName);
      BoundStep(topics, handlers);
      MergeUpdate(b.receivers.entries, boundBefore, last, receiver);
    }
  }

  /** The receivers bound for `topics` are those for all but its last topic, plus the last one's. */
  lemma BoundStep(topics: seq<string>, handlers: map<string, HandlerExtras>)
    requires topics != [] && forall t :: t in topics ==> t in handlers
    ensures var init, last := topics[..|topics| - 1], topics[|topics| - 1];
            (map t | t in topics :: Receiver(t, handlers[t].subscriptionName))
              == (map t | t in init :: Receiver(t, handlers[t].subscriptionName))
                   [last := Receiver(last, handlers[last].subscriptionName)]
  {
    assert topics == topics[..|topics| - 1] + [topics[|topics| - 1]];
  }

  lemma MergeUpdate<K, V>(m: map<K, V>, n: map<K, V>, k: K, v: V)
    ensures (m + n)[k := v] == m + n[k := v]
  {
  }

  /** After binding, the subscription pool holds exactly the old keys and each handler's key. */
  lemma {:induction false} BoundSubscriptionKeys(b: Bindings, topics: seq<string>, handlers: map<string, HandlerExtras>)
    requires b.Valid()
    requires forall t :: t in topics ==> t in handlers
    ensures BindAll(b, topics, handlers).subscriptions.entries.Keys ==
            b.subscriptions.entries.Keys + set t | t in topics :: SubscriptionKey(t, handlers[t].subscriptionName)
    decreases |topics|
  {
    if topics != [] {
      var init, last := topics[..|topics| - 1], topics[|topics| - 1];
      BoundSubscriptionKeys(b, init, handlers);
      assert forall t :: t in topics <==> t in init || t == last;
    }
  }

  /** The pool key of the handler registered under `t`. */
  function BoundKey(handlers: map<string, HandlerExtras>, t: string): string
    requires t in handlers
  {
    SubscriptionKey(t, handlers[t].subscriptionName)
  }

  /** No handler after position `i` of `topics` has the same pool key as the one at `i`. */
  predicate LastWithKey(topics: seq<string>, handlers: map<string, HandlerExtras>, i: int)
    requires forall t :: t in topics ==> t in handlers
    requires 0 <= i < |topics|
  {
    forall j :: i < j < |topics| ==> BoundKey(handlers, topics[j]) != BoundKey(handlers, topics[i])
  }

  /** No handler in `topics` has pool key `k`. */
  predicate KeyUnbound(topics: seq<string>, handlers: map<string, HandlerExtras>, k: string)
    requires forall t :: t in topics ==> t in handlers
  {
    forall i :: 0 <= i < |topics| ==> BoundKey(handlers, topics[i]) != k
  }

  /** The subscription `BindOne` creates for the handler registered under `t`. */
  function BoundSubscription(handlers: map<string, HandlerExtras>, t: string): Subscription
    requires t in handlers
  {
    Subscription(Receiver(t, handlers[t].subscriptionName))
  }

  /** Binding one more handler sets its key to its subscription and leaves the other keys alone. */
  lemma BindAllSubscriptionsStep(b: Bindings, topics: seq<string>, handlers: map<string, HandlerExtras>)
    requires b.Valid()
    requires forall t :: t in topics ==> t in handlers
    requires topics != []
    ensures var last := topics[|topics| - 1];
            BindAll(b, topics, handlers).subscriptions.entries
              == BindAll(b, topics[..|topics| - 1], handlers).subscriptions.entries[
                   BoundKey(handlers, last) := BoundSubscription(handlers, last)]
  {
  }

  /** Each key of `pool` used by a handler in `topics` holds the last such handler's subscription. */
  predicate HoldsLastSubscriptions(pool: map<string, Subscription>, topics: seq<string>, handlers: map<string, HandlerExtras>)
    requires forall t :: t in topics ==> t in handlers
  {
    forall i :: 0 <= i < |topics| && LastWithKey(topics, handlers, i) ==>
      BoundKey(handlers, topics[i]) in pool && pool[BoundKey(handlers, topics[i])] == BoundSubscription(handlers, topics[i])
  }

  /** Setting the last handler's key keeps the pool holding the last subscription of every key. */
  lemma HoldsLastSubscriptionsStep(prev: map<string, Subscription>, topics: seq<string>, handlers: map<string, HandlerExtras>)
    requires forall t :: t in topics ==> t in handlers
    requires topics != []
    requires HoldsLastSubscriptions(prev, topics[..|topics| - 1], handlers)
    ensures var last := topics[|topics| - 1];
            HoldsLastSubscriptions(prev[BoundKey(handlers, last) := BoundSubscription(handlers, last)], topics, handlers)
  {
    var n := |topics| - 1;
    var init := topics[..n];
    var pool := prev[BoundKey(handlers, topics[n]) := BoundSubscription(handlers, topics[n])];
    forall i | 0 <= i < |topics| && LastWithKey(topics, handlers, i)
      ensures BoundKey(handlers, topics[i]) in pool && pool[BoundKey(handlers, topics[i])] == BoundSubscription(handlers, topics[i])
    {
      if i < n {
        assert BoundKey(handlers, topics[n]) != BoundKey(handlers, topics[i]);
        assert LastWithKey(init, handlers, i) by {
          forall j | i < j < n
            ensures BoundKey(handlers, init[j]) != BoundKey(handlers, init[i])
          {
            assert init[j] == topics[j];
          }
        }
        assert init[i] == topics[i];
      }
    }
  }

  /**
   * After binding, each key holds the subscription of the last handler with
   * that key: a later handler with the same key replaces an earlier one.
   */
  lemma {:induction false} BoundSubscriptions(b: Bindings, topics: seq<string>, handlers: map<string, HandlerExtras>)
    requires b.Valid()
    requires forall t :: t in topics ==> t in handlers
    ensures HoldsLastSubscriptions(BindAll(b, topics, handlers).subscriptions.entries, topics, handlers)
    decreases |topics|
  {
    if topics != [] {
      BoundSubscriptions(b, topics[..|topics| - 1], handlers);
      BindAllSubscriptionsStep(b, topics, handlers);
      HoldsLastSubscriptionsStep(BindAll(b, topics[..|topics| - 1], handlers).subscriptions.entries, topics, handlers);
    }
  }

  /** After binding, a key no handler uses keeps what it held before. */
  lemma {:induction false} UnboundSubscriptionsKept(b: Bindings, topics: seq<string>, handlers: map<string, HandlerExtras>)
    requires b.Valid()
    requires forall t :: t in topics ==> t in handlers
    ensures var pool := BindAll(b, topics, handlers).subscriptions.entries;
            forall k :: k in b.subscriptions.entries && KeyUnbound(topics, handlers, k) ==>
              k in pool && pool[k] == b.subscriptions.entries[k]
    decreases |topics|
  {
    if topics != [] {
      var n := |topics| - 1;
      var init := topics[..n];
      UnboundSubscriptionsKept(b, init, handlers);
      BindAllSubscriptionsStep(b, topics, handlers);
      forall k | KeyUnbound(topics, handlers, k)
        ensures KeyUnbound(init, handlers, k)
      {
        forall i | 0 <= i < n ensures BoundKey(handlers, init[i]) != k {
          assert init[i] == topics[i];
        }
      }
    }
  }

  /** The broker calls binding makes for `topics`: two per handler, in handler order. */
  function BindCalls(topics: seq<string>, handlers: map<string, HandlerExtras>): (calls: seq<Effect>)
    requires forall t :: t in topics ==> t in handlers
    ensures |calls| == 2 * |topics|
    ensures forall i :: 0 <= i < |topics| ==>
              calls[2 * i] == CreateReceiver(Receiver(topics[i], handlers[topics[i]].subscriptionName))
    ensures forall i :: 0 <= i < |topics| ==>
              calls[2 * i + 1] == Subscribe(Subscription(Receiver(topics[i], handlers[topics[i]].subscriptionName)))
    decreases |topics|
  {
    if topics == [] then []
    else
      var last := topics[|topics| - 1];
      var receiver := Receiver(last, handlers[last].subscriptionName);
      BindCalls(topics[..|topics| - 1], handlers) + [CreateReceiver(receiver), Subscribe(Subscription(receiver))]
  }

  /** Binding appends the create-receiver and subscribe calls of every handler, in handler order. */
  lemma {:induction false} BindEffects(b: Bindings, topics: seq<string>, handlers: map<string, HandlerExtras>)
    requires b.Valid()
    requires forall t :: t in topics ==> t in handlers
    ensures BindAll(b, topics, handlers).effects == b.effects + BindCalls(topics, handlers)
    decreases |topics|
  {
    if topics != [] {
      var init, last := topics[..|topics| - 1], topics[|topics| - 1];
      BindEffects(b, init, handlers);
      var receiver := Receiver(last, handlers[last].subscriptionName);
      AppendAssoc(b.effects, BindCalls(init, handlers), [CreateReceiver(receiver), Subscribe(Subscription(receiver))]);
    }
  }

  /** The `close` calls for the pooled subscriptions, in insertion order. */
  function CloseSubscriptions(subscriptions: seq<Subscription>): (effects: seq<Effect>)
    ensures |effects| == |subscriptions|
    ensures forall i :: 0 <= i < |subscriptions| ==> effects[i] == CloseSubscription(subscriptions[i])
    decreases |subscriptions|
  {
    if subscriptions == [] then []
    else CloseSubscriptions(subscriptions[..|subscriptions| - 1])
         + [CloseSubscription(subscriptions[|subscriptions| - 1])]
  }

  /** The `close` calls for the pooled receivers, in insertion order. */
  function CloseReceivers(receivers: seq<Receiver>): (effects: seq<Effect>)
    ensures |effects| == |receivers|
    ensures forall i :: 0 <= i < |receivers| ==> effects[i] == CloseReceiver(receivers[i])
    decreases |receivers|
  {
    if receivers == [] then []
    else CloseReceivers(receivers[..|receivers| - 1]) + [CloseReceiver(receivers[|receivers| - 1])]
  }

  /**
   * What `cleanUp` does: close every pooled subscription, then every pooled
   * receiver, each pool in insertion order, then the connection.
   */
  function CleanUpEffects(subscriptions: OrderedMap<Subscription>, receivers: OrderedMap<Receiver>,
                          client: BusClient): seq<Effect>
    requires subscriptions.Valid() && receivers.Valid()
  {
    CloseSubscriptions(Values(subscriptions)) + CloseReceivers(Values(receivers)) + [CloseClient(client)]
  }

  /**
   * Where each close lands: the pooled subscriptions' closes first, in
   * insertion order, then the pooled receivers', then the connection's.
   */
  lemma CleanUpPositions(subscriptions: OrderedMap<Subscription>, receivers: OrderedMap<Receiver>,
                         client: BusClient)
    requires subscriptions.Valid() && receivers.Valid()
    ensures var effects := CleanUpEffects(subscriptions, receivers, client);
            && |effects| == |subscriptions.keys| + |receivers.keys| + 1
            && (forall i :: 0 <= i < |subscriptions.keys| ==>
                  effects[i] == CloseSubscription(subscriptions.entries[subscriptions.keys[i]]))
            && (forall i :: 0 <= i < |receivers.keys| ==>
                  effects[|subscriptions.keys| + i] == CloseReceiver(receivers.entries[receivers.keys[i]]))
            && effects[|effects| - 1] == CloseClient(client)
  {
    var open, pooled := Values(subscriptions), Values(receivers);
    var first, second := CloseSubscriptions(open), CloseReceivers(pooled);
    var effects := CleanUpEffects(subscriptions, receivers, client);
    assert effects == first + second + [CloseClient(client)];
    forall i | 0 <= i < |subscriptions.keys|
      ensures effects[i] == CloseSubscription(subscriptions.entries[subscriptions.keys[i]])
    {
      assert effects[i] == first[i] == CloseSubscription(open[i]);
    }
    forall i | 0 <= i < |receivers.keys|
      ensures effects[|subscriptions.keys| + i] == CloseReceiver(receivers.entries[receivers.keys[i]])
    {
      assert effects[|first| + i] == second[i] == CloseReceiver(pooled[i]);
    }
  }

  /** `cleanUp` closes every pooled subscription and every pooled receiver. */
  lemma CleanUpClosesEverything(subscriptions: OrderedMap<Subscription>, receivers: OrderedMap<Receiver>,
                                client: BusClient, k: string)
    requires subscriptions.Valid() && receivers.Valid()
    ensures var effects := CleanUpEffects(subscriptions, receivers, client);
            && (k in subscriptions.entries ==> CloseSubscription(subscriptions.entries[k]) in effects)
            && (k in receivers.entries ==> CloseReceiver(receivers.entries[k]) in effects)
  {
    var effects := CleanUpEffects(subscriptions, receivers, client);
    CleanUpPositions(subscriptions, receivers, client);
    if k in subscriptions.entries {
      var i :| 0 <= i < |subscriptions.keys| && subscriptions.keys[i] == k;
      assert effects[i] == CloseSubscription(subscriptions.entries[k]);
    }
    if k in receivers.entries {
      var i :| 0 <= i < |receivers.keys| && receivers.keys[i] == k;
      assert effects[|subscriptions.keys| + i] == CloseReceiver(receivers.entries[k]);
    }
  }

  class Server {
    const connectionString: string
    var client: Option<BusClient>
    var receivers: OrderedMap<Receiver>
    var subscriptions: OrderedMap<Subscription>
    /** The broker calls made so far. */
    var log: seq<Effect>

    ghost function State(): Bindings
      reads this
    {
      Bindings(receivers, subscriptions, log)
    }

    ghost predicate Valid()
      reads this
    {
      State().Valid()
    }

    constructor (connectionString: string)
      ensures Valid()
      ensures this.connectionString == connectionString
      ensures client == None && receivers.keys == [] && subscriptions.keys == [] && log == []
    {
      this.connectionString := connectionString;
      client := None;
      receivers := Empty();
      subscriptions := Empty();
      log := [];
    }

    /** `listen`: open the connection, then bind every registered handler. */
    method Listen(handlers: OrderedMap<HandlerExtras>)
      requires Valid() && handlers.Valid()
      modifies this
      ensures Valid()
      ensures client == Some(BusClient(connectionString))
      ensures State() == BindAll(old(State()).(effects := old(log) + [OpenClient(BusClient(connectionString))]),
                                 handlers.keys, handlers.entries)
    {
      client := Some(BusClient(connectionString));
      log := log + [OpenClient(client.value)];
      BindHandlers(handlers);
    }

    /**
     * `bindHandlers`: for each handler in registration order, create a
     * receiver for its topic and subscription, pool it under the topic,
     * subscribe, and pool the subscription under the topic followed by the
     * subscription name.
     */
    method BindHandlers(handlers: OrderedMap<HandlerExtras>)
      requires Valid() && handlers.Valid() && client.Some?
      modifies this`receivers, this`subscriptions, this`log
      ensures Valid()
      ensures State() == BindAll(old(State()), handlers.keys, handlers.entries)
    {
      ghost var start := State();
      for i := 0 to |handlers.keys|
        invariant State() == BindAll(start, handlers.keys[..i], handlers.entries)
      {
        var topic := handlers.keys[i];
        var extras := handlers.entries[topic];
        BindAllStep(start, handlers, i);
        var receiver := Receiver(topic, extras.subscriptionName);
        var subscription := Subscription(receiver);
        receivers, subscriptions, log :=
          Set(receivers, topic, receiver),
          Set(subscriptions, SubscriptionKey(topic, extras.subscriptionName), subscription),
          log + [CreateReceiver(receiver), Subscribe(subscription)];
      }
      assert handlers.keys[..|handlers.keys|] == handlers.keys;
    }

    /**
     * The `processMessage` callback of the handler registered under `topic`
     * with `extras`, for one delivery of `m`: the handler's `outcome` and the
     * clock reading `now` are inputs.
     */
    method ProcessMessage(topic: string, extras: HandlerExtras, m: ReceivedMessage,
                          outcome: HandlerOutcome, now: int)
      requires NeedsBackoff(extras.errorStrategy, outcome) ==>
                 client.Some? && topic in receivers.entries && AttemptCountReadable(m)
      modifies this`log
      ensures log == old(log) + ProcessEffects(topic, extras.errorStrategy,
                                                Receiver(topic, extras.subscriptionName),
                                                Get(receivers, topic), m, outcome, now)
    {
      log := log + ProcessEffects(topic, extras.errorStrategy, Receiver(topic, extras.subscriptionName),
                                  Get(receivers, topic), m, outcome, now);
    }

    /**
     * `cleanUp`: close every subscription, reset that pool, close every
     * receiver, reset that pool, close the connection and drop it. The
     * source dereferences the connection without a check, so one must exist.
     */
    method CleanUp()
      requires Valid() && client.Some?
      modifies this`client, this`receivers, this`subscriptions, this`log
      ensures Valid()
      ensures client == None
      ensures receivers.entries == map[] && subscriptions.entries == map[]
      ensures log == old(log) + CleanUpEffects(old(subscriptions), old(receivers), old(client).value)
    {
      var closes := CloseEachSubscription(Values(subscriptions));
      subscriptions := Empty();
      var receiverCloses := CloseEachReceiver(Values(receivers));
      receivers := Empty();
      log := log + (closes + receiverCloses + [CloseClient(client.value)]);
      client := None;
    }
  }

  /** The loop `for (subscription of subscriptions.values()) await subscription.close()`. */
  method CloseEachSubscription(open: seq<Subscription>) returns (calls: seq<Effect>)
    ensures calls == CloseSubscriptions(open)
  {
    calls := [];
    for i := 0 to |open|
      invariant calls == CloseSubscriptions(open[..i])
    {
      assert open[..i + 1][..i] == open[..i];
      calls := calls + [CloseSubscription(open[i])];
    }
    assert open[..|open|] == open;
  }

  /** The loop `for (receiver of receivers.values()) await receiver.close()`. */
  method CloseEachReceiver(pooled: seq<Receiver>) returns (calls: seq<Effect>)
    ensures calls == CloseReceivers(pooled)
  {
    calls := [];
    for i := 0 to |pooled|
      invariant calls == CloseReceivers(pooled[..i])
    {
      assert pooled[..i + 1][..i] == pooled[..i];
      calls := calls + [CloseReceiver(pooled[i])];
    }
    assert pooled[..|pooled|] == pooled;
  }

  lemma AppendAssoc<T>(a: seq<T>, b: seq<T>, c: seq<T>)
    ensures (a + b) + c == a + (b + c)
  {
  }

  /** `this.receivers.get(topic)`. */
  function Get(receivers: OrderedMap<Receiver>, topic: string): (r: Option<Receiver>)
    ensures r.Some? <==> topic in receivers.entries
    ensures r.Some? ==> r.value == receivers.entries[topic]
  {
    if topic in receivers.entries then Some(receivers.entries[topic]) else None
  }

  /** Two handlers whose topic and subscription names concatenate to the same key, "abc". */
  function CollidingHandlers(strategy: ErrorStrategy): map<string, HandlerExtras>
  {
    map["ab" := HandlerExtras("c", strategy), "a" := HandlerExtras("bc", strategy)]
  }

  /** Binding the first handler of the colliding pair. */
  lemma CollisionFirstBinding(strategy: ErrorStrategy)
    ensures var first := Subscription(Receiver("ab", "c"));
            BindAll(Bindings(Empty(), Empty(), []), ["ab"], CollidingHandlers(strategy))
              == Bindings(OrderedMap(["ab"], map["ab" := first.receiver]),
                          OrderedMap(["abc"], map["abc" := first]),
                          [CreateReceiver(first.receiver), Subscribe(first)])
  {
    assert ["ab"][..0] == [];
    assert SubscriptionKey("ab", "c") == "abc";
  }

  /** Binding the second handler of the colliding pair replaces the first subscription. */
  lemma CollisionSecondBinding(strategy: ErrorStrategy)
    ensures var first := Subscription(Receiver("ab", "c"));
            var second := Subscription(Receiver("a", "bc"));
            BindAll(Bindings(Empty(), Empty(), []), ["ab", "a"], CollidingHandlers(strategy))
              == Bindings(OrderedMap(["ab", "a"], map["ab" := first.receiver, "a" := second.receiver]),
                          OrderedMap(["abc"], map["abc" := second]),
                          [CreateReceiver(first.receiver), Subscribe(first),
                           CreateReceiver(second.receiver), Subscribe(second)])
  {
    assert ["ab", "a"][..1] == ["ab"];
    CollisionFirstBinding(strategy);
    assert SubscriptionKey("a", "bc") == "abc";
    assert "a" != "ab";
  }

  /**
   * Because the subscription key is a bare concatenation, the handlers for
   * topic "ab" with subscription "c" and topic "a" with subscription "bc"
   * share a key: the second subscription replaces the first in the pool, so
   * `cleanUp` closes both receivers but only one of the two subscriptions.
   */
  lemma SubscriptionKeyCollision(strategy: ErrorStrategy, client: BusClient)
    ensures var b := BindAll(Bindings(Empty(), Empty(), []), ["ab", "a"], CollidingHandlers(strategy));
            var first := Subscription(Receiver("ab", "c"));
            var second := Subscription(Receiver("a", "bc"));
            && b.effects == [CreateReceiver(first.receiver), Subscribe(first),
                             CreateReceiver(second.receiver), Subscribe(second)]
            && CleanUpEffects(b.subscriptions, b.receivers, client)
                 == [CloseSubscription(second), CloseReceiver(first.receiver),
                     CloseReceiver(second.receiver), CloseClient(client)]
  {
    CollisionSecondBinding(strategy);
    CollisionCleanUp(client);
  }

  /** `cleanUp` after the colliding pair has been bound. */
  lemma CollisionCleanUp(client: BusClient)
    ensures var first := Receiver("ab", "c");
            var second := Receiver("a", "bc");
            var receivers := OrderedMap(["ab", "a"], map["ab" := first, "a" := second]);
            var subscriptions := OrderedMap(["abc"], map["abc" := Subscription(second)]);
            receivers.Valid() && subscriptions.Valid()
            && CleanUpEffects(subscriptions, receivers, client)
                 == [CloseSubscription(Subscription(second)), CloseReceiver(first),
                     CloseReceiver(second), CloseClient(client)]
  {
    var first := Receiver("ab", "c");
    var second := Receiver("a", "bc");
    var receivers := OrderedMap(["ab", "a"], map["ab" := first, "a" := second]);
    var subscriptions := OrderedMap(["abc"], map["abc" := Subscription(second)]);
    assert "a" != "ab";
    assert Values(subscriptions) == [Subscription(second)];
    assert Values(receivers) == [first, second];
    assert CloseReceivers([first, second]) == [CloseReceiver(first), CloseReceiver(second)] by {
      assert [first, second][..1] == [first];
    }
  }
}
