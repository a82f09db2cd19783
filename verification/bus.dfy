/**
 * The broker client library, abstracted as handles and a log of effects.
 * Every call the adapter makes on a `ServiceBusClient`, sender, receiver or
 * subscription appears as one `Effect` appended to the caller's log; the
 * broker's own behaviour (delivery, network failures) is not modelled.
 */
module Bus {
  import opened JsValues

  /** A connection, made from a connection string. */
  datatype BusClient = BusClient(connectionString: string)

  /** A sender for one topic (`client.createSender(topic)`). */
  datatype Sender = Sender(topic: string)

  /** A receiver for one (topic, subscription) pair (`client.createReceiver(topic, subscription)`). */
  datatype Receiver = Receiver(topic: string, subscription: string)

  /** The processing loop returned by `receiver.subscribe(...)`. */
  datatype Subscription = Subscription(receiver: Receiver)

  /**
   * A delivered message: its custom-properties bag, every other own field
   * (body, subject, message id, ...) and whether the remote side already
   * settled the delivery (`message.delivery.remote_settled`).
   */
  datatype ReceivedMessage = ReceivedMessage(
    applicationProperties: map<string, Value>,
    fields: map<string, Value>,
    remoteSettled: bool)

  datatype Effect =
    | OpenClient(client: BusClient)
    | CloseClient(client: BusClient)
    | CreateSender(sender: Sender)
    | CloseSender(sender: Sender)
    | CreateReceiver(receiver: Receiver)
    | CloseReceiver(receiver: Receiver)
    | Subscribe(subscription: Subscription)
    | CloseSubscription(subscription: Subscription)
      /** `sender.scheduleMessages(copies, new Date(at))` with `at` in milliseconds. */
    | ScheduleCopies(sender: Sender, copies: seq<ReceivedMessage>, at: int)
      /** `sender.scheduleMessages(envelope, enqueueTime)`. */
    | ScheduleEnvelope(sender: Sender, envelope: map<string, Value>, enqueueTime: Value)
      /** `sender.sendMessages(envelope)`. */
    | SendEnvelope(sender: Sender, envelope: map<string, Value>)
    | Complete(receiver: Receiver, message: ReceivedMessage)
    | DeadLetter(receiver: Receiver, message: ReceivedMessage, reason: string, description: string)

  /** Whether an effect settles a delivered message (completes or dead-letters it). */
  predicate Settles(e: Effect)
  {
    e.Complete? || e.DeadLetter?
  }

  /** How many effects of `effects` settle a message. */
  function Settlements(effects: seq<Effect>): nat
    decreases |effects|
  {
    if effects == [] then 0
    else Settlements(effects[..|effects| - 1]) + (if Settles(effects[|effects| - 1]) then 1 else 0)
  }
}
