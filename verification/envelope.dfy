/**
 * Outbound envelope construction on the producer side (`buildMessage`): a
 * record merge by destructuring and spread. The adapter injects
 * `attemptCount: 0` and the caller's `contentEncoding` into the custom
 * properties, and caller-supplied `applicationProperties` override both; any
 * other option field is copied to the envelope, and `body` always comes from
 * the packet.
 */
module Envelope {
  import opened JsValues

  const SubjectKey := "subject"
  const ContentEncodingKey := "contentEncoding"
  const ApplicationPropertiesKey := "applicationProperties"
  const ScheduledEnqueueTimeKey := "scheduledEnqueueTimeUtc"
  const BodyKey := "body"
  const AttemptCountKey := "attemptCount"

  /** The option fields that are destructured by name; the rest are `messageFields`. */
  const NamedOptions: set<string> :=
    {SubjectKey, ContentEncodingKey, ApplicationPropertiesKey, ScheduledEnqueueTimeKey}

  /** The serialized packet: its body and its (required) options object. */
  datatype Packet = Packet(body: Value, options: map<string, Value>)

  /** `applicationProperties = {}`: the destructuring default applies only to `undefined`. */
  function CallerProperties(options: map<string, Value>): (props: map<string, Value>)
    ensures Lookup(options, ApplicationPropertiesKey).Obj? ==>
              props == Lookup(options, ApplicationPropertiesKey).fields
    ensures !Lookup(options, ApplicationPropertiesKey).Obj? ==> props == map[]
  {
    var v := Lookup(options, ApplicationPropertiesKey);
    Spread(if v == Undefined then Obj(map[]) else v)
  }

  /** `...messageFields`: every option field that is not destructured by name. */
  function MessageFields(options: map<string, Value>): (fields: map<string, Value>)
    ensures fields.Keys == options.Keys - NamedOptions
    ensures forall k :: k in fields ==> fields[k] == options[k]
  {
    map k | k in options && k !in NamedOptions :: options[k]
  }

  /** `buildMessage(packet)`. */
  function BuildMessage(packet: Packet): (envelope: map<string, Value>)
    ensures envelope.Keys ==
              {SubjectKey, ApplicationPropertiesKey, ScheduledEnqueueTimeKey, BodyKey}
              + (packet.options.Keys - NamedOptions)
    // the body comes from the packet, whatever the options hold
    ensures envelope[BodyKey] == packet.body
    // named fields are copied, present even when undefined
    ensures envelope[SubjectKey] == Lookup(packet.options, SubjectKey)
    ensures envelope[ScheduledEnqueueTimeKey] == Lookup(packet.options, ScheduledEnqueueTimeKey)
    // every other option field is copied unchanged
    ensures forall k :: k in packet.options && k !in NamedOptions && k != BodyKey ==>
              envelope[k] == packet.options[k]
    // custom properties: defaults, overridden by the caller's own
    ensures envelope[ApplicationPropertiesKey].Obj?
    ensures var props := envelope[ApplicationPropertiesKey].fields;
            var caller := CallerProperties(packet.options);
            && props.Keys == caller.Keys + {ContentEncodingKey, AttemptCountKey}
            && (forall k :: k in caller ==> props[k] == caller[k])
            && (AttemptCountKey !in caller ==> props[AttemptCountKey] == Num(0))
            && (ContentEncodingKey !in caller ==>
                  props[ContentEncodingKey] == Lookup(packet.options, ContentEncodingKey))
  {
    var options := packet.options;
    var props := map[ContentEncodingKey := Lookup(options, ContentEncodingKey), AttemptCountKey := Num(0)]
                 + CallerProperties(options);
    var named := map[SubjectKey := Lookup(options, SubjectKey),
                     ApplicationPropertiesKey := Obj(props),
                     ScheduledEnqueueTimeKey := Lookup(options, ScheduledEnqueueTimeKey)];
    (named + MessageFields(options))[BodyKey := packet.body]
  }

  /**
   * A message emitted with only a body and empty options carries
   * `attemptCount: 0` and an undefined `contentEncoding`, and is sent
   * without a schedule.
   */
  lemma FreshEmitStartsAtZero(body: Value)
    ensures var envelope := BuildMessage(Packet(body, map[]));
            && envelope[ApplicationPropertiesKey]
                 == Obj(map[ContentEncodingKey := Undefined, AttemptCountKey := Num(0)])
            && !Truthy(envelope[ScheduledEnqueueTimeKey])
  {
    var envelope := BuildMessage(Packet(body, map[]));
    var props := envelope[ApplicationPropertiesKey].fields;
    assert props == map[ContentEncodingKey := Undefined, AttemptCountKey := Num(0)];
  }
}
