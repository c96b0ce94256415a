/** The event handler of application.go: it classifies a Kubernetes event, drops
    routine ones, and builds the Sentry event that is captured for the others. */
module Application {
  import opened GoStrings

  /** A 32-bit signed integer, the Go type of `v1.Event.Count`. */
  newtype int32 = x: int | -0x8000_0000 <= x < 0x8000_0000

  /** The fields of `v1.ObjectReference` the handler reads. */
  datatype ObjectReference = ObjectReference(
    kind: string,
    namespace: string,
    name: string,
    apiVersion: string,
    fieldPath: string)

  /** The field of `v1.EventSource` the handler reads. */
  datatype EventSource = EventSource(component: string)

  /** The fields of `v1.Event` the handler reads; `creationTimestamp` is already
      in seconds since the epoch. */
  datatype Event = Event(
    eventType: string,
    reason: string,
    message: string,
    source: EventSource,
    involvedObject: ObjectReference,
    creationTimestamp: int,
    count: int32,
    action: string,
    clusterName: string)

  /** What the informer passes to `handleEventAdd`: normally a `*v1.Event`, but
      the parameter is an untyped `interface{}`. */
  datatype Notification = EventAdded(evt: Event) | OtherObject

  /** The Sentry levels the handler produces. */
  datatype Level = Info | Warning | Error

  /** Values of the `Extra` map: the occurrence count or the action text. */
  datatype ExtraValue = IntValue(n: int) | StringValue(s: string)

  /** The fields of `sentry.Event` the handler sets. */
  datatype Alert = Alert(
    platform: string,
    environment: string,
    logger: string,
    message: string,
    level: Level,
    timestamp: int,
    fingerprint: seq<string>,
    tags: map<string, string>,
    extra: map<string, ExtraValue>)

  /** What one call of `handleEventAdd` hands to Sentry: nothing,
      `CaptureMessage(text)`, or `CaptureEvent(alert)`. */
  datatype Outcome = Dropped | CapturedMessage(text: string) | CapturedEvent(alert: Alert)

  /** The configuration fields of `application` (the client set and the
      termination cache belong to the handler and the watch, not modelled here). */
  datatype App = App(
    defaultEnvironment: string,
    release: string,
    namespace: string,
    defaultTags: map<string, string>)

  const EventTypeNormal := "Normal"
  const EventTypeWarning := "Warning"
  const EventTypeError := "Error"
  const UnexpectedEventType := "Unexpected event type"
  const Platform := "other"
  const Logger := "kubernetes"

  /** `skipEvent`: routine events are not reported. */
  predicate SkipEvent(evt: Event)
  {
    evt.eventType == EventTypeNormal
  }

  /** `getSentryLevel`: the severity is total over all event types. */
  function SentryLevel(evt: Event): (level: Level)
  {
    if evt.eventType == EventTypeWarning then Warning
    else if evt.eventType == EventTypeError then Error
    else Info
  }

  /** `getEventFingerprint`: nine segments identifying the event in full. */
  function EventFingerprint(evt: Event): (fp: seq<string>)
    ensures |fp| == 9
    ensures fp[0] == evt.source.component
    ensures fp[1] == evt.involvedObject.apiVersion
    ensures fp[2] == evt.involvedObject.kind
    ensures fp[3] == evt.involvedObject.namespace
    ensures fp[4] == evt.involvedObject.name
    ensures fp[5] == evt.involvedObject.fieldPath
    ensures fp[6] == evt.eventType
    ensures fp[7] == evt.reason
    ensures fp[8] == evt.message
  {
    [ evt.source.component,
      evt.involvedObject.apiVersion,
      evt.involvedObject.kind,
      evt.involvedObject.namespace,
      evt.involvedObject.name,
      evt.involvedObject.fieldPath,
      evt.eventType,
      evt.reason,
      evt.message ]
  }

  /** The environment: the configured default unless that is empty, else the
      namespace of the involved object. */
  function Environment(app: App, evt: Event): (env: string)
    ensures app.defaultEnvironment != "" ==> env == app.defaultEnvironment
    ensures app.defaultEnvironment == "" ==> env == evt.involvedObject.namespace
  {
    if app.defaultEnvironment != "" then app.defaultEnvironment else evt.involvedObject.namespace
  }

  const MessageFormat := "%s/%s: %s"

  /** "%s/%s: %s" holds three verbs. */
  lemma MessageFormatVerbs()
    ensures Verbs(MessageFormat) == 3
  {
    assert MessageFormat[2..][1..][2..][1..][1..][2..] == "";
  }

  /** Formatting with "%s/%s: %s" places the three arguments around "/" and ": ". */
  lemma {:induction false} MessageFormatExpands(kind: string, name: string, message: string)
    ensures Verbs(MessageFormat) == 3
    ensures Sprintf(MessageFormat, [kind, name, message]) == kind + "/" + name + ": " + message
  {
    var f0 := MessageFormat;
    var f1 := "/%s: %s";
    var f2 := "%s: %s";
    var f3 := ": %s";
    var f4 := " %s";
    var f5 := "%s";
    assert f0[2..] == f1 && f1[1..] == f2 && f2[2..] == f3 && f3[1..] == f4 && f4[1..] == f5 && f5[2..] == "";
    assert Verbs(f5) == 1 && Verbs(f4) == 1 && Verbs(f3) == 1;
    assert Verbs(f2) == 2 && Verbs(f1) == 2 && Verbs(f0) == 3;
    var args := [kind, name, message];
    assert args[1..] == [name, message] && args[1..][1..] == [message];
    assert Sprintf(f5, [message]) == message + "";
    assert Sprintf(f4, [message]) == " " + message;
    assert Sprintf(f3, [message]) == ":" + (" " + message);
    assert Sprintf(f2, [name, message]) == name + (":" + (" " + message));
    assert Sprintf(f1, [name, message]) == "/" + (name + (":" + (" " + message)));
    assert Sprintf(f0, args) == kind + ("/" + (name + (":" + (" " + message))));
  }

  /** The message, formatted with "%s/%s: %s" from the kind, the name and the
      event's own message (application.go:100). */
  function AlertMessage(evt: Event): string
  {
    MessageFormatVerbs();
    Sprintf(MessageFormat, [evt.involvedObject.kind, evt.involvedObject.name, evt.message])
  }

  /** The fingerprint: the four base segments, then the handler's segments. */
  function AlertFingerprint(evt: Event, handlerFingerprint: seq<string>): seq<string>
  {
    [evt.source.component, evt.eventType, evt.reason, evt.message] + handlerFingerprint
  }

  /** The tags computed from the event itself; `cluster` only for a non-empty
      cluster name. */
  function ComputedTags(evt: Event): map<string, string>
  {
    var tags := map[
      "namespace" := evt.involvedObject.namespace,
      "component" := evt.source.component,
      "reason" := evt.reason,
      "kind" := evt.involvedObject.kind,
      "type" := evt.eventType];
    if evt.clusterName != "" then tags["cluster" := evt.clusterName] else tags
  }

  /** The tag layers: default tags, overridden by the computed tags, overridden by
      the handler's tags. */
  function AlertTags(defaults: map<string, string>, evt: Event, handlerTags: map<string, string>): map<string, string>
  {
    defaults + ComputedTags(evt) + handlerTags
  }

  /** The extra fields: always the count, the action only when it is non-empty. */
  function AlertExtra(evt: Event): (extra: map<string, ExtraValue>)
  {
    var extra := if evt.action != "" then map["action" := StringValue(evt.action)] else map[];
    extra["count" := IntValue(evt.count as int)]
  }

  /** The Sentry event built for a reported Kubernetes event; the handler's
      fingerprint and tags are inputs. */
  function BuildAlert(app: App, evt: Event, handlerFingerprint: seq<string>, handlerTags: map<string, string>): Alert
  {
    Alert(
      Platform,
      Environment(app, evt),
      Logger,
      AlertMessage(evt),
      SentryLevel(evt),
      evt.creationTimestamp,
      AlertFingerprint(evt, handlerFingerprint),
      AlertTags(app.defaultTags, evt, handlerTags),
      AlertExtra(evt))
  }

  /** `getSentryLevel`: a Warning event is reported at warning level, an Error
      event at error level, and every other type (Normal included) at info. */
  lemma SentryLevelCases(evt: Event)
    ensures SentryLevel(evt) == Warning <==> evt.eventType == EventTypeWarning
    ensures SentryLevel(evt) == Error <==> evt.eventType == EventTypeError
    ensures SentryLevel(evt) == Info <==> evt.eventType != EventTypeWarning && evt.eventType != EventTypeError
  {
  }

  /** The built alert's fixed fields: platform "other", logger "kubernetes", the
      environment rule, the event's level and its creation time. */
  lemma AlertHeader(app: App, evt: Event, handlerFingerprint: seq<string>, handlerTags: map<string, string>)
    ensures
      var a := BuildAlert(app, evt, handlerFingerprint, handlerTags);
      && a.platform == "other"
      && a.logger == "kubernetes"
      && (app.defaultEnvironment != "" ==> a.environment == app.defaultEnvironment)
      && (app.defaultEnvironment == "" ==> a.environment == evt.involvedObject.namespace)
      && a.level == SentryLevel(evt)
      && a.timestamp == evt.creationTimestamp
  {
  }

  /** The message reads kind, "/", name, ": ", then the event's own message. */
  lemma AlertMessageFormat(evt: Event)
    ensures AlertMessage(evt) == evt.involvedObject.kind + "/" + evt.involvedObject.name + ": " + evt.message
  {
    MessageFormatExpands(evt.involvedObject.kind, evt.involvedObject.name, evt.message);
  }

  /** The fingerprint holds the component, type, reason and message, in that
      order, followed by the handler's segments unchanged. */
  lemma AlertFingerprintOrder(evt: Event, handlerFingerprint: seq<string>)
    ensures
      var fp := AlertFingerprint(evt, handlerFingerprint);
      && |fp| == 4 + |handlerFingerprint|
      && fp[..4] == [evt.source.component, evt.eventType, evt.reason, evt.message]
      && fp[4..] == handlerFingerprint
  {
    var fp := AlertFingerprint(evt, handlerFingerprint);
    assert fp[4..] == handlerFingerprint;
  }

  /** The extra fields: the count always, the action exactly when it is
      non-empty, and nothing else. */
  lemma AlertExtraContents(evt: Event)
    ensures AlertExtra(evt).Keys == {"count"} + (if evt.action != "" then {"action"} else {})
    ensures AlertExtra(evt)["count"] == IntValue(evt.count as int)
    ensures evt.action != "" ==> AlertExtra(evt)["action"] == StringValue(evt.action)
  {
  }

  /** The computed tags: exactly namespace, component, reason, kind and type, plus
      cluster when the cluster name is non-empty, holding the event's fields. */
  lemma ComputedTagsContents(evt: Event)
    ensures ComputedTags(evt).Keys == {"namespace", "component", "reason", "kind", "type"}
                                      + (if evt.clusterName != "" then {"cluster"} else {})
    ensures ComputedTags(evt)["namespace"] == evt.involvedObject.namespace
    ensures ComputedTags(evt)["component"] == evt.source.component
    ensures ComputedTags(evt)["reason"] == evt.reason
    ensures ComputedTags(evt)["kind"] == evt.involvedObject.kind
    ensures ComputedTags(evt)["type"] == evt.eventType
    ensures evt.clusterName != "" ==> ComputedTags(evt)["cluster"] == evt.clusterName
  {
  }

  /** Tag precedence of the built alert: a handler tag wins over a computed tag,
      a computed tag over a default tag, an untouched default survives, and no
      other key appears. */
  lemma TagPrecedence(app: App, evt: Event, handlerFingerprint: seq<string>, handlerTags: map<string, string>)
    ensures
      var tags := BuildAlert(app, evt, handlerFingerprint, handlerTags).tags;
      var computed := ComputedTags(evt);
      && tags.Keys == app.defaultTags.Keys + computed.Keys + handlerTags.Keys
      && (forall k :: k in handlerTags ==> tags[k] == handlerTags[k])
      && (forall k :: k !in handlerTags && k in computed ==> tags[k] == computed[k])
      && (forall k :: k !in handlerTags && k !in computed && k in app.defaultTags ==> tags[k] == app.defaultTags[k])
  {
  }

  /** The cluster tag: set from the cluster name unless the handler overrides it;
      with an empty cluster name the builder itself never writes it. */
  lemma ClusterTag(app: App, evt: Event, handlerFingerprint: seq<string>, handlerTags: map<string, string>)
    ensures
      var tags := BuildAlert(app, evt, handlerFingerprint, handlerTags).tags;
      && (evt.clusterName != "" && "cluster" !in handlerTags ==> tags["cluster"] == evt.clusterName)
      && (evt.clusterName == "" ==>
            && ("cluster" in tags <==> "cluster" in app.defaultTags || "cluster" in handlerTags)
            && ("cluster" in handlerTags ==> tags["cluster"] == handlerTags["cluster"])
            && ("cluster" !in handlerTags && "cluster" in app.defaultTags ==> tags["cluster"] == app.defaultTags["cluster"]))
  {
  }

  /** What `handleEventAdd` hands to Sentry for one notification. */
  function Handle(app: App, obj: Notification, handlerFingerprint: seq<string>, handlerTags: map<string, string>): (out: Outcome)
    ensures out.CapturedMessage? <==> obj.OtherObject?
    ensures out.CapturedMessage? ==> out.text == UnexpectedEventType
    ensures out.Dropped? <==> obj.EventAdded? && obj.evt.eventType == EventTypeNormal
    ensures out.CapturedEvent? ==> out.alert == BuildAlert(app, obj.evt, handlerFingerprint, handlerTags)
  {
    match obj
    case OtherObject => CapturedMessage(UnexpectedEventType)
    case EventAdded(evt) =>
      if SkipEvent(evt) then Dropped
      else CapturedEvent(BuildAlert(app, evt, handlerFingerprint, handlerTags))
  }

  /** The `sentry.Event` that `handleEventAdd` fills in field by field. */
  class SentryEvent {
    var platform: string
    var environment: string
    var logger: string
    var message: string
    var level: Level
    var timestamp: int
    var fingerprint: seq<string>
    var tags: map<string, string>
    var extra: map<string, ExtraValue>

    /** `sentry.NewEvent`: empty tag and extra maps; every other field is set by
        the handler before the event is captured. */
    constructor ()
      ensures fingerprint == [] && tags == map[] && extra == map[]
    {
      platform, environment, logger, message := "", "", "", "";
      level, timestamp := Info, 0;
      fingerprint, tags, extra := [], map[], map[];
    }

    /** The current field values. */
    function Snapshot(): Alert
      reads this
    {
      Alert(platform, environment, logger, message, level, timestamp, fingerprint, tags, extra)
    }
  }

  /** `copyTags`: writes every binding of `tags` into the event's tags, in the
      unspecified order of Go's map iteration, so earlier tags with the same key
      are overwritten and all others kept. */
  method CopyTags(event: SentryEvent, tags: map<string, string>)
    modifies event`tags
    ensures event.tags == old(event.tags) + tags
  {
    var pending := tags.Keys;
    while pending != {}
      invariant pending <= tags.Keys
      invariant event.tags == old(event.tags) + (map k | k in tags.Keys - pending :: tags[k])
      decreases pending
    {
      var k :| k in pending;
      event.tags := event.tags[k := tags[k]];
      pending := pending - {k};
    }
    assert (map k | k in tags.Keys - {} :: tags[k]) == tags;
  }

  /** The six tag writes of application.go:111-118 lay the computed tags over `base`. */
  lemma TagWrites(base: map<string, string>, evt: Event, tags: map<string, string>)
    requires tags == (
      var t := base["namespace" := evt.involvedObject.namespace]["component" := evt.source.component];
      var t := if evt.clusterName != "" then t["cluster" := evt.clusterName] else t;
      t["reason" := evt.reason]["kind" := evt.involvedObject.kind]["type" := evt.eventType])
    ensures tags == base + ComputedTags(evt)
  {
  }

  /** application.go:111-118: the computed tags are written over the event's
      tags, one key at a time. */
  method WriteComputedTags(event: SentryEvent, evt: Event)
    modifies event`tags
    ensures event.tags == old(event.tags) + ComputedTags(evt)
  {
    var tags := event.tags;
    tags := tags["namespace" := evt.involvedObject.namespace];
    tags := tags["component" := evt.source.component];
    if evt.clusterName != "" {
      tags := tags["cluster" := evt.clusterName];
    }
    tags := tags["reason" := evt.reason];
    tags := tags["kind" := evt.involvedObject.kind];
    tags := tags["type" := evt.eventType];
    TagWrites(event.tags, evt, tags);
    event.tags := tags;
  }

  /** application.go:119-122: the action, when non-empty, and the count are
      written into the event's extra fields. */
  method WriteExtra(event: SentryEvent, evt: Event)
    modifies event`extra
    ensures event.extra == old(event.extra) + AlertExtra(evt)
  {
    if evt.action != "" {
      event.extra := event.extra["action" := StringValue(evt.action)];
    }
    event.extra := event.extra["count" := IntValue(evt.count as int)];
  }

  /** The field values `handleEventAdd` writes make up the built alert. */
  lemma WrittenFieldsMakeAlert(app: App, evt: Event, handlerFingerprint: seq<string>, handlerTags: map<string, string>, a: Alert)
    requires a.platform == Platform && a.logger == Logger
    requires a.environment == if app.defaultEnvironment != "" then app.defaultEnvironment else evt.involvedObject.namespace
    requires a.message == AlertMessage(evt)
    requires a.level == SentryLevel(evt) && a.timestamp == evt.creationTimestamp
    requires a.fingerprint == [evt.source.component, evt.eventType, evt.reason, evt.message] + handlerFingerprint
    requires a.tags == map[] + app.defaultTags + ComputedTags(evt) + handlerTags
    requires a.extra == map[] + AlertExtra(evt)
    ensures a == BuildAlert(app, evt, handlerFingerprint, handlerTags)
  {
    assert map[] + app.defaultTags == app.defaultTags;
    assert map[] + AlertExtra(evt) == AlertExtra(evt);
  }

  /** The Sentry event of application.go:91-128, assembled field by field on a
      fresh `sentry.Event`; the handler's fingerprint and tags are inputs. */
  method NewSentryEvent(app: App, evt: Event, handlerFingerprint: seq<string>, handlerTags: map<string, string>)
    returns (alert: Alert)
    ensures alert == BuildAlert(app, evt, handlerFingerprint, handlerTags)
  {
    var sentryEvent := new SentryEvent();
    sentryEvent.platform := Platform;
    if app.defaultEnvironment != "" {
      sentryEvent.environment := app.defaultEnvironment;
    } else {
      sentryEvent.environment := evt.involvedObject.namespace;
    }
    sentryEvent.logger := Logger;
    sentryEvent.message := AlertMessage(evt);
    sentryEvent.level := SentryLevel(evt);
    sentryEvent.timestamp := evt.creationTimestamp;
    sentryEvent.fingerprint := [evt.source.component, evt.eventType, evt.reason, evt.message];

    CopyTags(sentryEvent, app.defaultTags);
    WriteComputedTags(sentryEvent, evt);
    WriteExtra(sentryEvent, evt);

    sentryEvent.fingerprint := sentryEvent.fingerprint + handlerFingerprint;
    // application.go:126-128 runs the same loop as copyTags, inline
    CopyTags(sentryEvent, handlerTags);

    alert := Alert(
      sentryEvent.platform, sentryEvent.environment, sentryEvent.logger, sentryEvent.message,
      sentryEvent.level, sentryEvent.timestamp, sentryEvent.fingerprint, sentryEvent.tags, sentryEvent.extra);
    WrittenFieldsMakeAlert(app, evt, handlerFingerprint, handlerTags, alert);
  }

  /** `handleEventAdd`, with the output of `NewEventHandler` given as
      `handlerFingerprint` and `handlerTags`: anything but an event is reported
      as an anomaly, routine events are dropped, all others are captured. */
  method HandleEventAdd(app: App, obj: Notification, handlerFingerprint: seq<string>, handlerTags: map<string, string>)
    returns (out: Outcome)
    ensures out == Handle(app, obj, handlerFingerprint, handlerTags)
  {
    if !obj.EventAdded? {
      return CapturedMessage(UnexpectedEventType);
    }
    var evt := obj.evt;
    if SkipEvent(evt) {
      return Dropped;
    }
    var alert := NewSentryEvent(app, evt, handlerFingerprint, handlerTags);
    out := CapturedEvent(alert);
  }

  /** A warning about a failing liveness probe, with no default environment,
      becomes an alert in the pod's namespace with the expected message, level,
      tags, count and leading fingerprint segments. */
  lemma UnhealthyPodScenario(handlerFingerprint: seq<string>)
    ensures
      var evt := Event("Warning", "Unhealthy", "Liveness probe failed", EventSource("kubelet"),
                       ObjectReference("Pod", "prod", "web-1", "v1", ""), 0, 3, "", "");
      var out := Handle(App("", "", "", map[]), EventAdded(evt), handlerFingerprint, map[]);
      && out.CapturedEvent?
      && out.alert.environment == "prod"
      && out.alert.message == "Pod" + "/" + "web-1" + ": " + "Liveness probe failed"
      && out.alert.level == Warning
      && out.alert.tags == map["namespace" := "prod", "component" := "kubelet", "reason" := "Unhealthy",
                               "kind" := "Pod", "type" := "Warning"]
      && out.alert.extra == map["count" := IntValue(3)]
      && out.alert.fingerprint[..4] == ["kubelet", "Warning", "Unhealthy", "Liveness probe failed"]
  {
    var evt := Event("Warning", "Unhealthy", "Liveness probe failed", EventSource("kubelet"),
                     ObjectReference("Pod", "prod", "web-1", "v1", ""), 0, 3, "", "");
    var app := App("", "", "", map[]);
    AlertMessageFormat(evt);
    AlertFingerprintOrder(evt, handlerFingerprint);
    var a := BuildAlert(app, evt, handlerFingerprint, map[]);
    assert Handle(app, EventAdded(evt), handlerFingerprint, map[]) == CapturedEvent(a);
    assert a.environment == "prod";
    assert a.level == Warning;
    assert a.tags == ComputedTags(evt) by {
      assert map[] + ComputedTags(evt) + map[] == ComputedTags(evt);
    }
    assert a.extra == map["count" := IntValue(3)];
    assert a.fingerprint[..4] == ["kubelet", "Warning", "Unhealthy", "Liveness probe failed"];
  }
}
