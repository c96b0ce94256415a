# k8s-sentry event handler, modelled in Dafny

k8s-sentry watches the events of a Kubernetes cluster and reports the
interesting ones to Sentry. This project models its core:

- the event handler of `application.go`: `handleEventAdd` classifies what the
  informer hands it (anything that is not a `*v1.Event` is reported as the
  message "Unexpected event type", a `Normal` event is dropped), and for every
  other event fills in a fresh `sentry.Event` field by field — platform
  "other", an environment taken from the configured default or else the
  object's namespace, logger "kubernetes", the message "Kind/Name: Message",
  the level from `getSentryLevel`, the creation time, a fingerprint of
  component, type, reason and message followed by the handler's segments,
  the default tags, then the computed tags, then the handler's tags, and the
  `count` and (when non-empty) `action` extra fields;
- the helpers `skipEvent`, `getSentryLevel`, `getEventFingerprint` and `copyTags`;
- the default-tag parser `parseTags` of `main.go`, together with the parts of
  Go's `strings.Split` and `fmt.Sprintf` it and the handler depend on.

`handleEventAdd` is a method (`Application.HandleEventAdd`) that allocates a
`SentryEvent` object and updates its fields in the source's order, with
`CopyTags` as a loop over a map field; its result is proved equal to the pure
specification `Application.Handle`, about which the properties are proved as
lemmas. `parseTags` is a method with a loop (`TagParsing.ParseTags`) proved
equal to the pure fold `TagParsing.ParsedTags`, about which failure, success,
last-write-wins and the round trip are proved.

Files: `wrappers.dfy` (the `Result` type), `go_strings.dfy` (Go's `strings.Split`,
`strings.Join`, and `fmt.Sprintf` with `%s`), `tag_parsing.dfy` (`parseTags`),
`application.dfy` (the event handler).

## Model

| member | source | states |
|---|---|---|
| GoStrings.Split | main.go:111-112 | `strings.Split` with a one-character separator yields one more piece than there are separators (so "" yields [""]), no piece holds the separator, every character of a piece comes from the input |
| GoStrings.CountZero | main.go:112-113 | a separator count of zero means the separator does not occur, so such a string splits into one piece |
| GoStrings.JoinSplit | main.go:111-112 | joining the pieces of a split with the separator restores the string |
| GoStrings.SplitJoin | main.go:111-112 | splitting a join of one or more separator-free pieces gives back exactly those pieces |
| TagParsing.ParseTags | main.go:109-124 | the loop of `parseTags` returns exactly `ParsedTags(tags)`: an error for the first entry that is not key=value, else the map of all entries |
| TagParsing.SegmentsFailure | main.go:111-115 | the loop fails iff some remaining entry does not hold exactly one '=', and the error names the first such entry |
| TagParsing.SegmentsSuccess | main.go:111-121 | on success every entry was key=value, the keys are those already present plus those written, and each written key holds the value of its last entry |
| TagParsing.ParseFailure | main.go:109-124 | `parseTags` fails iff some ','-separated entry lacks exactly one '=' (covers "a=1,b", "a=1=2" and empty entries); the error names the first one and carries no map |
| TagParsing.ParseSuccess | main.go:109-124 | on success the key set is the set of entry keys, each key maps to the value of the last entry with that key, and no key or value contains ',' or '=' |
| TagParsing.ParseEmpty | main.go:109-124 | the empty string is rejected with `invalid tag ''`, because it splits into the single entry "" |
| TagParsing.ParseExample | main.go:109-124 | "a=1,b=2" parses to {a: 1, b: 2} |
| TagParsing.ParseMissingValue | main.go:112-115 | "a=1,b" is rejected, naming the entry "b" |
| TagParsing.ParseDoubleEquals | main.go:112-115 | "a=1=2" is rejected, naming the whole entry |
| TagParsing.Pairs | main.go:111-112 | rendering entries gives one "key=value" string per entry, in order |
| TagParsing.SplitPair | main.go:112-118 | a key and a value free of '=' joined by '=' split back into that key and value |
| TagParsing.ParsePairs | main.go:111-121 | parsing rendered clean entries stores them in order, a later entry overwriting an earlier one |
| TagParsing.RoundTripEntries | main.go:109-124 | parsing any non-empty list of clean entries rendered as "k=v,k=v" succeeds with those entries stored in order |
| TagParsing.StoreEnumeration | main.go:117-119 | storing the bindings of a map one by one, in any order, lays the map over what was there |
| TagParsing.RoundTrip | main.go:109-124 | for a non-empty map whose keys and values hold no ',' or '=', rendering its bindings in any order and parsing gives back the map |
| Application.SentryLevelCases | application.go:138-147 | `getSentryLevel` gives warning exactly for "Warning", error exactly for "Error", and info for every other type |
| Application.EventFingerprint | application.go:150-162 | `getEventFingerprint` has nine segments: component, API version, kind, namespace, name, field path, type, reason, message, in that order |
| Application.Environment | application.go:93-97 | the environment is the configured default when non-empty, else the involved object's namespace |
| Application.MessageFormatExpands | application.go:100 | formatting "%s/%s: %s" with three strings gives kind + "/" + name + ": " + message |
| Application.AlertMessageFormat | application.go:100 | the alert message is the kind, "/", the name, ": ", then the event's message |
| Application.AlertFingerprintOrder | application.go:103-108 | the fingerprint has 4 + (handler segments) entries: component, type, reason, message, then the handler's segments unchanged |
| Application.AlertExtraContents | application.go:119-122 | the extra map holds `count` always, `action` exactly when the action is non-empty, with those values, and nothing else |
| Application.AlertHeader | application.go:92-102 | the alert has platform "other", logger "kubernetes", the environment rule, the event's level and its creation time |
| Application.ComputedTagsContents | application.go:111-118 | the computed tags are exactly namespace, component, reason, kind, type, plus cluster when the cluster name is non-empty, with the event's values |
| Application.TagPrecedence | application.go:110-128 | in the alert's tags a handler tag beats a computed tag, which beats a default tag; untouched defaults survive; no key outside the three layers appears |
| Application.ClusterTag | application.go:113-115 | with a cluster name the cluster tag holds it unless the handler overrides it; without one the cluster tag appears only if a default or handler tag supplies it |
| Application.Handle | application.go:80-132 | a non-event yields `CaptureMessage("Unexpected event type")`, an event is dropped iff its type is "Normal" (`skipEvent`), every other event is captured with the built alert |
| Application.SentryEvent.constructor | application.go:91 | `sentry.NewEvent` starts with an empty fingerprint and empty tag and extra maps |
| Application.CopyTags | application.go:168-172 | `copyTags` leaves the event's tags as the old tags overridden by the given tags, whatever the iteration order |
| Application.TagWrites | application.go:111-118 | the six tag assignments, the cluster one conditional, lay exactly the computed tags over the tags present |
| Application.WriteComputedTags | application.go:111-118 | the event's tags become the old tags overridden by the computed tags; nothing else changes |
| Application.WriteExtra | application.go:119-122 | the event's extra map becomes the old one overridden by `count` and, when non-empty, `action`; nothing else changes |
| Application.NewSentryEvent | application.go:91-128 | the fields written one by one onto a fresh event make up exactly the specified alert |
| Application.HandleEventAdd | application.go:80-132 | the handler's outcome is exactly `Handle` of the notification |
| Application.UnhealthyPodScenario | application.go:80-132 | a Warning "Unhealthy" event of pod web-1 in namespace prod, with no default environment, becomes a warning alert in environment prod with message "Pod/web-1: Liveness probe failed", the five computed tags, count 3 and the expected leading fingerprint |

## Left out

- The informer of `monitorEvents` and `Run` (watch, resync, goroutine, stop channel) and the LRU cache of 500 entries created there: they only deliver notifications to the handler and remember pod terminations for the handlers.
- `NewEventHandler` and the per-kind handlers: their fingerprint segments and tags are parameters of `HandleEventAdd` (`handlerFingerprint`, `handlerTags`).
- `sentry.CaptureMessage`, `sentry.CaptureEvent`, `sentry.Init` and `Flush`: the handler's outcome is returned as an `Outcome` value instead of being sent.
- The log lines of `handleEventAdd` (line 130) and of `getSentryLevel` (line 145, printed for types other than Warning and Error): output only, no effect on the result.
- `CreationTimestamp.Unix()`: the event carries its creation time already as seconds (`creationTimestamp: int`).
- `sentry.NewEvent` defaults other than the empty fingerprint, tags and extra maps: every other field the handler reads is written before it is read.
- `main`, `createKubernetesClient`, `inCluster` and the reading of the environment variables: configuration is passed in as an `App` value; when the TAGS variable is empty, `parseTags` rejects it as shown by `ParseEmpty`, and that consequence for start-up is not modelled further.
- GoStrings.Split: only one-character separators, the only ones the core uses.
- GoStrings.Sprintf: only the `%s` verb with exactly one argument per verb, the only use in the core.
- The order of Go's map iteration is unspecified: `CopyTags` chooses the next key nondeterministically, so its contract holds for every order.
- The handler's tags at application.go:126-128 are copied by calling `CopyTags`, the same loop as `copyTags`, rather than by a second copy of that loop.
- Of `sentry.Event` only the fields the handler sets are modelled; the `Extra` values are restricted to the count and the action text.
