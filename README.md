# bugs-channel core, modelled in Dafny

bugs-channel receives error events from client SDKs, resolves the sending
service from its auth key, scrubs sensitive data out of each event and
publishes the event to a queue (NATS or Redis). This project models the
sequential logic of that pipeline and proves properties of it:

- **the scrubber** (`scrub.dfy`, module `Scrub`). It rewrites an event's
  `Extra` tree and its `Tags` so that values under sensitive keys become
  `"*"`. The tree is the closed datatype `PluginEvent.Value`, which stands
  in for the `reflect` dispatch. A value is a scalar, a nested map, a
  slice of maps, or any other slice. `ScrubSensitiveEvent` updates the
  event through a pointer (`EventRef`); the helpers are recursive
  functions.
- **the auth-key resolver** (`service.dfy`, module `Service`). It makes a
  first-match scan over the configured services and their keys, skipping
  disabled and expired keys. The clock is the parameter `now`.
- **the event dispatcher** (`dispatcher.dfy`, module `EventDispatch`),
  working against the `Queue` interface (`queue.dfy`, module `Storage`).
  - A queue is a class holding the messages it has accepted, in order.
  - An oracle `refuse(n, message)` decides whether a publish fails. `n` is
    the number of messages accepted before it. The verdict depends on
    nothing else, so a message refused once is refused again when offered
    at the same count: a transient backend error followed by success on
    retry cannot be expressed.
  - `Event.Json()` is the parameter `json`, a serialiser that may fail.
  - The logrus output is the ghost field `log`.
  - `DispatchMany` is a loop proved against the specification function
    `Dispatched`.
- **the settings** (`config.dfy`, module `Config`). The process
  environment is a `map<string, string>` parameter. An unset name reads
  as "", as `os.Getenv` does.

Shared pieces:
- `strings.dfy` models `strings.Split` and `strings.Join` for a
  one-character separator, with their round-trip lemmas.
- `wrappers.dfy` holds `Option`, `Result`, Go's `error`, and `int64`.

A tag keeps only the segment between its first and second colon;
`TagTailDropped` proves that everything from a second colon on is lost
(`pkg/scrub/scrub.go:59-61`).

## Model

| member | source | states |
|---|---|---|
| Scrub.ScrubValue | pkg/scrub/scrub.go:23-38 | a scalar under a sensitive key becomes "*" and under any other key is unchanged; a nested map stays a map with the same keys; a slice of maps stays one of the same length; any other slice passes through untouched, even under a sensitive key |
| Scrub.ScrubMap | pkg/scrub/scrub.go:20-41 | the output map has exactly the input's key set |
| Scrub.ScrubList | pkg/scrub/scrub.go:45-52 | a slice of maps keeps its length, and each element keeps its key set |
| Scrub.ScrubTag | pkg/scrub/scrub.go:58-67 | the key is the text before the first colon; the value becomes "*" when the key is sensitive and is otherwise the text between the first and second colons |
| Scrub.ScrubTags | pkg/scrub/scrub.go:55-70 | tags keep their count and order, and each is rewritten by ScrubTag; a tag without a colon is excluded because Go panics on `values[1]` |
| Scrub.ScrubEvent | pkg/scrub/scrub.go:14-17 | only Extra and Tags change; ID, ServiceId, Platform and StackTrace are left as they were |
| Scrub.EventRef.constructor | pkg/scrub/scrub.go:14 | the pointer refers to the given event |
| Scrub.ScrubSensitiveEvent | pkg/scrub/scrub.go:14-17 | the event behind the pointer becomes its scrubbed copy |
| Scrub.ScrubAt | pkg/scrub/scrub.go:20-53 | scrubbing commutes with navigation: every path through maps and slices of maps reaches the scrubbed value under its own enclosing key, and reaches nothing where the input has nothing |
| Scrub.RedactsAtEveryDepth | pkg/scrub/scrub.go:29-35 | at any depth, a scalar under a sensitive key becomes "*", and one under another key is unchanged |
| Scrub.KeepsStructure | pkg/scrub/scrub.go:20-41 | at every depth the output has the input's shape: same key sets, same slice lengths, other slices untouched |
| Scrub.NestedMapIsWalked | pkg/scrub/scrub.go:29-31 | a nested map is recursed into, never replaced by "*", even under a sensitive key |
| Scrub.ScrubValueIdempotent | pkg/scrub/scrub.go:23-38 | scrubbing a value twice gives what scrubbing once gives |
| Scrub.ScrubMapIdempotent | pkg/scrub/scrub.go:20-41 | scrubbing a map twice gives what scrubbing once gives |
| Scrub.ScrubListIdempotent | pkg/scrub/scrub.go:45-52 | scrubbing a slice of maps twice gives what scrubbing once gives |
| Scrub.ScrubTagWellFormed | pkg/scrub/scrub.go:63-67 | a rewritten tag has exactly one colon |
| Scrub.ScrubTagIdempotent | pkg/scrub/scrub.go:58-67 | rewriting a rewritten tag changes nothing |
| Scrub.ScrubTagsIdempotent | pkg/scrub/scrub.go:55-70 | rewritten tags stay well formed, and rewriting them again changes nothing |
| Scrub.ScrubEventIdempotent | pkg/scrub/scrub.go:14-17 | scrubbing an already scrubbed event with the same keys changes nothing |
| Scrub.TagWithOneColonKept | pkg/scrub/scrub.go:59-67 | a tag with one colon and a non-sensitive key comes out unchanged |
| Scrub.TagTailDropped | pkg/scrub/scrub.go:59-67 | a tag with two or more colons and a non-sensitive key is cut just before its second colon |
| Scrub.TagScrubbed | pkg/scrub/scrub.go:59-67 | `k:v` with colon-free `k` and `v` becomes `k:*` when `k` is sensitive, and stays `k:v` otherwise |
| Scrub.SimpleEventScrubbed | pkg/scrub/scrub_test.go:10-36 | the simple test event scrubs to the expected event: top-level password and secret become "*", the tags are rewritten, the stack trace is kept |
| Scrub.SimpleExtraScrubbed | pkg/scrub/scrub_test.go:15-28 | in the simple test's Extra, password and secret become "*" and message is kept |
| Scrub.SimpleTagsScrubbed | pkg/scrub/scrub_test.go:19-32 | the simple test's tags become "secret:*", "password:*", "app:foo" |
| Scrub.ComplexEventScrubbed | pkg/scrub/scrub_test.go:38-74 | the complex test event scrubs to the expected event, with redactions two maps deep and inside a slice of maps |
| Scrub.ComplexExtraScrubbed | pkg/scrub/scrub_test.go:43-66 | user.credentials.pwd and keys[0].secret become "*", and message is kept |
| Scrub.ComplexTagsScrubbed | pkg/scrub/scrub_test.go:53-70 | the complex test's tags become "secret:*", "pwd:*", "app:foo" |
| Strings.JoinSplit | pkg/config/config.go:80 | joining the pieces of a split gives the string back |
| Strings.SplitJoin | pkg/config/config.go:80 | splitting a join of separator-free pieces gives the pieces back |
| Strings.SplitLength | pkg/config/config.go:80 | a split has one piece more than there are separators |
| Strings.SplitHead | pkg/scrub/scrub.go:59-60 | the first piece of a split is the text before the first separator |
| Service.HasQualifyingKey | pkg/service/service_fetcher.go:25-29 | the inner scan finds a key exactly when some key equals the one presented and is neither disabled nor expired |
| Service.FirstOwner | pkg/service/service_fetcher.go:24-30 | the outer scan finds nothing exactly when no service owns a qualifying key; otherwise it names the first such service in list order |
| Service.YAMLServiceFetcher.GetServiceByAuthKey | pkg/service/service_fetcher.go:19-35 | an empty key is refused; every refusal is the zero service with ErrServiceNotFound; success happens exactly when some service owns a qualifying key, and names the first such service |
| Service.NewYAMLServiceFetcher | pkg/service/service_fetcher.go:46-48 | the resolver keeps the list of services it is given |
| Service.ExpiryBoundary | pkg/service/service_fetcher.go:37-43 | expiredAt 0 never expires; otherwise a key is expired exactly when expiredAt < now, so expiredAt == now is still valid |
| Service.ExpiryMonotone | pkg/service/service_fetcher.go:37-43 | once expired, a key stays expired at every later time |
| Service.ResolvesEarlier | pkg/service/service_fetcher.go:26-43 | a key that resolves at some time also resolves at every earlier time |
| Service.DisabledNeverMatches | pkg/service/service_fetcher.go:26 | a key that is disabled wherever it appears never resolves, whatever its expiry |
| Service.UnusableKeyNotFound | pkg/service/service_fetcher.go:32-34 | unknown, disabled and expired keys all get the same zero service and ErrServiceNotFound |
| Service.EarlierServiceShadows | pkg/service/service_fetcher.go:24-28 | services added after the first owner of a key never change its answer |
| Service.NonOwnersTransparent | pkg/service/service_fetcher.go:24-30 | services without a qualifying key can be put in front without changing any answer |
| Service.FixtureLookups | pkg/service/service_fetcher_test.go:13-30 | with a fixture-shaped configuration, "key" resolves to service "1", "foo bar service", and "expiredKey" is not found |
| Storage.Queue.constructor | pkg/storage/queue.go:7-13 | a new queue has accepted nothing and keeps its refusal oracle |
| Storage.Queue.Mock | pkg/event/bugs_channel_dispatcher_test.go:36-38 | the test's mock queue starts empty and never refuses |
| Storage.Queue.Publish | pkg/storage/queue.go:8-9 | the result is the oracle's verdict; an accepted message is appended after those before it, a refused one changes nothing |
| EventDispatch.IngestLog | pkg/event/bugs_channel_dispatcher.go:31 | one ingest line per dispatched event, in order |
| EventDispatch.Attempts | pkg/event/bugs_channel_dispatcher.go:38-39 | the k-th event of a batch meets a queue that has accepted k more messages |
| EventDispatch.Run | pkg/event/bugs_channel_dispatcher.go:38-44 | a run sends one message per event that went through, never more than the events |
| EventDispatch.Dispatched | pkg/event/bugs_channel_dispatcher.go:37-47 | a batch sends one message per event that went through, never more than there are events |
| EventDispatch.BugsChannelEventsDispatcher.constructor | pkg/event/bugs_channel_dispatcher.go:13-15 | the dispatcher holds the given queue and has logged nothing |
| EventDispatch.BugsChannelEventsDispatcher.Dispatch | pkg/event/bugs_channel_dispatcher.go:18-34 | a serialisation error is returned with nothing published or logged; otherwise the body is offered once to "events", and a refusal is returned without a log line; success adds one message and one ingest line and returns nil |
| EventDispatch.BugsChannelEventsDispatcher.DispatchMany | pkg/event/bugs_channel_dispatcher.go:37-47 | the returned error, the messages published and the lines logged are exactly those of Dispatched: events in order, up to the first failure |
| EventDispatch.NewDispatcher | pkg/event/bugs_channel_dispatcher.go:50-52 | a fresh dispatcher bound to the given queue, with an empty log |
| EventDispatch.JsonFailureReturned | pkg/event/bugs_channel_dispatcher.go:19-23 | a serialisation failure is the step's error, and nothing is offered to the queue |
| EventDispatch.PublishedAsSerialised | pkg/event/bugs_channel_dispatcher.go:25-29 | a serialised event is offered to "events" with its serialisation as the body, and a refusal is returned unchanged |
| EventDispatch.AttemptsAppend | pkg/event/bugs_channel_dispatcher.go:38-39 | the attempts of a concatenated batch are those of its parts, the second part shifted by the first's length |
| EventDispatch.RunAppend | pkg/event/bugs_channel_dispatcher.go:38-44 | after a prefix that went through, the rest runs as if on its own, its messages after the prefix's |
| EventDispatch.RunStops | pkg/event/bugs_channel_dispatcher.go:40-42 | a run whose prefix fails is decided by that prefix |
| EventDispatch.DispatchedAppend | pkg/event/bugs_channel_dispatcher.go:38-44 | after a fully dispatched prefix, the rest of a batch meets a queue that has accepted that many more messages |
| EventDispatch.DispatchedAppendStops | pkg/event/bugs_channel_dispatcher.go:40-42 | a batch whose prefix fails is decided by that prefix; later events are not touched |
| EventDispatch.DispatchedSnoc | pkg/event/bugs_channel_dispatcher.go:38-44 | one more event either extends a dispatched prefix by its message, or its failure decides the whole batch |
| EventDispatch.RunInOrder | pkg/event/bugs_channel_dispatcher.go:38-46 | the messages sent are the leading successful attempts, in order; the run stops exactly at the first failed attempt |
| EventDispatch.DispatchedInOrder | pkg/event/bugs_channel_dispatcher.go:38-46 | events are published in input order; with no error every event went through; with an error exactly the events before the failing one were published |
| EventDispatch.BatchSucceedsIffAllDispatch | pkg/event/bugs_channel_dispatcher.go:37-46 | a batch returns nil exactly when every event in it dispatches |
| EventDispatch.EmptyBatch | pkg/event/bugs_channel_dispatcher.go:37-46 | an empty batch publishes nothing and returns nil |
| EventDispatch.AcceptingQueuePublishesAll | pkg/event/bugs_channel_dispatcher_test.go:41-44 | against a queue that accepts everything, serialisable events are all published, in order, to "events" |
| EventDispatch.DispatchThroughMock | pkg/event/bugs_channel_dispatcher_test.go:14-30 | through the mock queue, Dispatch returns nil, the mock's last message is the serialised event, and the ingest line with the event's ID is logged |
| Config.GetEnv | pkg/config/config.go:83-89 | an unset or empty variable gives the default; any other value is returned as it is |
| Config.ParseInt | pkg/config/config.go:54 | a parse succeeds only when an optional sign is followed by at least one character and every one of them is a decimal digit; a value after '-' is never positive, and one without '-' never negative |
| Config.ParsePlusSign | pkg/config/config.go:54 | a leading '+' before digits is accepted and does not change the result |
| Config.ParseLeadingZero | pkg/config/config.go:54 | a leading zero before digits does not change the result |
| Config.ParseMinusSign | pkg/config/config.go:54 | a leading '-' before digits that parse gives the negated value |
| Config.ParseRejectsNonDigit | pkg/config/config.go:54-58 | any character other than a digit after the optional sign makes the parse fail |
| Config.ParseFormat | pkg/config/config.go:38 | the decimal form of every int64 parses back to it |
| Config.ParseOutOfRange | pkg/config/config.go:54-58 | a well-formed number outside the int64 range is rejected |
| Config.LogLevel | pkg/config/config.go:20-22 | LOG_LEVEL as it is, "" when unset, with no default |
| Config.GoEnv | pkg/config/config.go:25-27 | GO_ENV as it is, "" when unset, with no default |
| Config.ApiPort | pkg/config/config.go:35-45 | 4000 when PORT is unset or empty; p when PORT is the decimal form of p; ErrInvalidPort exactly when a set PORT does not parse |
| Config.ConfigFile | pkg/config/config.go:48-50 | CONFIG_FILE as it is, "" when unset, with no default |
| Config.RateLimit | pkg/config/config.go:53-61 | 0 when WEB_RATE_LIMIT is unset, empty or unparseable; p when it is the decimal form of p |
| Config.NatsConnectionUrl | pkg/config/config.go:64-66 | NATS_URL as it is, "" when unset, with no default |
| Config.RedisConnectionUrl | pkg/config/config.go:69-71 | REDIS_URL as it is, "" when unset, with no default |
| Config.EventChannel | pkg/config/config.go:74-76 | EVENT_CHANNEL as it is, "" when unset, with no default |
| Config.ScrubSensitiveKeys | pkg/config/config.go:79-81 | the keys hold no comma and join back into the variable; there is one more key than there are commas; an unset variable gives the single empty key |
| Config.GetEnvNonEmpty | pkg/config/config.go:83-89 | a non-empty default is never answered with ""; the answer is always the variable or the default |
| Config.IsProductionExactly | pkg/config/config.go:30-32 | IsProduction holds exactly when GO_ENV is "production" |
| Config.ScrubSensitiveKeysOfList | pkg/config/config.go:79-81 | a comma-joined list of comma-free keys reads back as those keys |
| Config.GettersReturnWhatIsSet | pkg/config/config_test.go:9-57 | each plain getter returns the value the test sets; IsProduction holds for "production" and not for "test" |
| Config.ApiPortSet | pkg/config/config_test.go:29-32 | PORT=1000 gives 1000 |
| Config.RateLimitSet | pkg/config/config_test.go:39-42 | WEB_RATE_LIMIT=1 gives 1 |
| Config.ScrubSensitiveKeysSet | pkg/config/config_test.go:58-61 | "foo,bar" gives the keys "foo" and "bar" |

## Left out

- HTTP layer, rate limiter, process wiring: routing, CORS, the tollbooth limiter, its float64 rate, and graceful shutdown are I/O, concurrency and foreign libraries. `cmd/web/main.go:47-67` builds the queue from EVENT_CHANNEL. The model does not capture that any value other than "nats" or "redis" leaves the queue nil with no error.
- The NATS and Redis backends and `Queue.Subscribe` are network clients. A queue is only its accepted messages and a refusal oracle.
- `context.Context` arguments are dropped. No core operation reads them.
- `Event.Json()`, the event serialiser, lives in the plugins module; it is the parameter `json`.
- `settings.BuildConfigFile`, which loads the `ConfigFileService` list from YAML, is in `pkg/settings` and is not part of this model; `ConfigFileService` is a plain record.
- The fixture file `fixtures/settings/config.yml` is not part of this model. `Service.FixtureLookups` uses a configuration of the shape the test expects, with the expiry time and the clock as parameters.
- Logging is at most the ghost `log` of the dispatcher; no other logrus line is modelled.
- `time.Now()` is the parameter `now`, and `os.Getenv` reads the parameter `env`. Go reads the clock afresh for every candidate key it checks (`pkg/service/service_fetcher.go:42`), so one scan can see the clock cross a second boundary; the model reads one `now` per lookup.
- Scrubber panics on a nil `Extra` value or a map of another type: the closed `Value` datatype has no such values.
- `Scrub.ScrubList`, `Scrub.ScrubTags`: Go returns a nil slice for an empty input, and the model returns the empty sequence. Go's `assert.Equal` tells these apart; the model does not.
- Scalars are strings, integers and booleans; JSON floats are not modelled.
- `Config.ApiPort`: Go panics on a bad port, and the model returns a failure instead. The panic's error also wraps the strconv error through `errors.Join`, which the model reduces to ErrInvalidPort.
- `Config.ParseInt`: Go's `strconv.Atoi` and `ParseInt(s, 10, 64)` are modelled as one parser, an optional sign followed by decimal digits within the int64 range. Their distinct syntax and range error values are not modelled.
- `Service.YAMLServiceFetcher.GetServiceByAuthKey`: Go's debug log line for a missed key is not modelled.
