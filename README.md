# Plausible Android SDK: event delivery, configuration and facade

This project models the core of the Plausible analytics SDK for Android (Kotlin) in Dafny and
proves properties of the model. It covers:

- **Delivery engine** (`NetworkFirstPlausibleClient`), modules `Protocol` and `Engine`.
  `suspendEvent` makes one immediate attempt. If that attempt throws and `retryOnFailure` is
  set, it writes the event to a file. It then retries after waits of 1000, 60000 and 360000 ms.
  A successful retry deletes the file. After the third failed retry the loop waits 600000 ms
  more and leaves through `else -> break`, without a fourth retry. On construction the engine
  replays every file in its event directory:
  - an undecodable file is deleted;
  - a decodable file gets exactly one attempt;
  - the file is deleted unless that attempt throws.

  `postEvent` returns normally, without a network call, when the engine is disabled.
- **Event normalisation** in the default `PlausibleClient.event(domain, …)`, module `Events`.
  A blank URL scheme becomes `app` and a blank authority becomes `localhost`. Prop values are
  replaced by their `toString()`.
- **`ThreadSafePlausibleConfig`**, module `Configuration`. It holds the defaults and the setter
  rules:
  - a blank host or user agent falls back to the default;
  - the domain must be empty or pass the web-URL check.
- **The `Plausible` facade**, module `Facade`, built with its `(client, config, domain)`
  constructor over a client that records events. `SetUp` and three further methods mirror the set-up and the tests of the facade's unit test class.

How the model represents the engine:
- The engine's state is the event directory `files`, a map from file name to contents, and the
  history `trace`. The history is a sequence of effects: a network attempt with its outcome, a
  wait, a file write and a file delete.
- The network is an oracle `answer: nat -> bool`: network call number `k` of the engine gets a
  2xx response iff `answer(k)`.
- `Protocol.SuspendTrace` and `Protocol.ReplayTrace` give the effects that `suspendEvent` and the
  replay produce. The methods `Engine.NetworkFirstClient.SuspendEvent` and the constructor are
  proved to produce exactly those effects.
- The lemmas of `Protocol` state what the effects amount to: attempt counts, the wait schedule,
  and which files remain. `Protocol.FirstRetryFrom` names the first retry that succeeds, and the retry-loop lemmas are stated in terms of it.

While the engine is disabled, replay deletes every decodable record without sending it:
`postEvent` returns normally (PlausibleClient.kt:84-88, 129-132), so the delete that follows it runs.

## Model

| member | source | states |
|---|---|---|
| `Events.Normalize` | plausible/src/main/java/com/onebusaway/plausible/android/PlausibleClient.kt:43-49 | the result always has a non-blank scheme and authority; a blank scheme becomes "app" and a blank authority "localhost"; non-blank parts and the rest of the URL are kept (for hierarchical URLs; opaque URLs are not represented, see "## Left out") |
| `Events.StringProps` | plausible/src/main/java/com/onebusaway/plausible/android/PlausibleClient.kt:56 | absent props stay absent; otherwise the keys are kept and each value is replaced by its string form |
| `Events.MakeEvent` | plausible/src/main/java/com/onebusaway/plausible/android/PlausibleClient.kt:50-57 | domain, name, referrer and screen width pass through unchanged; the url is the normalised URL; the props are the stringified props |
| `Events.BareUrlGetsAppLocalhost` | plausible/src/test/java/com/wbrawner/plausible/android/PlausibleTest.kt:54 | a bare "eventUrl" is sent as "app://localhost/eventUrl" |
| `Events.FullUrlKept` | plausible/src/main/java/com/onebusaway/plausible/android/PlausibleClient.kt:43-49 | a URL that already has a scheme and an authority is left as it is |
| `Events.NormalizeIdempotent` | plausible/src/main/java/com/onebusaway/plausible/android/PlausibleClient.kt:43-49 | normalising a normalised URL changes nothing |
| `Text.IntToStringRoundTrip` | plausible/src/main/java/com/onebusaway/plausible/android/PlausibleClient.kt:56 | the decimal `toString` of an integer prop value reads back as the same integer |
| `Text.IfBlank` | plausible/src/main/java/com/onebusaway/plausible/android/PlausibleConfig.kt:89 | a blank value gives the default and a non-blank value is returned unchanged; the result is never blank when the default is not |
| `Configuration.DefaultsNotBlank` | plausible/src/main/java/com/onebusaway/plausible/android/PlausibleConfig.kt:12-14 | the default host and user agent are not blank |
| `Configuration.ThreadSafeConfig.constructor` | plausible/src/main/java/com/onebusaway/plausible/android/PlausibleConfig.kt:68-96 | a fresh config is enabled, retries on failure, has domain "", host "https://plausible.io/api" and the default user agent, keeps the given event dir and screen width, and is valid |
| `Configuration.ThreadSafeConfig.SetEnable` | plausible/src/main/java/com/onebusaway/plausible/android/PlausibleConfig.kt:74-76 | stores exactly the given flag and changes no other field |
| `Configuration.ThreadSafeConfig.SetDomain` | plausible/src/main/java/com/onebusaway/plausible/android/PlausibleConfig.kt:79-84 | succeeds iff the value is empty or a web URL; on success it stores the value, on failure the stored domain is unchanged |
| `Configuration.ThreadSafeConfig.SetHost` | plausible/src/main/java/com/onebusaway/plausible/android/PlausibleConfig.kt:87-89 | a blank host stores the default host, a non-blank one is stored verbatim; validity is kept |
| `Configuration.ThreadSafeConfig.SetRetryOnFailure` | plausible/src/main/java/com/onebusaway/plausible/android/PlausibleConfig.kt:92-94 | stores exactly the given flag and changes no other field |
| `Configuration.ThreadSafeConfig.SetUserAgent` | plausible/src/main/java/com/onebusaway/plausible/android/PlausibleConfig.kt:97-99 | a blank user agent stores the default, a non-blank one is stored verbatim; validity is kept |
| `Protocol.NextDelay` | plausible/src/main/java/com/onebusaway/plausible/android/PlausibleClient.kt:111-116 | each of the first three delays of the schedule is followed by the next; any other delay leaves the loop |
| `Protocol.FirstRetryFrom` | plausible/src/main/java/com/onebusaway/plausible/android/PlausibleClient.kt:109-123 | the first retry numbered `j` to 3 whose call succeeds, or 4 when none does: it lies between `j` and 4, and when below 4 that retry's call succeeded |
| `Protocol.FirstRetryFromIsFirst` | plausible/src/main/java/com/onebusaway/plausible/android/PlausibleClient.kt:109-123 | every retry from `j` on that comes before the first successful one failed |
| `Protocol.RetryTraceCalls` | plausible/src/main/java/com/onebusaway/plausible/android/PlausibleClient.kt:109-124 | the retry loop calls the network once per retry up to the first success (at most 3 times), always with the same event |
| `Protocol.RetryTraceWaits` | plausible/src/main/java/com/onebusaway/plausible/android/PlausibleClient.kt:109-116 | the retry loop waits exactly the schedule from the current retry up to the first success, or all of it, 600000 ms included, when none succeeds |
| `Protocol.RetryTraceFiles` | plausible/src/main/java/com/onebusaway/plausible/android/PlausibleClient.kt:117-124 | the retry loop removes the record iff some retry succeeds, and otherwise leaves the directory unchanged |
| `Protocol.RetryTraceLast` | plausible/src/main/java/com/onebusaway/plausible/android/PlausibleClient.kt:117-124 | the last effect of the retry loop is the delete after the first successful retry, or the final 600000 ms wait when none succeeds |
| `Protocol.RetryTraceWritesNothing` | plausible/src/main/java/com/onebusaway/plausible/android/PlausibleClient.kt:109-124 | the retry loop writes no file |
| `Protocol.SuspendWithoutRetry` | plausible/src/main/java/com/onebusaway/plausible/android/PlausibleClient.kt:100-104 | disabled engine: no effect at all; immediate success, or failure with retries off: exactly one attempt; the directory is untouched in every case |
| `Protocol.SuspendBounded` | plausible/src/main/java/com/onebusaway/plausible/android/PlausibleClient.kt:100-126 | for every network behaviour: at most 4 attempts, all with the same event, and the waits are a prefix of 1000, 60000, 360000, 600000 ms |
| `Protocol.RecordWrittenBeforeWaits` | plausible/src/main/java/com/onebusaway/plausible/android/PlausibleClient.kt:103-108 | a failed immediate attempt with retries on writes exactly one record, holding the serialised event, directly after the attempt and before any wait |
| `Protocol.FirstSuccessfulRetryEnds` | plausible/src/main/java/com/onebusaway/plausible/android/PlausibleClient.kt:117-120 | the first successful retry `k` ends the loop: `k + 1` attempts, the first `k` waits, and the record deleted as the last effect |
| `Protocol.ExhaustedRetriesKeepRecord` | plausible/src/main/java/com/onebusaway/plausible/android/PlausibleClient.kt:109-124 | when all four attempts fail: exactly 4 attempts, all four waits, the last effect is the 600000 ms wait, and the record is still in the directory |
| `Protocol.FailOnceThenSucceed` | plausible/src/main/java/com/onebusaway/plausible/android/PlausibleClient.kt:100-124 | one failure then success: attempt, write, 1 s wait, attempt, delete; 2 attempts in all; no record left |
| `Protocol.ReplayCallsOncePerRecord` | plausible/src/main/java/com/onebusaway/plausible/android/PlausibleClient.kt:76-89 | replay sends exactly the decodable records, once each, in listing order; it sends nothing while disabled |
| `Protocol.ReplayOnlyDeletesListed` | plausible/src/main/java/com/onebusaway/plausible/android/PlausibleClient.kt:76-89 | replay never writes; it only deletes listed files, and every file left keeps its contents |
| `Protocol.ReplayStepFiles` | plausible/src/main/java/com/onebusaway/plausible/android/PlausibleClient.kt:77-88 | one more replayed file is removed unless it decodes, the engine is enabled and its attempt threw |
| `Protocol.ReplayNext` | plausible/src/main/java/com/onebusaway/plausible/android/PlausibleClient.kt:76-89 | before each replayed file that file is still present with its original contents, its call is the next one, and replaying it extends the replay trace by one file |
| `Protocol.ReplayRecordFate` | plausible/src/main/java/com/onebusaway/plausible/android/PlausibleClient.kt:76-89 | each listed record survives replay iff it decodes, the engine is enabled and its single attempt threw; an undecodable record is deleted without an attempt; a surviving record is unchanged |
| `Engine.NetworkFirstClient.constructor` | plausible/src/main/java/com/onebusaway/plausible/android/PlausibleClient.kt:73-91 | construction replays the directory: its effects are exactly the replay trace, and the directory afterwards is what those effects leave |
| `Engine.NetworkFirstClient.ReplayRecord` | plausible/src/main/java/com/onebusaway/plausible/android/PlausibleClient.kt:77-88 | the handling of one replayed file produces that file's replay effects and directory change |
| `Engine.NetworkFirstClient.PostEvent` | plausible/src/main/java/com/onebusaway/plausible/android/PlausibleClient.kt:128-170 | disabled: returns normally with no network call; enabled: exactly one call, returning normally iff it gets a 2xx response |
| `Engine.NetworkFirstClient.Delay` | plausible/src/main/java/com/onebusaway/plausible/android/PlausibleClient.kt:110 | records the wait and nothing else |
| `Engine.NetworkFirstClient.WriteFile` | plausible/src/main/java/com/onebusaway/plausible/android/PlausibleClient.kt:105-106 | creates or replaces the named file with the given body |
| `Engine.NetworkFirstClient.DeleteFile` | plausible/src/main/java/com/onebusaway/plausible/android/PlausibleClient.kt:119 | removes the named file if present |
| `Engine.NetworkFirstClient.SendEvent` | plausible/src/main/java/com/onebusaway/plausible/android/PlausibleClient.kt:93-97 | submitting an event has exactly the effects of `suspendEvent` |
| `Engine.NetworkFirstClient.TrackEvent` | plausible/src/main/java/com/onebusaway/plausible/android/PlausibleClient.kt:35-58 | the default `event(domain, …)` sends the normalised event |
| `Engine.NetworkFirstClient.SuspendEvent` | plausible/src/main/java/com/onebusaway/plausible/android/PlausibleClient.kt:100-126 | its effects and the directory afterwards are exactly those of the suspend trace; `retryAttempts` ends at the first successful retry minus one, so at most 3 |
| `Engine.NetworkFirstClient.RetryLoop` | plausible/src/main/java/com/onebusaway/plausible/android/PlausibleClient.kt:107-124 | the loop produces exactly the retry trace; it deletes the record iff a retry succeeds; `retryAttempts` ends at 3 when none does |
| `Facade.RecordingClient.constructor` | plausible/src/test/java/com/onebusaway/plausible/android/fake/FakePlausibleClient.kt:6-7 | a new recording client has recorded nothing |
| `Facade.RecordingClient.SendEvent` | plausible/src/test/java/com/onebusaway/plausible/android/fake/FakePlausibleClient.kt:9-11 | appends the event to the recorded list |
| `Facade.RecordingClient.TrackEvent` | plausible/src/main/java/com/onebusaway/plausible/android/PlausibleClient.kt:35-58 | records exactly one event, the normalised one |
| `Facade.Plausible.Init` | plausible/src/main/java/com/onebusaway/plausible/android/Plausible.kt:9-12 | keeps the given client and config |
| `Facade.Plausible.Create` | plausible/src/main/java/com/onebusaway/plausible/android/Plausible.kt:32-35 | sets the config's domain to the domain, or "" when it is null, and builds a facade over the client and config; fails, leaving the domain unchanged, iff the domain setter rejects the value |
| `Facade.Plausible.Enable` | plausible/src/main/java/com/onebusaway/plausible/android/Plausible.kt:54-59 | sets the config's enable flag to the given value |
| `Facade.Plausible.SetUserAgent` | plausible/src/main/java/com/onebusaway/plausible/android/Plausible.kt:70-75 | sets the config's user agent, subject to the blank-means-default rule |
| `Facade.Plausible.PageView` | plausible/src/main/java/com/onebusaway/plausible/android/Plausible.kt:97-106 | records exactly what `event("pageview", url, referrer, props)` records; referrer defaults to "" and props to absent |
| `Facade.Plausible.CustomEvent` | plausible/src/main/java/com/onebusaway/plausible/android/Plausible.kt:131-144 | exactly one client call, with the config's domain, the given name, url, referrer and props, and the config's screen width |
| `Facade.SetUp` | plausible/src/test/java/com/wbrawner/plausible/android/PlausibleTest.kt:20-29 | the test set-up yields a valid, enabled config with the default user agent, domain "test.example.com" and width 123, and an empty client |
| `Facade.EnableIsSetOnConfig` | plausible/src/test/java/com/wbrawner/plausible/android/PlausibleTest.kt:31-36 | enable is true by default and false after `enable(false)` |
| `Facade.UserAgentIsSetOnConfig` | plausible/src/test/java/com/wbrawner/plausible/android/PlausibleTest.kt:38-44 | after `setUserAgent("test user agent")` the config holds that agent, which differs from the old one |
| `Facade.EventsAreSentToClient` | plausible/src/test/java/com/wbrawner/plausible/android/PlausibleTest.kt:46-58 | exactly one event reaches the client, with domain "test.example.com", url "app://localhost/eventUrl", width 123, the referrer and the stringified props |
| `Facade.PageViewDefaults` | plausible/src/main/java/com/onebusaway/plausible/android/Plausible.kt:97-106 | a page view with referrer and props omitted is sent as "pageview" with referrer "" and no props |

## Left out

- OkHttp request building is left out: the POST to `<host>/event`, the `User-Agent` header and the JSON body. So are `enqueue`, its callbacks and cancellation. All of this is foreign network I/O. It is replaced by the oracle `answer`, where a non-2xx response counts as failure.
- Coroutines are left out. `event(event)` runs `suspendEvent` to completion before returning. Replay runs inside the constructor. So the race between replay and new submissions is not modelled.
- `postEvent` reads `config.enable` afresh at every attempt (PlausibleClient.kt:118, 129-132). The model fixes the flag for a whole `suspendEvent` call: `Protocol.SuspendTrace` takes it once, and `Engine.NetworkFirstClient.RetryLoop` requires it. So the model does not capture `enable(false)` during a retry wait, where the next retry returns normally and deletes the record without sending it (lines 118-120).
- A non-blank host that is not an HTTP URL makes `config.host.toHttpUrl()` (PlausibleClient.kt:134-135) throw `IllegalArgumentException`. The `catch (e: IOException)` clauses (lines 85, 103, 121) do not catch it, so it escapes replay and `suspendEvent`. The model treats every failed attempt as a caught `IOException`, and `Configuration.ThreadSafeConfig.SetHost` stores any non-blank value, so this escape is not modelled.
- `delay` does not take real time: only the delay value is recorded in the trace.
- The file name `event_<currentTimeMillis>.json` is a parameter. The model does not claim it is unique: a write with an existing name replaces that file.
- `mkdirs`, the null result of `listFiles`, and I/O errors from reading, writing or deleting files are not modelled.
- The order of `listFiles()` is a parameter: a listing that names each file once.
- `Event.toJson` and `Event.fromJson` are injected functions `encode` and `decode`. The `Event` class's serialisation is not part of this model, so no JSON round trip is stated.
- `Uri.parse` is platform code: URL arguments are taken already split into scheme, authority and rest. `Events.Render` stands for `Uri.toString()` without percent-encoding.
- Opaque URIs are not represented. A URL such as "mailto:x" or "localhost:3000/p" parses to a non-blank scheme with no authority. In the source, setting the authority "localhost" then drops the scheme-specific part ("mailto://localhost"). The scheme/authority/rest record of `Events.Uri` cannot express that loss, so `Events.Normalize` is stated for hierarchical URLs only.
- `Patterns.WEB_URL` is an injected predicate, `webUrl`.
- `DEFAULT_USER_AGENT` is built from `BuildConfig`/`Build` fields. It stands as the constant "PlausibleAndroid", its fixed leading word.
- `AndroidResourcePlausibleConfig` is left out: it reads platform resources and rounds a float division.
- The `Context`-based constructors of `Plausible` are left out: they build platform configs.
- Timber logging is left out.
- The atomic references of `ThreadSafePlausibleConfig` are plain fields. The host getter's `?: ""` never fires, since the reference is never null.
- The facade's `config?.let` / `client?.let` null checks are left out: both are always non-null.
- Prop values of type `Any?` are modelled as text, whole numbers, booleans or null. Other types are left out: floating point has platform-specific `toString`, and collections are not scalar values.
- `screenWidth` is a 32-bit `Int` in the source. It is only passed through, so it is an unbounded `int` here.
