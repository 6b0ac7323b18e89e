# mqttfileswitch, modelled in Dafny

mqttfileswitch bridges a switch to an MQTT broker. The switch state lives in
a file as `0` or `1`, and Home Assistant discovery announces the switch on
the broker. This project models the logic of `index.js` that can be stated
precisely. The MQTT client, the file watcher library and the file system are
glue around it and are kept abstract.

- `command_line.dfy`, module `CommandLine`: `parseArgs` and `readArgValue`.
  The parse is a method with a loop that moves a cursor over `argv`. It is
  proved equal to a specification function `Parse`. Lemmas about `Parse`
  cover the broker position, the defaults, flags that take the next token,
  "last one wins", skipped tokens and the usage exits.
- `naming.dfy`, module `Naming`: the device identity
  `switchName.toLowerCase().replace(/\s/g, "_")`.
- `discovery.dfy`, module `Discovery`: the three topics
  `home/switch/<device>/config`, `/state` and `/set`, and the discovery record
  that `sendConfigurationMessages` publishes. The record is a datatype, not
  JSON text.
- `switch_state.dfy`, module `SwitchState`: `stateFromPayload`, the file
  content `${state}` that `writeSwitchState` writes, and the decoding in
  `readSwitchState`. The decoding uses a decimal `parseInt`: leading white
  space, an optional sign, then the longest run of digits, or NaN. The module
  also has the `ON`/`OFF` message of `sendSwitchState`.
- `sync.dfy`, module `Sync`: the `connect` and `message` handlers of `run`
  and the watcher callbacks. The class `Controller` holds the number of live
  watchers and the trace of actions asked of the outside world:
  `Publish(topic, payload, retain)`, `Subscribe`, `WriteFile` and
  `StartWatcher`. It has one method per event. Each method is proved against
  the pure transition function `Step`. Lemmas about `Run` (a fold of `Step`)
  state what holds for any sequence of events.
- `ascii.dfy` and `wrappers.dfy`: character classes and `Option`.

A file read is an input to the model: `Ok(content)` or `Err`. A file touch
arrives as the event `FileTouched(read)`, carrying the result of the read it
triggers. A connect arrives as `Connect(initial)`. When the file already
exists as the new watcher starts, that watcher's `add` event reads it, and
`initial` is the result of that read; it is None when the file does not
exist yet.

Points where the code behaves in a way that is easy to miss:

- Every `connect` starts a new watcher (index.js:90-93, 134), and none is
  ever stopped. The `add` of the new watcher publishes the state once
  (`Sync.ConnectPublishesInitialOnce`). After a reconnect, every later
  touch of the file is published once per connect so far
  (`Sync.ReconnectDuplicatesPublishes`).
- Every white-space character of the switch name becomes one `_`
  (index.js:128). Runs of white space are not collapsed, and white space
  at the start and end of the name is replaced too (`Naming.DeviceSlug`,
  `Naming.SpaceRunSlug`).
- Any number the file parses to is forwarded as it is (index.js:77), so `2`
  gives state 2, which publishes `OFF` (`SwitchState.ReadStateNotClamped`).
  Only the published message is limited to `ON` and `OFF`.
- `onInitialStates` is defined but never called (index.js:86-88). There is
  no separate read when the watch starts beyond the watcher's own `add`
  event.

## Model

| member | source | states |
|---|---|---|
| CommandLine.ReadArgValue | index.js:28-30 | The cursor moves by exactly one. A value is returned iff the token there exists and is not empty, and the value is that token. |
| CommandLine.FlagOf | index.js:33-41 | Exactly the four tokens `-username`, `-password`, `-name` and `-path` are recognised, each as its own flag. |
| CommandLine.Parse | index.js:15-45 | Without a truthy `argv[2]` the result is `Usage`. A successful parse has broker address `argv[2]`, and every value in it is a non-empty string. |
| CommandLine.Settings | index.js:28-42 | Every value the scan takes for a flag is a non-empty string. |
| CommandLine.ParseArgs | index.js:15-45 | The cursor-and-assignment loop returns what `Parse` specifies. When it parses, the broker address is `argv[2]` and every value it hands out is non-empty. |
| CommandLine.ParseWithoutFlags | index.js:18-22 | With a non-empty `argv[2]` and no recognised flag after it, the result has no username, no password, name `MQTTSWITCH` and path `switchvalue`. |
| CommandLine.ParseAppendFlag | index.js:32-42 | A recognised flag followed by a non-empty token sets its own field to exactly that token, even when the token is itself a flag. It leaves every other field as it was, so the last setting wins. |
| CommandLine.ParseAppendUnknown | index.js:32-42 | A token that is not a recognised flag leaves the result unchanged. |
| CommandLine.ParseAppendMissingValue | index.js:28-30 | A recognised flag with no token after it, or with an empty one, gives `Usage` whatever follows. |
| CommandLine.UsageSpellingsIgnored | index.js:32-42 | `-user v` and `-pass v`, the spellings shown in the usage text, change nothing when `v` is not a flag. |
| CommandLine.ParseExample | index.js:15-45 | A concrete command line: `-user bob` is skipped, and `-path -name` sets the path to `-name`. |
| Naming.DeviceSlug | index.js:128 | The device identity is as long as the name. At every position, white space becomes `_` and an ASCII capital becomes small, wherever it stands in the name. |
| Naming.DeviceSlugShape | index.js:128 | The identity is as long as the name, so runs are not collapsed, and it holds no white space and no capital. |
| Naming.DeviceSlugIdempotent | index.js:128 | Deriving the identity from an identity gives it back unchanged. |
| Naming.GarageLightSlug | index.js:128 | `Garage Light` becomes `garage_light`. |
| Naming.SpaceRunSlug | index.js:128 | Two spaces become two underscores: `A  b` becomes `a__b`. |
| Discovery.TopicKindsDistinct | index.js:99-112 | The config, state and command topics always differ, even between two devices. |
| Discovery.TopicsDetermineDevice | index.js:99-106 | Two devices never share a config, state or command topic. |
| Discovery.ConfigTopic | index.js:99 | The config topic is `home/switch/`, the device verbatim, then `/config`. |
| Discovery.StateTopic | index.js:112 | The state topic is `home/switch/`, the device verbatim, then `/state`. |
| Discovery.CommandTopic | index.js:129 | The command topic is `home/switch/`, the device verbatim, then `/set`. |
| Discovery.DiscoveryPayload | index.js:100-107 | The record has `object_id = unique_id =` the device, `name` = the raw switch name and `device_class = switch`. It carries the command topic handed in and the device's `/state` topic, and when the command topic is the device's `/set` topic the two differ. |
| Discovery.GarageLightTopics | index.js:129 | The three topics of `garage_light`, written out. |
| SwitchState.StateFromPayload | index.js:123-125 | A command payload maps to state 0 or 1, and to 1 exactly for `ON`, case-sensitively. |
| SwitchState.StateMessage | index.js:113 | The outbound message is always `ON` or `OFF`. |
| SwitchState.NatToDecimal | index.js:49 | The text of a natural number is a non-empty run of decimal digits. |
| SwitchState.IntToDecimal | index.js:49 | The text of an integer is non-empty, starts with `-` exactly when the integer is negative, and is decimal digits after that. |
| SwitchState.WriteContent | index.js:47-49 | The content written for any state parses back to that state. |
| SwitchState.ParseInt | index.js:71 | `parseInt` gives a number exactly when a digit follows the leading white space, directly or after one `+` or `-`; otherwise it gives NaN. |
| SwitchState.ParseIntValue | index.js:71 | Where a number starts, `parseInt` gives its sign (negative only after `-`) times the value of the longest run of digits there, leading zeros included, whatever follows. |
| SwitchState.ReadState | index.js:64-78 | A non-zero state comes only from a successful read whose content parses to that number. A content that parses is forwarded as parsed. |
| SwitchState.CommandContent | index.js:47-49 | The content a command writes is `1` for exactly `ON`, case-sensitively, and `0` for every other payload. |
| SwitchState.ParseIntOfDecimal | index.js:71 | `parseInt` of the decimal text of any integer gives back that integer, also when any non-digit text follows it. |
| SwitchState.ReadBackWritten | index.js:64-78 | Decoding the content written for any state gives that state. |
| SwitchState.CommandEcho | index.js:111-115 | A command that is written, read back and published comes back as `ON` iff the command was `ON`, and otherwise as `OFF`. |
| SwitchState.PayloadRoundTrip | index.js:123-125 | For `ON` and `OFF`, write, read and publish give back the same payload. |
| SwitchState.OnExactlyForOne | index.js:111-115 | `ON` is published iff the read succeeded and its content parses to exactly 1. |
| SwitchState.ReadStateNotClamped | index.js:71-77 | Content `2` decodes to 2 and content `-1` to -1, and both publish `OFF`. |
| SwitchState.ReadStateLenient | index.js:71 | Leading white space and a trailing newline around the number are ignored. |
| SwitchState.ReadStateFallback | index.js:64-76 | A read error decodes to 0, and so does content with no number in front (empty, `ON`, `- 1`). |
| Sync.Controller.constructor | index.js:127-129 | The device is the slug of the switch name and the command topic is its `/set` topic. No watcher is live and nothing has been asked yet. |
| Sync.Controller.OnConnect | index.js:131-137 | Appends the retained config publish, the subscription to the command topic and a new watcher on the file, in that order, and counts one more live watcher. When the file exists, one publish of the state the new watcher reads follows. |
| Sync.Controller.OnMessage | index.js:138-144 | On the command topic it appends one write of the decoded payload to the file. On any other topic nothing changes. |
| Sync.Controller.OnFileTouched | index.js:81-93 | Each live watcher in turn appends one publish of the decoded read on the state topic. The watcher count does not change. |
| Sync.ConfigMessage | index.js:96-108 | The discovery message is retained, on the device's config topic, and its record names the device, the switch name, the device's state topic and the command topic of the setup. For a setup `run` builds, the two topics differ. |
| Sync.StatePublish | index.js:110-115 | The state message is not retained, goes to the device's state topic, and is `ON` exactly for state 1 and `OFF` otherwise. |
| Sync.Step | index.js:131-144 | Only a connect adds a live watcher. Every event keeps the earlier trace as a prefix. A touch appends one action per live watcher. A message on another topic changes nothing. |
| Sync.Controller.Dispatch | index.js:131-144 | Each event goes to its handler and changes the state as `Step` says. |
| Sync.WatchersCountConnects | index.js:131-137 | After any events, the live watchers and the started watchers in the trace both equal the number of connects. |
| Sync.TraceGrows | index.js:131-144 | Events only append: the earlier trace stays a prefix. |
| Sync.TraceAllowed | index.js:96-144 | Whatever the events, every action is one of these: the retained discovery record on the config topic, a non-retained `ON`/`OFF` on the state topic, a subscription to the command topic, a write of `0` or `1` to the switch file, or a watcher on that file. |
| Sync.NeverPublishesCommands | index.js:129-144 | The bridge never publishes on its own command topic. |
| Sync.AnnouncementMatchesTraffic | index.js:99-115 | The state topic in the announced record is the topic the state is published on. Its command topic is the topic the bridge subscribes to. |
| Sync.TouchPublishesPerWatcher | index.js:134-136 | A file touch appends exactly one state publish per live watcher and nothing else. |
| Sync.ForeignMessageIgnored | index.js:141-143 | A message on any other topic leaves the watchers and the trace unchanged. |
| Sync.CommandRoundTrip | index.js:138-144 | A command writes `1` for `ON` and `0` otherwise. The touch this causes makes every live watcher publish `ON` for `ON` and `OFF` otherwise. |
| Sync.ConnectPublishesInitialOnce | index.js:90-93 | A connect whose new watcher finds the file appends announce, subscribe, watch and exactly one state publish, however many watchers are already live. |
| Sync.ReconnectDuplicatesPublishes | index.js:131-137 | Two connects announce twice, subscribe twice and leave two watchers. Each publishes its initial read once, and a later touch is published twice. |
| Sync.CommandAfterStartup | index.js:127-144 | A connect whose watcher finds `0`, the command `ON` and a touch of `1` give, in order: announce, subscribe, watch, `OFF`, write `1`, `ON`. |
| Sync.GarageLightSetup | index.js:127-129 | `Garage Light` gives device `garage_light` and command topic `home/switch/garage_light/set`. |
| Sync.GarageLightScenario | index.js:127-144 | The same events for `garage_light`, written out on its concrete topics and records. |

## Left out

- The MQTT client and the `chokidar` watcher (index.js:5-6, 90-93, 130, 133) are foreign libraries. They appear only as the actions in the trace and as the events the model receives.
- The broker URL `mqtt://<address>` and the credentials passed to `mqtt.connect` (index.js:130) only configure the foreign client. They have no effect on the trace.
- File I/O (index.js:49, 65): a read is an input value `Ok(content)` or `Err`. A write is a trace entry. Its failure is logged and swallowed in the code (index.js:50-52), and it has no effect on the model.
- Logging, `console.error` and the ISO timestamps are side output with no effect on behaviour.
- The lifecycle handlers `reconnect`, `close`, `disconnect`, `offline`, `end` and `error` (index.js:145-162) only log.
- Process signals and `process.exit` (index.js:12, 163-167): `usage()` becomes the `Usage` result, and closing the client on exit is outside the model.
- `onInitialStates` (index.js:86-88) is never called, so it is not modelled.
- Asynchrony is not modelled. Each event runs to completion before the next, and the interleaving of `readFile` callbacks with incoming messages is out of scope. The new watcher's initial `add` read is taken as part of its connect.
- Sync.Controller.OnFileTouched: every watcher publishes the same read result. In the code each watcher calls `readFile` on its own, and the reads could see different contents if the file changes in between.
- Discovery.DiscoveryPayload: the record is modelled as a record. Its `JSON.stringify` text and escaping (index.js:108) are not modelled.
- Naming.Lower: lowers ASCII capitals only, not the full Unicode `toLowerCase`.
- Naming.ReplaceSpaces: replaces only the ASCII white-space characters (space, tab, line feed, vertical tab, form feed, carriage return), not the Unicode ones in JavaScript's `\s`.
- SwitchState.ParseInt: decimal only. It leaves out the `0x` prefix that `parseInt` reads as hexadecimal, the Unicode white space it skips, and the loss of precision for numbers beyond 2^53. `-0` is modelled as 0; `sendSwitchState` publishes `OFF` for both.
- SwitchState.IntToDecimal: gives plain decimal digits for every integer. JavaScript writes numbers of magnitude 10^21 and more in exponent form, but only 0 and 1 are ever written.
