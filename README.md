# pyvoicecontrol in Dafny

A model of pyvoicecontrol, a voice-controlled home audio hub. In the
hub every service is a resource with a path such as `/speech/detector`.
A resource publishes its state to the subscribers of that path and of
every ancestor path. The hub is built from these parts:

- the service framework: error codes, the case-insensitive state machine,
  the resource registry (`get_resource`, `set_resource`,
  `delete_resources`, path lookup), the state-change registry
  (`register`, `unregister_all`, `notify` with `expand`), and the
  lifecycle every resource shares;
- the configuration parser, which checks and converts every field of a
  configuration file against a schema;
- the resources:
  - the log service and the template;
  - the snowboy hot-word detector;
  - the wit.ai speech-to-intent service;
  - the input (key-press) service;
  - the audio alerts;
  - the bluetoothctl wrapper and the bluetooth scanner;
  - the snapcast, pulse and spotify players.

Each resource is a class. Its constructor stands for the resource's own
`__init__` and `on_start` together, except two steps modelled on their
own: the path registration of `ServiceResource.__init__` is
`Lifecycle.Start`, and the spotify device choice, the last step of its
`on_start`, is `Spotify.Spotify.SetupDeviceId`. Its fields are the ones the source keeps: a state machine,
the commands it has sent to its device so far, and every state it has
broadcast. Each message-handling method states its new state and what it
sent. Separate functions say what a whole sequence of messages does, and
lemmas prove the properties the design relies on about those functions.
Some of these properties:

- a state change reaches every subscriber of the path or of an ancestor
  path, and no other subscriber;
- stopping a resource withdraws every subscription it holds;
- `set_resource` gives each descendant its own part of the payload;
- the configuration parser returns every schema field with a
  value of its declared kind, or the first error the source raises;
- ducking restores the mute state it saved;
- the spotify device choice follows a fixed order of preference.

Modules, one per file:

- `Values`: payloads, Python exceptions, `Result` and `Outcome`.
- `Strings`: the string operations of Python the source uses.
- `Paths`: resource paths.
- `Service`: error codes and the state machine.
- `Registry`: the resource registry.
- `StateChange`: the state-change registry.
- `Lifecycle`: resource start and stop.
- `Config`: the configuration parser.
- `Dispatch`: the membership tests the players share.
- One module per resource.

Calls into other actors are synchronous in the model. A peer's answer to
`get_state` is passed in as a map from actor to state. An actor that has
no entry in the map has not overridden `get_state`, so asking it raises
`ServiceMethodNotImplemented`.

## Model

| member | source | states |
|---|---|---|
| `Values.Subscript` | pyvoicecontrol/pulse.py:155 | `v[key]` gives the value only for a dictionary that holds the key. Otherwise it raises `KeyError` (missing key) or `TypeError` (not a dictionary). |
| `Values.GetOr` | pyvoicecontrol/pulse.py:194-195 | `v.get(key, d)` gives the value for the key, or `d` when the key is missing. A payload that is not a dictionary raises `AttributeError`. |
| `Values.Single` | pyvoicecontrol/service.py:199-204 | Each level that `expand` builds holds exactly one key, mapped to the level below. |
| `Strings.Upper` | pyvoicecontrol/service.py:233-234 | `upper()` keeps the length and upper-cases each character on its own. |
| `Strings.Lower` | pyvoicecontrol/config.py:18-20 | `lower()` keeps the length and lower-cases each character on its own. |
| `Strings.UpperIsCanonical` | pyvoicecontrol/service.py:250-251 | A state name stored upper-case is upper-case. Upper-casing it again changes nothing. |
| `Strings.LowerIsCanonical` | pyvoicecontrol/config.py:30 | A lower-cased value is lower-case. Lower-casing it again changes nothing. |
| `Strings.IndexOf` | pyvoicecontrol/bluetoothctl.py:65 | `s.index(p)` is found exactly when `p` occurs in `s`, and it is the first offset where `p` occurs. |
| `Strings.Split` | pyvoicecontrol/bluetoothctl.py:124 | `split(sep)` gives one piece more than there are separators, and no piece holds the separator. |
| `Strings.JoinSplit` | pyvoicecontrol/bluetoothctl.py:124 | Joining the pieces of a split with the separator gives back the original string. |
| `Strings.SplitJoin` | pyvoicecontrol/input.py:22 | Splitting the join of separator-free pieces gives back the pieces. |
| `Strings.SplitInTwo` | pyvoicecontrol/input.py:22 | Unpacking into two names succeeds exactly when the separator occurs once. |
| `Strings.NonEmpty` | pyvoicecontrol/service.py:175 | The filter `if x` keeps exactly the non-empty pieces. |
| `Strings.SplitThree` | pyvoicecontrol/bluetoothctl.py:70 | `split(" ", 2)` yields three pieces exactly when there are at least two separators. The three pieces joined by the separator give back the string, and the first two pieces are free of the separator. |
| `Strings.Strip` | pyvoicecontrol/config.py:51 | `strip()` removes only outer whitespace: the result is what remains after dropping whitespace characters from either end. It has no whitespace at either end, and a string without outer whitespace is unchanged. |
| `Strings.StripSlice` | pyvoicecontrol/config.py:51 | The result of `strip()` is a slice of the input with only whitespace before and after it. |
| `Strings.StripIdempotent` | pyvoicecontrol/bluetoothctl.py:121 | Stripping twice is the same as stripping once. |
| `Strings.Replace` | pyvoicecontrol/spotify.py:157 | `replace` with a pattern and a replacement of equal length keeps the length, and it changes nothing when the pattern does not occur. |
| `Strings.ReplacePrefix` | pyvoicecontrol/spotify.py:157 | A string that starts with the pattern starts with the replacement afterwards. |
| `Strings.Remove` | pyvoicecontrol/bluetoothctl.py:121 | `replace('\t', '')` leaves no tab and removes exactly the tabs. |
| `Strings.ParseInt` | pyvoicecontrol/config.py:33 | `int(s, base)` fails only with `ValueError`. |
| `Strings.NatToString` | pyvoicecontrol/audio_alerts.py:35 | `str(n)` of a natural number is a non-empty run of digits with no leading zero. |
| `Strings.ParseIntToString` | pyvoicecontrol/config.py:33 | `int(str(n), 10) == n` for every integer. |
| `Paths.Drop` | pyvoicecontrol/service.py:175 | `k[len(resource):]` has the length that Python slicing gives, and is empty past the end. |
| `Paths.Member` | pyvoicecontrol/service.py:129 | `i in z` is key membership for a dictionary. Only a non-iterable payload raises `TypeError`. |
| `Paths.DescendStringIsTypeError` | pyvoicecontrol/service.py:128-133 | The descent of `set_resource` into a string raises `TypeError` when the segment occurs in the string, and otherwise gives `None`. |
| `Paths.DescendNest` | pyvoicecontrol/service.py:194-207 | Descending along the segments that `expand` nested a payload under gives the payload back. |
| `Paths.RelSelf` | pyvoicecontrol/service.py:174-175 | A path covers itself with no relative segments, so `expand` passes the state through unchanged. |
| `Paths.NoPrefixWithoutSlash` | pyvoicecontrol/service.py:174 | `/speech` does not cover `/speechless` but does cover `/speech/detector`, and the root covers everything. |
| `Paths.SegmentsEmpty` | pyvoicecontrol/service.py:175 | The relative segments are empty exactly when the remainder holds only separators. |
| `Paths.SegmentsOfPath` | pyvoicecontrol/service.py:175 | A canonical path splits back into its own segments. |
| `Paths.PrefixCovers` | pyvoicecontrol/service.py:174-175 | A path whose segments are a prefix covers the longer path, and the relative segments are the ones the longer path adds. |
| `Paths.CoversPrefix` | pyvoicecontrol/service.py:174 | For canonical paths, covering implies that the segments are a prefix. |
| `Paths.CoversIsSegmentPrefix` | pyvoicecontrol/service.py:174-175 | For canonical paths the string test of `_lookup` holds exactly when the segments are a prefix, with the rest as relative segments. |
| `Paths.RelEmptyIffSame` | pyvoicecontrol/service.py:175 | For canonical paths the relative segments are empty exactly when the two paths are equal. |
| `Paths.TrailingSlashLikeSelf` | pyvoicecontrol/service.py:174-175 | A key with a trailing `/` has no relative segments under the key without it. |
| `Paths.ChildPath` | pyvoicecontrol/service.py:174-175 | A path extended by one segment is covered by the original, with that segment as the only relative segment. |
| `Service.ErrorCode` | pyvoicecontrol/service.py:8-68 | Every service exception except the bare path-conflict exception has a code between 1 and 12. Built-in exceptions have no code. |
| `Service.ErrorCodeNamesClass` | pyvoicecontrol/service.py:33-68 | Two exceptions with the same code are the same exception class. |
| `Service.StateMachine.constructor` | pyvoicecontrol/service.py:229-234 | The machine starts in the upper-cased default state, which must be recognised. |
| `Service.StateMachine.Create` | pyvoicecontrol/service.py:229-234 | An unrecognised default raises `ServiceUnrecognisedState`. Otherwise the machine holds the upper-cased default. |
| `Service.StateMachine.Try` | pyvoicecontrol/service.py:236-242 | Only a string can be accepted, and then only an admissible one. A payload that is not a string raises `AttributeError` at `upper()`. |
| `Service.StateMachine.Assign` | pyvoicecontrol/service.py:248-251 | The setter stores the upper-cased name when validation passes and otherwise leaves the state alone. |
| `Service.StateMachine.CheckAdmits` | pyvoicecontrol/service.py:236-242 | A transition that validation accepts leads to a state that the tables admit. |
| `Service.StateMachine.CheckIgnoresCase` | pyvoicecontrol/service.py:236-242 | A state name, its upper-case spelling and its lower-case spelling are judged alike. |
| `Service.StateMachine.CheckWithoutTable` | pyvoicecontrol/service.py:236-242 | Without a successor table, exactly the recognised names are accepted from any state. Anything else raises `ServiceUnrecognisedState`. |
| `Service.Transition` | pyvoicecontrol/template.py:36-40 | A falsy or unchanged state changes nothing. Otherwise the setter's verdict decides, and a rejection leaves the state alone. `changed` holds exactly when a new state was stored. |
| `Registry.ActorAt` | pyvoicecontrol/service.py:146 | The actor is found exactly for a registered path, and the pair is in the registry. |
| `Registry.Lookup` | pyvoicecontrol/service.py:168-177 | An empty query matches nothing. Otherwise a match comes from exactly a key the query covers, paired with its actor and relative segments. |
| `Registry.Without` | pyvoicecontrol/service.py:114 | `pop(p, None)` keeps exactly the entries with other keys, and the keys stay distinct. |
| `Registry.FirstOf` | pyvoicecontrol/service.py:116-118 | The sweep by actor stops at the first entry of the actor. |
| `Registry.FirstAbsent` | pyvoicecontrol/service.py:157-162 | The cursor of `get_resource` stops at the first segment that is missing from the dictionary. |
| `Registry.ResourceRegistry.constructor` | pyvoicecontrol/service.py:103 | The registry starts empty. |
| `Registry.ResourceRegistry.Register` | pyvoicecontrol/service.py:106-109 | A taken path raises the path-conflict exception and keeps the old entry. A free path is appended. |
| `Registry.ResourceRegistry.Unregister` | pyvoicecontrol/service.py:112-118 | A path is popped. With no path, the first entry of the actor is removed and the loop then raises `RuntimeError` because the dictionary changed size during iteration. |
| `Registry.ResourceRegistry.Matches` | pyvoicecontrol/service.py:168-177 | The `_lookup` loop returns `Lookup`. |
| `Registry.ResourceRegistry.GetResource` | pyvoicecontrol/service.py:149-166 | The `get_resource` loop returns `Get`, whose properties the lemmas below prove. |
| `Registry.ResourceRegistry.CursorWalk` | pyvoicecontrol/service.py:157-162 | The cursor loop stops at `FirstAbsent`. |
| `Registry.ResourceRegistry.DescendWalk` | pyvoicecontrol/service.py:128-133 | The descent loop returns `Descend`. |
| `Registry.ResourceRegistry.Deliver` | pyvoicecontrol/service.py:125-137 | One iteration of the `set_resource` loop is `SetStep`. An exact match waits for its actor, so a missing `set_state` or one that raises is raised by `set_resource`. A nested match sends its part without waiting. |
| `Registry.ResourceRegistry.SetResource` | pyvoicecontrol/service.py:120-137 | `set_resource` returns the outcome and the `set_state` messages of `Set`. The first exact match whose `set_state` is missing or raises ends the loop with that error. |
| `Registry.ResourceRegistry.DeleteResources` | pyvoicecontrol/service.py:139-147 | A missing path raises `ServiceResourceDoesNotExist` before any `delete` is sent. Otherwise `delete` is called path by path as `DeleteFrom` says. |
| `Registry.UnregisterUndoesRegister` | pyvoicecontrol/service.py:106-118 | Registering a new path and popping it gives back the registry. |
| `Registry.LookupFindsSelf` | pyvoicecontrol/service.py:174-175 | A registered path matches itself with no segments. |
| `Registry.ComposeNeverMissing` | pyvoicecontrol/service.py:154-166 | Once there are matches, composing them never raises `ServiceResourceDoesNotExist`. |
| `Registry.GetMissingIff` | pyvoicecontrol/service.py:150-153 | `get_resource` raises `ServiceResourceDoesNotExist` exactly when the query is empty or covers no key. |
| `Registry.ComposeExact` | pyvoicecontrol/service.py:164-165 | An exact match returns that actor's state, whatever came before it. |
| `Registry.GetExactUnwrapped` | pyvoicecontrol/service.py:164-165 | Querying a registered path, when every other key it covers lies strictly below it, gives that resource's state, not wrapped in a dictionary. |
| `Registry.ComposeIsSpread` | pyvoicecontrol/service.py:155-163 | For single-segment descendants, the composition is the dictionary `Spread`. |
| `Registry.SpreadKeys` | pyvoicecontrol/service.py:155-163 | The keys of the composed dictionary are exactly the existing keys and the descendants' segments. |
| `Registry.SpreadValues` | pyvoicecontrol/service.py:155-163 | Each descendant's state is found under its segment. |
| `Registry.SpreadKeeps` | pyvoicecontrol/service.py:155-163 | A key that no descendant names keeps its value. |
| `Registry.GetChildren` | pyvoicecontrol/service.py:149-166 | Querying a parent of single-segment children gives a dictionary that holds each child's state under its segment and nothing else. |
| `Registry.GetMisplacesSiblings` | pyvoicecontrol/service.py:157-163 | Two grandchildren `/a/x` and `/a/y` queried from the root: the second state lands at the top level, not beside the first. |
| `Registry.GetOverwritesDescendant` | pyvoicecontrol/service.py:157-163 | A path registered after its own descendant overwrites the descendant's state in the composed result. |
| `Registry.SetMissingIff` | pyvoicecontrol/service.py:122-124 | `set_resource` raises `ServiceResourceDoesNotExist` without sending anything exactly when the query is empty or covers no key. |
| `Registry.SetNeverMissing` | pyvoicecontrol/service.py:125-137 | Once there are matches, the loop never raises `ServiceResourceDoesNotExist` without having sent something first. |
| `Registry.SetDelivers` | pyvoicecontrol/service.py:125-137 | When every exact match answers its waited `set_state` without raising, each matched actor gets its part of the payload along its segments, when that part exists and is truthy, and nothing else is sent. |
| `Registry.SetReachesDescendant` | pyvoicecontrol/service.py:126-135 | A payload nested along a descendant's segments reaches that descendant. |
| `Registry.SetStopsAt` | pyvoicecontrol/service.py:136-137 | The first exact match whose waited `set_state` fails or is missing ends `set_resource` with that error. The messages sent up to and including it are kept, and nothing after it is sent. |
| `Registry.DeleteWithoutOverride` | pyvoicecontrol/service.py:139-147 | When no resource overrides `delete`, deleting existing paths raises `ServiceMethodNotImplemented` after exactly one call. |
| `Registry.DeleteCallsEach` | pyvoicecontrol/service.py:144-147 | When every actor honours `delete`, each listed path's actor is called once, in order. |
| `StateChange.Others` | pyvoicecontrol/service.py:221-225 | `unregister_all` keeps exactly the subscriptions of other actors, with no duplicates. |
| `StateChange.Drop1` | pyvoicecontrol/service.py:217-219 | `unregister` removes exactly the one pair. |
| `StateChange.StateChangeRegistry.constructor` | pyvoicecontrol/service.py:181 | The registry starts empty. |
| `StateChange.StateChangeRegistry.Register` | pyvoicecontrol/service.py:213-215 | Registering is idempotent, and a new pair is appended. |
| `StateChange.StateChangeRegistry.Unregister` | pyvoicecontrol/service.py:217-219 | An unknown pair raises `KeyError`. A known pair is removed. |
| `StateChange.StateChangeRegistry.UnregisterAll` | pyvoicecontrol/service.py:221-225 | The loop over the snapshot leaves `Others`. |
| `StateChange.StateChangeRegistry.Notify` | pyvoicecontrol/service.py:183-211 | The messages sent are `Fanout`. |
| `StateChange.FanoutExactly` | pyvoicecontrol/service.py:190-210 | A subscriber receives a change exactly when it watches the changed path or an ancestor, and the state arrives expanded under the segments between the two. |
| `StateChange.SamePathGetsStateItself` | pyvoicecontrol/service.py:203-206 | A subscriber of the changed path itself receives the state unwrapped. |
| `StateChange.RootSeesEverything` | pyvoicecontrol/service.py:192 | A subscriber of `/` receives every change. |
| `StateChange.NoDeliveryAfterUnregisterAll` | pyvoicecontrol/service.py:221-225 | After `unregister_all` the actor receives nothing, and every other subscriber receives what it did before. |
| `StateChange.NotSpeechless` | pyvoicecontrol/service.py:192-193 | `/speechless` is not an ancestor of `/speech/detector`. |
| `StateChange.DetectorExample` | pyvoicecontrol/service.py:190-210 | A change of `/speech/detector` reaches the `/speech` subscriber as `{detector: state}` and does not reach the `/speechless` subscriber. |
| `Lifecycle.Start` | pyvoicecontrol/service.py:73-78 | Constructing a resource registers its path, or raises the path-conflict exception and leaves the registry unchanged. |
| `Lifecycle.Stop` | pyvoicecontrol/service.py:80-83 | `on_stop` withdraws every subscription of the actor and then pops its path. |
| `Lifecycle.StopUndoesStart` | pyvoicecontrol/service.py:73-83 | Starting a resource on a free path, subscribing it, and stopping it gives back both registries. |
| `Lifecycle.Watching` | pyvoicecontrol/service.py:213-215 | One subscription per watched path, in order. |
| `Lifecycle.OthersDropsActor` | pyvoicecontrol/service.py:221-225 | Withdrawing an actor keeps the other subscriptions in order and drops all of its own. |
| `Lifecycle.OthersNone` | pyvoicecontrol/service.py:221-225 | When every subscription is the actor's own, nothing is left. |
| `Template.Template.constructor` | pyvoicecontrol/template.py:12-23 | The resource starts in state `READY` with temperature 50, after one forced broadcast of that state. |
| `Template.Template.SetStateInternal` | pyvoicecontrol/template.py:32-46 | An unrecognised or non-string state raises and keeps everything. Otherwise the state and the temperature are applied, and there is one broadcast when the call is forced or something changed. |
| `Template.Template.SetState` | pyvoicecontrol/template.py:48-50 | Only a truthy `temperature` is applied, and the state is never touched. A payload without `get` raises `AttributeError`. |
| `LogService.Reassign` | pyvoicecontrol/logserv.py:40-41 | Writing back the stored state name is accepted and changes nothing. |
| `LogService.Accept` | pyvoicecontrol/logserv.py:40-41 | Assigning a value to a machine without successors passes exactly when the value is a string whose upper-case form is allowed. |
| `LogService.TryIsAccept` | pyvoicecontrol/logserv.py:40-41 | For both of the service's machines, the machine's validation is `Accept`. |
| `LogService.WriteBackIsSilent` | pyvoicecontrol/logserv.py:39-44 | Writing back what `get_state` returned passes, changes nothing and notifies no one. |
| `LogService.CaseVariantNotifies` | pyvoicecontrol/logserv.py:39-44 | `changed` compares the raw value, so `on` over a stored `ON` is stored as `ON` and still notifies. |
| `LogService.RejectedStateKeepsLevel` | pyvoicecontrol/logserv.py:39-41 | A rejected state raises before the level is written, and nothing is notified. |
| `LogService.LogService.State` | pyvoicecontrol/logserv.py:50-52 | `get_state` has exactly the keys `state` and `debug_level`. |
| `LogService.LogService.constructor` | pyvoicecontrol/logserv.py:8-14 | The level is the upper-cased configured level, and the state is `ON` or `OFF` as configured. The initial call broadcasts nothing. |
| `LogService.LogService.Create` | pyvoicecontrol/logserv.py:8-14 | An unrecognised level raises `ServiceUnrecognisedState`. Otherwise the service is constructed as above. |
| `LogService.LogService.SetStateInternal` | pyvoicecontrol/logserv.py:22-44 | The logger level is set for the four level names before anything is validated. The outcome, the stored state and level, and the broadcast are those of `Internal`, so a rejected state also keeps the level. |
| `LogService.LogService.SetState` | pyvoicecontrol/logserv.py:46-48 | For a dictionary payload, the outcome, state, level, `setLevel` calls and broadcast are those of `Internal` on the payload's `state` and `debug_level`, with `None` when missing. A payload that is not a dictionary raises `AttributeError`, and nothing changes. |
| `Snowboy.Detector.constructor` | pyvoicecontrol/snowboy.py:18-40 | The detector starts in `LISTENING` with no activity and no timeout, after one forced broadcast. |
| `Snowboy.Detector.SetStateInternal` | pyvoicecontrol/snowboy.py:92-100 | A truthy new state is validated and applied. The state is broadcast when the call is forced or a state was applied, and the element properties are untouched. |
| `Snowboy.Detector.Enter` | pyvoicecontrol/snowboy.py:92-100 | Moving to one of the detector's own states stores it, and broadcasts it only when it differs from the old state. |
| `Snowboy.Detector.HotwordDetect` | pyvoicecontrol/snowboy.py:66-73 | A hotword opens an episode: `DETECT_START`, activity cleared, the timeout armed, and listening, the gate and the silent flag all off. |
| `Snowboy.Detector.StopRecording` | pyvoicecontrol/snowboy.py:75-90 | An open episode ends in `DETECT_STOP` after activity, or in `DETECT_ABORT` on a timeout without activity. It then returns to `LISTENING` with the timeout disarmed and listening, the gate, the silent flag and a minimum silence of 0 restored, broadcasting both states. Silence without activity, or no open episode, changes nothing. |
| `Snowboy.Detector.VadTimeout` | pyvoicecontrol/snowboy.py:52-57 | The timeout aborts an episode that saw no activity and then closes the gate again and resets the minimum silence. Otherwise it changes nothing else. It always disarms, and does not repeat. |
| `Snowboy.Detector.SilenceDetected` | pyvoicecontrol/snowboy.py:59-60 | Silence ends an episode only after activity, in `DETECT_STOP` and then `LISTENING`, disarming the timeout and closing the gate again. Otherwise nothing changes. |
| `Snowboy.Detector.SilenceFinished` | pyvoicecontrol/snowboy.py:62-64 | Voice activity is recorded, and the minimum silence time is set. Nothing is broadcast. |
| `Snowboy.Detector.BusMessage` | pyvoicecontrol/snowboy.py:42-50 | Only element messages from the level element act, and `silence_detected` takes precedence over `silence_finished`. `silence_finished` only records activity and the minimum silence. Any other message changes nothing, including the gate, the timeout and the broadcasts. |
| `WitService.Discard` | pyvoicecontrol/witservice.py:48 | `buf[:-(2*n)]` is a prefix of the buffer. It is empty for `n == 0` (the slice `[:-0]`) or for a tail as long as the buffer, and otherwise `2n` bytes shorter. A negative `n` keeps `-2n` bytes. |
| `WitService.Request` | pyvoicecontrol/witservice.py:42-77 | An empty buffer changes nothing. Otherwise exactly one body, the trimmed buffer, is posted and saved when an output file is set. The broadcasts start with `POSTING` and end with `IDLE` and the published intent. The intent only changes to a dictionary answer. |
| `WitService.React` | pyvoicecontrol/witservice.py:36-40 | `notify` raises exactly when the state has no `state` entry. Only `DETECT_STOP` changes the intent, the posts or the broadcasts, and only it or `LISTENING` changes the buffer. |
| `WitService.ListeningDropsRequest` | pyvoicecontrol/witservice.py:36-40 | After `LISTENING`, a `DETECT_STOP` that comes before any audio posts nothing and changes nothing. |
| `WitService.EpisodePostsOnce` | pyvoicecontrol/witservice.py:30-45 | Audio received after `LISTENING`, then `DETECT_STOP` and `LISTENING`, posts exactly the audio minus its tail once and leaves the buffer empty. |
| `WitService.Wit.constructor` | pyvoicecontrol/witservice.py:16-28 | The service starts `IDLE` with an empty intent and an empty buffer, after one forced broadcast, and subscribes to `/speech/detector`. |
| `WitService.Wit.SetStateInternal` | pyvoicecontrol/witservice.py:79-90 | A truthy new state is validated and applied, and a truthy intent replaces the old one. The state is broadcast when the call is forced or either was applied. |
| `WitService.Wit.Enter` | pyvoicecontrol/witservice.py:79-90 | Moving to one of the service's own states stores it, together with a truthy intent. |
| `WitService.Wit.IoHandler` | pyvoicecontrol/witservice.py:30-34 | A datagram is appended to the buffer, nothing else changes, and the watch stays installed. |
| `WitService.Wit.HandleRequest` | pyvoicecontrol/witservice.py:42-77 | The new buffer, intent, posts, saved bodies and broadcasts are those of `Request`. An empty buffer is left alone. Otherwise the buffer minus its tail is posted in `POSTING`, a dictionary answer is published in `INTENT`, and the request ends in `IDLE`. |
| `WitService.Wit.Notify` | pyvoicecontrol/witservice.py:36-40 | The outcome and the new buffer, intent, posts, saved bodies and broadcasts are those of `React`. A state without a `state` entry raises. `DETECT_STOP` runs `Request`, `LISTENING` only clears the buffer, and any other state changes nothing. |
| `Input.Entry` | pyvoicecontrol/input.py:22 | `key, action = x.split(':')` succeeds exactly when `x` holds one `:`, and the two halves joined by `:` give back `x`. Otherwise it raises `ValueError`. |
| `Input.ActionMapOk` | pyvoicecontrol/input.py:20-23 | The action map parses exactly when every entry holds exactly one `:`. |
| `Input.ActionMapLastWins` | pyvoicecontrol/input.py:20-23 | Each key maps to the action of its last entry. |
| `Input.ActionMapKeys` | pyvoicecontrol/input.py:20-23 | Only keys named by some entry are mapped. |
| `Input.ParseActionMap` | pyvoicecontrol/input.py:20-23 | The loop computes `ActionMap`. |
| `Input.ActionMapPrefixErr` | pyvoicecontrol/input.py:21-22 | Once a prefix of the entries fails to parse, the whole list fails with the same error. |
| `Input.ActionMapError` | pyvoicecontrol/input.py:22 | A failed parse raises `ValueError`. |
| `Input.AdmitSpec` | pyvoicecontrol/input.py:35-47 | A pass over the listed devices only appends. Each address is kept once, every admitted device ends up known, and every new address belongs to an admitted device. |
| `Input.HitsMembers` | pyvoicecontrol/input.py:61-63 | An action is hit exactly when some key of the event is mapped to it. |
| `Input.HitsSnoc` | pyvoicecontrol/input.py:61-63 | One more key adds its action when the key is mapped, and nothing otherwise. |
| `Input.Announce` | pyvoicecontrol/input.py:61-63 | There is at most one broadcast per hit, and there is one whenever the first hit changes the state or the action. |
| `Input.AnnounceSnoc` | pyvoicecontrol/input.py:61-63 | One more hit broadcasts exactly when it changes the state or the action. |
| `Input.AnnounceRepeat` | pyvoicecontrol/input.py:61-63 | Pressing keys whose action is already the current one announces nothing. |
| `Input.Input.constructor` | pyvoicecontrol/input.py:12-33 | The service starts `IDLE` with no action and no devices, after one forced broadcast. |
| `Input.Input.Create` | pyvoicecontrol/input.py:12-18 | Construction succeeds exactly when every action-map entry holds one `:`, and raises `ValueError` otherwise. The map is `ActionMap`. |
| `Input.Input.SetStateInternal` | pyvoicecontrol/input.py:67-81 | A truthy new state is validated and applied, and a new non-`None` action replaces the old one. The state is broadcast when the call is forced or either was applied. |
| `Input.Input.HandleKeyEvent` | pyvoicecontrol/input.py:55-65 | Any event other than a key-down sets `IDLE`. On a key-down, each mapped key in turn sets `ACTION` with its action, so the last hit wins, and the broadcasts are `Announce`. |
| `Input.Input.Press` | pyvoicecontrol/input.py:62-63 | One mapped key gives `ACTION` with its action, broadcast when either changed. |
| `Input.Input.UpdateAvailableInputs` | pyvoicecontrol/input.py:35-47 | The known devices become `Admit` of the listing, and the timer repeats. |
| `AudioAlerts.Parse` | pyvoicecontrol/audio_alerts.py:46-50 | A trigger string parses only when, once stripped, it holds exactly three `:`. A dotted attribute must split into exactly two parts. Every other string raises `ValueError`. |
| `AudioAlerts.ParseDotted` | pyvoicecontrol/audio_alerts.py:46-50 | `resource:a.b:value:file` watches the entry `b` of attribute `a`, with the key `{b: value}`. |
| `AudioAlerts.Parsed` | pyvoicecontrol/audio_alerts.py:45-46 | Each trigger string is parsed on its own, in order. |
| `AudioAlerts.Add` | pyvoicecontrol/audio_alerts.py:51-56 | Adding a trigger stores its file under its resource, attribute and key, and adds the resource when it is new; the resources known are the old ones plus this one. A new resource is watched, after the earlier ones. |
| `AudioAlerts.Build` | pyvoicecontrol/audio_alerts.py:43-56 | The table built watches at most one resource per trigger. |
| `AudioAlerts.AddKeepsOthers` | pyvoicecontrol/audio_alerts.py:51-56 | Adding a trigger keeps every other resource's files, and every other attribute of its own resource; an existing resource gains only the trigger's attribute. |
| `AudioAlerts.AddKeeps` | pyvoicecontrol/audio_alerts.py:51-56 | Adding a trigger keeps the table well built, and stores the file under its resource, attribute and key. |
| `AudioAlerts.BuildWellBuilt` | pyvoicecontrol/audio_alerts.py:43-56 | In the table built from the triggers, each resource is watched once and exactly the resources that have triggers are watched. Each attribute list names exactly that resource's attributes. |
| `AudioAlerts.BuildWatchedFromTriggers` | pyvoicecontrol/audio_alerts.py:51-53 | Every resource watched comes from some trigger that parsed. |
| `AudioAlerts.BuildFromTriggers` | pyvoicecontrol/audio_alerts.py:51-56 | Every attribute of a resource in the table comes from some trigger that parsed, with that resource and attribute. |
| `AudioAlerts.BuildLastWins` | pyvoicecontrol/audio_alerts.py:56 | A trigger's file is kept unless a later trigger names the same resource, attribute and key, so the last one wins. |
| `AudioAlerts.BuildOk` | pyvoicecontrol/audio_alerts.py:45-46 | Setting up the triggers raises nothing exactly when every trigger string parses. |
| `AudioAlerts.BuildPrefixErr` | pyvoicecontrol/audio_alerts.py:45-46 | Once a prefix of the triggers raises, the whole list raises the same way, with the same table. |
| `AudioAlerts.BuildError` | pyvoicecontrol/audio_alerts.py:46-48 | The error raised is the one some trigger string raised. |
| `AudioAlerts.Launches` | pyvoicecontrol/audio_alerts.py:30-41 | A notification launches at most one file per watched attribute, and never an empty one. |
| `AudioAlerts.LaunchesMatch` | pyvoicecontrol/audio_alerts.py:38-41 | A state whose value for a watched attribute equals a trigger's value launches that trigger's file. |
| `AudioAlerts.KeyOf` | pyvoicecontrol/audio_alerts.py:38-39 | `str(value)` as a key: a string is its own key and an integer's key reads back as that integer. A list finds no key. A dictionary finds a key only when it has one entry and that entry is a string, and the key names that entry. |
| `AudioAlerts.FileFor` | pyvoicecontrol/audio_alerts.py:29-39 | A file is selected only when the attribute has triggers, and then it is one configured for the attribute. A value that renders to no key selects nothing. |
| `AudioAlerts.LookupKey` | pyvoicecontrol/audio_alerts.py:35-39 | The computed key is the `str` rendering given by `KeyOf`. |
| `AudioAlerts.Lookup` | pyvoicecontrol/audio_alerts.py:29-39 | The computed file is the one `FileFor` selects. |
| `AudioAlerts.TriggerFires` | pyvoicecontrol/audio_alerts.py:38-41 | A trigger that no later trigger overrides fires: a state whose value renders to the trigger's key selects the trigger's file. |
| `AudioAlerts.DottedTriggerFires` | pyvoicecontrol/audio_alerts.py:46-56 | The dotted trigger `resource:a.b:value:file` fires for a state whose entry `a` is `{b: value}`. |
| `AudioAlerts.Alerts.Create` | pyvoicecontrol/audio_alerts.py:21-26 | Construction succeeds exactly when every trigger string parses, and otherwise raises `ValueError`. The resources met before the failure stay subscribed. On success the table is `Build` of the triggers and there is one forced `READY` broadcast. |
| `AudioAlerts.Alerts.constructor` | pyvoicecontrol/audio_alerts.py:21-26 | The resource starts `READY` with the given table and nothing launched, after one forced broadcast. |
| `AudioAlerts.Alerts.SetupTriggers` | pyvoicecontrol/audio_alerts.py:43-56 | The loop computes `Build`, and subscribes to each watched resource once, when that resource first appears. |
| `AudioAlerts.Subscribe` | pyvoicecontrol/audio_alerts.py:51-53 | Registering for each path keeps the earlier subscriptions and subscribes the actor to every path. Each subscription added is the actor's, for one of the paths, and is not already there. |
| `AudioAlerts.Alerts.SetStateInternal` | pyvoicecontrol/audio_alerts.py:87-95 | A truthy new state is validated and applied. With the default `forced=True`, every call broadcasts. |
| `AudioAlerts.Alerts.Notify` | pyvoicecontrol/audio_alerts.py:28-41 | An unwatched path launches nothing. For a watched path, a state that is not a dictionary raises `AttributeError`. Otherwise the launched files are `Launches`, in attribute order. |
| `AudioAlerts.Alerts.BusHandler` | pyvoicecontrol/audio_alerts.py:58-76 | End of stream and errors return to `READY`, and a pipeline reaching its `READY` state gives `PLAYING`, each broadcast. Any other message changes nothing. |
| `Bluetoothctl.Execute` | pyvoicecontrol/bluetoothctl.py:26-35 | End of file and a timeout both become `''` through the bare `except`. With required replies, the result is the index of the reply matched. Without them, text that is not ASCII fails to decode and also gives `''`. ASCII text is split on `\r\n` into lines that join back to it. |
| `Bluetoothctl.SplitLines` | pyvoicecontrol/bluetoothctl.py:33 | `before.split("\r\n")` gives at least one line, and the lines joined with `\r\n` give back the text. Text without `\r` is one line. |
| `Bluetoothctl.NewlineStaysInLine` | pyvoicecontrol/bluetoothctl.py:33 | A bare `\n` does not split a line. |
| `Bluetoothctl.Confirmed` | pyvoicecontrol/bluetoothctl.py:141 | `res == 0` holds exactly when the first required reply matched. A failure's `''` is not 0. |
| `Bluetoothctl.ParseDeviceInfo` | pyvoicecontrol/bluetoothctl.py:58-75 | A line that mentions the escape sequence or `removed`, or that has no `Device`, gives `{}`. The only error is `IndexError`, which is raised outside the `try`. |
| `Bluetoothctl.ParseDeviceInfoShape` | pyvoicecontrol/bluetoothctl.py:65-74 | A parsed device comes from the text from the first `Device` on: a word, the space-free MAC address and the name, separated by single spaces. `IndexError` is raised exactly when that text has fewer than two spaces. |
| `Bluetoothctl.DevicePrefix` | pyvoicecontrol/bluetoothctl.py:70 | The first piece of the split is the word that starts with `Device`. |
| `Bluetoothctl.Devices` | pyvoicecontrol/bluetoothctl.py:84-89 | A listing yields at most one device per line. |
| `Bluetoothctl.DevicesStep` | pyvoicecontrol/bluetoothctl.py:85-88 | The devices of a listing are those of its first line followed by those of the rest. |
| `Bluetoothctl.DevicesFromLines` | pyvoicecontrol/bluetoothctl.py:84-89 | A device is listed exactly when some line parses to it. |
| `Bluetoothctl.DiscoverableMembers` | pyvoicecontrol/bluetoothctl.py:106-109 | The discoverable devices are exactly the available devices that are not paired. |
| `Bluetoothctl.DiscoverableKeepsOrder` | pyvoicecontrol/bluetoothctl.py:109 | The filter works item by item, so it keeps the available order, and with nothing paired it keeps every device. |
| `Bluetoothctl.Discoverable` | pyvoicecontrol/bluetoothctl.py:109 | There are never more discoverable devices than available ones. |
| `Bluetoothctl.InfoPair` | pyvoicecontrol/bluetoothctl.py:121-127 | Only a line with one `:` and a space-free key gives a pair. The key holds neither a space nor a `:`. |
| `Bluetoothctl.InfoLine` | pyvoicecontrol/bluetoothctl.py:121-132 | A clean `key:value` line gives its key and its stripped value. |
| `Bluetoothctl.Fold` | pyvoicecontrol/bluetoothctl.py:123-132 | A line without a pair changes nothing. A line with a pair adds exactly its key. |
| `Bluetoothctl.FoldRepeats` | pyvoicecontrol/bluetoothctl.py:128-132 | A key met once holds its value, and met twice holds the list of both values. Met a third time, it holds the third value alone, because the list is overwritten. |
| `Bluetoothctl.Info` | pyvoicecontrol/bluetoothctl.py:121-133 | No lines give `{}`. Every key comes from some line of the form `key:value`, and no key holds a space or a colon. |
| `Bluetoothctl.Repeat` | pyvoicecontrol/bluetoothctl.py:113-114 | The same command `n` times. |
| `Bluetoothctl.Bluetoothctl.constructor` | pyvoicecontrol/bluetoothctl.py:18-20 | The wrapper starts having sent nothing. |
| `Bluetoothctl.Bluetoothctl.ExecuteCommand` | pyvoicecontrol/bluetoothctl.py:26-35 | The command is sent, and the result is `Execute`. |
| `Bluetoothctl.Bluetoothctl.ListDevices` | pyvoicecontrol/bluetoothctl.py:77-104 | A listing command is sent, and its lines give `Devices`. A failed command yields `''`, which has no lines. |
| `Bluetoothctl.Bluetoothctl.ParseListing` | pyvoicecontrol/bluetoothctl.py:84-89 | The loop computes `Devices`, and the first failure propagates. |
| `Bluetoothctl.Bluetoothctl.GetDiscoverableDevices` | pyvoicecontrol/bluetoothctl.py:106-109 | `devices` is sent, and `paired-devices` only when the first listing succeeded. The result is the available devices that are not paired, or the first listing's error. |
| `Bluetoothctl.Bluetoothctl.GetDeviceInfo` | pyvoicecontrol/bluetoothctl.py:111-133 | `info <mac>` is sent up to three times, and stops early only when a reply line is exactly `Device`. The last reply is folded into the result. |
| `Bluetoothctl.Bluetoothctl.FoldLines` | pyvoicecontrol/bluetoothctl.py:122-133 | The loop computes `Info`. |
| `Bluetoothctl.Bluetoothctl.Switch` | pyvoicecontrol/bluetoothctl.py:37-56 | `scan on`, `scan off` or `discoverable on` is sent and its reply ignored. |
| `Bluetoothctl.Bluetoothctl.Confirm` | pyvoicecontrol/bluetoothctl.py:135-173 | `trust`, `pair`, `remove`, `connect` or `disconnect` is sent, and the answer is true exactly when the first required reply matched. |
| `Bluetooth.Classify` | pyvoicecontrol/bluetooth.py:64-89 | A device is classified as one of `SCANNING`, `PAIRING`, `CONNECTING` and `CONNECTED`. It is waiting, and its requests start with `start_scan`, exactly when it is not connected. Only a non-empty answer that lacks `Paired` or `Connected` raises `KeyError`. |
| `Bluetooth.ClassifyCases` | pyvoicecontrol/bluetooth.py:66-89 | The checks come in order: out of reach, then not paired, then not connected. A device counts as connected exactly when it is reported both paired and connected. |
| `Bluetooth.Step` | pyvoicecontrol/bluetooth.py:62-91 | Each device only appends requests and adds its own entry. Once a device has raised, nothing else happens in the pass. |
| `Bluetooth.RoundErrSticks` | pyvoicecontrol/bluetooth.py:62-91 | Once a prefix of the pass has raised, the whole pass ends with that error. |
| `Bluetooth.Round` | pyvoicecontrol/bluetooth.py:59-91 | The only error a pass raises is `KeyError`, from a missing `Paired` or `Connected`. |
| `Bluetooth.RoundDevices` | pyvoicecontrol/bluetooth.py:60-89 | A pass that raised nothing has an entry for exactly the configured devices. |
| `Bluetooth.AllConnected` | pyvoicecontrol/bluetooth.py:62-91 | When every device is connected, the pass gives a table of `CONNECTED` entries and one `stop_scan` per device, and nothing else. |
| `Bluetooth.Leading` | pyvoicecontrol/bluetooth.py:62-91 | The number of connected devices at the front of the pass is at most the number of devices. |
| `Bluetooth.LeadingPrefix` | pyvoicecontrol/bluetooth.py:62-91 | The leading run of a prefix of the pass is the leading run cut to that prefix. |
| `Bluetooth.LeadingAll` | pyvoicecontrol/bluetooth.py:62-91 | The leading run covers the whole pass exactly when it covers all but the last device and the last device is connected. |
| `Bluetooth.StopScanFirst` | pyvoicecontrol/bluetooth.py:61-91 | Because the waiting flag is sticky, `stop_scan` is sent once per leading connected device and never after. The pass is waiting exactly when some device was not connected. |
| `Bluetooth.SnapshotInjective` | pyvoicecontrol/bluetooth.py:111-112 | Different device tables give different broadcast states. |
| `Bluetooth.Snapshot` | pyvoicecontrol/bluetooth.py:111-112 | `get_state` has exactly `state` and `devices`, and `devices` has exactly one `{'state': ...}` entry per device, holding that device's state. |
| `Bluetooth.Bluetooth.constructor` | pyvoicecontrol/bluetooth.py:14-34 | The resource starts `READY` with every configured device `UNKNOWN` and no requests, after one forced broadcast. |
| `Bluetooth.Bluetooth.SetStateInternal` | pyvoicecontrol/bluetooth.py:95-109 | A truthy new state is validated and applied, and a different device table replaces the old one. The state is broadcast when the call is forced or either changed. |
| `Bluetooth.Bluetooth.ProcessDevices` | pyvoicecontrol/bluetooth.py:58-92 | One pass sends the requests of `Round`. A raised error ends the loop and leaves the table as it was. Otherwise the table becomes the pass's table, and is broadcast when it changed. |
| `Bluetooth.Bluetooth.Publish` | pyvoicecontrol/bluetooth.py:92 | The table is replaced, and broadcast only when it differs from the old one. |
| `Dispatch.In` | pyvoicecontrol/snapcast.py:49 | `needle in hay` is a substring test for a string, membership for a list and key membership for a dictionary. Anything else raises `TypeError`. |
| `Dispatch.Iterate` | pyvoicecontrol/snapcast.py:47-48 | `for intent in intents: intent['name']` walks the items of a list. An empty container gives nothing. A non-empty string or dictionary raises `TypeError` at the first subscript, and so does a scalar. |
| `Dispatch.IntentOf` | pyvoicecontrol/snapcast.py:48-60 | The intent name is matched with `in` in a fixed order, and it raises only when the first `in` raises. |
| `Dispatch.IntentOrder` | pyvoicecontrol/snapcast.py:49-60 | The order of the tests decides. `unmute` also contains `mute` yet unmutes. A step intent also contains `volume` yet steps. A name is a level intent exactly when it holds `volume` but neither step nor `mute`, and it is ignored exactly when it holds neither `mute` nor `volume`. |
| `Dispatch.ActionOf` | pyvoicecontrol/snapcast.py:38-44 | For a string action, `volume_louder` raises the volume, then `volume_quieter` lowers it, and anything else is ignored. It raises exactly when the first `in` raises. |
| `Dispatch.Done` | pyvoicecontrol/snapcast.py:46-60 | A run of client requests, in the Snapcast, Pulse and Spotify resources alike, passes exactly when it raised nothing, and otherwise raises what stopped it. |
| `Snapcast.StepUp` | pyvoicecontrol/snapcast.py:62-66 | Under local control the own client is set one step louder, capped at 100. Without it nothing changes. |
| `Snapcast.StepDown` | pyvoicecontrol/snapcast.py:68-72 | Under local control the own client is set one step quieter, floored at 0. Without it nothing changes. |
| `Snapcast.StepsClamp` | pyvoicecontrol/snapcast.py:62-72 | A step moves the volume by at most the step size and keeps it within 0 to 100. Away from the bounds, a step up and a step down undo each other. |
| `Snapcast.Muted` | pyvoicecontrol/snapcast.py:90-92 | `_mute` sets the own client's flag under local control and leaves the volume alone. |
| `Snapcast.Send` | pyvoicecontrol/snapcast.py:82-88 | A volume command is logged, and the own client follows an integer level sent to its own location. |
| `Snapcast.Locations` | pyvoicecontrol/snapcast.py:80-84 | Setting the locations only appends commands and never touches the mute flag. |
| `Snapcast.AtLevel` | pyvoicecontrol/snapcast.py:79-88 | One level only appends commands and never touches the mute flag. |
| `Snapcast.Levels` | pyvoicecontrol/snapcast.py:77-88 | The level loop only appends commands and never touches the mute flag. |
| `Snapcast.SetVolumes` | pyvoicecontrol/snapcast.py:74-76 | Entities that are not a dictionary raise `AttributeError`, and the mute flag is never touched. |
| `Snapcast.Product` | pyvoicecontrol/snapcast.py:77-84 | Every level sent to every location makes one command per pair. |
| `Snapcast.Spread` | pyvoicecontrol/snapcast.py:80-84 | One level is sent to each location in order. |
| `Snapcast.Spread2` | pyvoicecontrol/snapcast.py:77-88 | Each level is sent to one location in order. |
| `Snapcast.Seq` | pyvoicecontrol/snapcast.py:78-81 | Each entity is an entry `{'value': v}`. |
| `Snapcast.LevelsEverywhere` | pyvoicecontrol/snapcast.py:77-84 | When locations are named, every location's client is set to every level, levels outermost, whatever the local-control setting. |
| `Snapcast.LocationsEverywhere` | pyvoicecontrol/snapcast.py:80-84 | Every named location gets the level, in order. |
| `Snapcast.LevelsLocally` | pyvoicecontrol/snapcast.py:85-88 | When no location is named, the own client gets every level, and only under local control. |
| `Snapcast.MuteIntents` | pyvoicecontrol/snapcast.py:46-52 | `unmute` then `mute` leaves the client muted, and the other order leaves it unmuted, so the last intent wins and `unmute` is not taken for `mute`. |
| `Snapcast.DuckRestores` | pyvoicecontrol/snapcast.py:25-32 | A phrase leaves the mute flag and the volume as it found them: muted at `DETECT_START`, restored at `DETECT_STOP` or `DETECT_ABORT`. |
| `Snapcast.Snapcast.constructor` | pyvoicecontrol/snapcast.py:11-22 | The resource starts `READY` after one forced broadcast. It subscribes to the detector, the intents and the input, adding nothing else, and saves the client's mute flag. |
| `Snapcast.Snapcast.SetStateInternal` | pyvoicecontrol/snapcast.py:94-105 | A truthy new state is validated and applied. The state is broadcast when the call is forced or a state was applied, and the client is untouched. |
| `Snapcast.Snapcast.VolumeHigher` | pyvoicecontrol/snapcast.py:62-66 | The client becomes `StepUp` of what it was. |
| `Snapcast.Snapcast.VolumeLower` | pyvoicecontrol/snapcast.py:68-72 | The client becomes `StepDown` of what it was. |
| `Snapcast.Snapcast.SetMute` | pyvoicecontrol/snapcast.py:90-92 | The client becomes `Muted` of what it was. |
| `Snapcast.Snapcast.SendVolume` | pyvoicecontrol/snapcast.py:82-84 | The client becomes `Send` of what it was. |
| `Snapcast.Snapcast.SetLocations` | pyvoicecontrol/snapcast.py:80-84 | The loop leaves the client as `Locations` says, and raises what it raises. |
| `Snapcast.Snapcast.Volume` | pyvoicecontrol/snapcast.py:74-88 | The loops leave the client as `SetVolumes` says, and raise what it raises. |
| `Snapcast.Snapcast.ProcessIntent` | pyvoicecontrol/snapcast.py:46-60 | The loop leaves the client as `Intents` says, stopping at the first error. Intents that cannot be iterated raise `TypeError` first. |
| `Snapcast.Snapcast.HandleInputAction` | pyvoicecontrol/snapcast.py:38-44 | `volume_louder` steps up and `volume_quieter` steps down. Anything else leaves the client alone. |
| `Snapcast.Snapcast.Notify` | pyvoicecontrol/snapcast.py:24-36 | With ducking and local control on, detector states duck as `Duck` says, and other detector states change nothing. With either off, detector states change nothing. An `INTENT` state forwards its intents and entities, with the defaults `[]` and `{}`. An `ACTION` state forwards its action. A missing `state`, `intent` or `action` raises, and other states and paths change nothing. What the forwarded call raises is kept apart from what `notify` raises. |
| `Pulse.Local` | pyvoicecontrol/pulse.py:183-191 | `_volume_higher`, `_volume_lower` and `_mute` keep every earlier request. They add exactly one request, and only under local volume control. |
| `Pulse.Locations` | pyvoicecontrol/pulse.py:199-203 | The loop over locations only ever appends to the requests already made. |
| `Pulse.AtLevel` | pyvoicecontrol/pulse.py:196-207 | One level of `_volume` only ever appends to the requests already made. |
| `Pulse.Levels` | pyvoicecontrol/pulse.py:196-207 | The loop over levels only ever appends to the requests already made. |
| `Pulse.SetVolumes` | pyvoicecontrol/pulse.py:193-195 | Entities that are not a dictionary raise `AttributeError` at `.get`, and nothing is requested. |
| `Pulse.SilentWithoutLocal` | pyvoicecontrol/pulse.py:167-211 | Without `local_volume_control`, no list of intents and no entities make `process_intent` send a request to the client. |
| `Pulse.SetVolumesSilent` | pyvoicecontrol/pulse.py:193-207 | Without local control, `_volume` sends no request, whatever the entities. |
| `Pulse.LevelsSilent` | pyvoicecontrol/pulse.py:196-207 | Without local control, the loop over levels sends no request. |
| `Pulse.LocationsSilent` | pyvoicecontrol/pulse.py:199-203 | Without local control, the loop over locations sends no request. |
| `Pulse.Entries` | pyvoicecontrol/pulse.py:197-200 | Builds the `{'value': v}` entries that `_volume` reads, one per value and in order. |
| `Pulse.Hits` | pyvoicecontrol/pulse.py:201 | The number of named locations equal to the own location. It is at most the number of locations, and zero when the own location is not named. |
| `Pulse.Times` | pyvoicecontrol/pulse.py:199-203 | A request repeated `n` times: `n` copies of it. |
| `Pulse.OwnLocationOnly` | pyvoicecontrol/pulse.py:199-203 | With named locations, the level is set once for each naming of the own location and never for another room. This happens only under local control, and nothing raises. |
| `Pulse.DuckRestores` | pyvoicecontrol/pulse.py:146-153 | `DETECT_START` saves the reported mute flag and mutes. A following `DETECT_STOP` or `DETECT_ABORT` restores the saved flag. A stop before any start raises `AttributeError`, because `_mute_state` was never set. |
| `Pulse.Pulse.constructor` | pyvoicecontrol/pulse.py:129-139 | The resource starts in `READY` with no requests and no saved mute flag. It broadcasts its state once. It subscribes to exactly the detector, intent and input paths, and keeps every earlier subscription. |
| `Pulse.Pulse.SetStateInternal` | pyvoicecontrol/pulse.py:213-224 | A truthy state that differs from the current one is tried against the machine and adopted in upper case when it is admitted. The state is broadcast when forced or when it changed. Nothing else changes. |
| `Pulse.Pulse.Request` | pyvoicecontrol/pulse.py:183-191 | One `_volume_higher`, `_volume_lower` or `_mute` request is made exactly under local control. The saved mute flag and the broadcasts do not change. |
| `Pulse.Pulse.SetLocations` | pyvoicecontrol/pulse.py:199-203 | The loop over locations makes exactly the requests of `Locations` and raises what it raises. |
| `Pulse.Pulse.Volume` | pyvoicecontrol/pulse.py:193-207 | `_volume` makes exactly the requests of `SetVolumes` and raises what it raises. |
| `Pulse.Pulse.ProcessIntent` | pyvoicecontrol/pulse.py:167-181 | Walking a non-iterable raises at once and requests nothing. Otherwise the requests and the error are those of `Intents`, with a bad intent stopping the walk. |
| `Pulse.Pulse.HandleInputAction` | pyvoicecontrol/pulse.py:159-165 | `volume_louder` raises the volume by the step and `volume_quieter` lowers it, both only under local control. Any other action is ignored, and an action `in` cannot search raises `TypeError`. |
| `Pulse.Pulse.Notify` | pyvoicecontrol/pulse.py:145-157 | Detector states duck only when ducking and local control are both on, and otherwise change nothing. `INTENT` forwards the intents, defaulting to none, and the entities, defaulting to `{}`. `ACTION` from the input path forwards the action. A missing `state`, `intent` or `action` raises, and other states and paths change nothing. A forwarded failure is never raised by `notify` itself. |
| `Spotify.InputControl` | pyvoicecontrol/spotify.py:39-53 | The input dispatch raises exactly when the first `in` test raises. Otherwise it picks one of the six playback controls or ignores the action. |
| `Spotify.IntentControl` | pyvoicecontrol/spotify.py:55-80 | The intent dispatch raises exactly when the first `in` test raises. It never toggles, because intents have no `playpause` branch. |
| `Spotify.InputOrder` | pyvoicecontrol/spotify.py:46-49 | An input action containing `playpause` also contains `pause`, yet it toggles. An action pauses exactly when it contains `pause` but not `playpause`, and no earlier control matches. |
| `Spotify.IntentOrder` | pyvoicecontrol/spotify.py:65-78 | `unshuffle` contains `shuffle` and `unloop` contains `loop`, yet the longer name wins because it is checked first. A `playpause` intent pauses. |
| `Spotify.Effect` | pyvoicecontrol/spotify.py:107-137 | Each playback method that takes no answer makes exactly one request. Toggling, playing and an ignored action make none here. |
| `Spotify.ToggleFlips` | pyvoicecontrol/spotify.py:139-148 | `_toggle_music` pauses exactly when the playback reports that it is playing. It resumes when the playback is paused or when nothing plays. |
| `Spotify.Toggle` | pyvoicecontrol/spotify.py:139-148 | `_toggle_music` raises exactly when a truthy playback has no `is_playing`, and then sends nothing. Otherwise it sends one request, a pause exactly when the playback is truthy and says it is playing, and a resume otherwise. |
| `Spotify.Pick` | pyvoicecontrol/spotify.py:152-153 | `entities.get(key, [{}])[0].get('value', None)` gives `None` for a missing key. For a list whose first entry is a dictionary, it gives that entry's `value`, or `None`. An empty list raises `IndexError`, a first entry that is not a dictionary raises `AttributeError`, and a value that is not a list raises. |
| `Spotify.First` | pyvoicecontrol/spotify.py:152 | `v[0]` is the first item of a non-empty list. Failing to index raises only `IndexError`, `KeyError` or `TypeError`. |
| `Spotify.ReplaceSpaces` | pyvoicecontrol/spotify.py:157 | `item.replace(tag + ' ', tag + ':')` keeps the length and only turns spaces into colons. |
| `Spotify.RetagSpaces` | pyvoicecontrol/spotify.py:155-157 | The whole tag loop keeps the item's length and only turns spaces into colons. |
| `Spotify.RetagUntagged` | pyvoicecontrol/spotify.py:155-157 | An item that starts with no tag followed by a space is searched unchanged. |
| `Spotify.RetagTagged` | pyvoicecontrol/spotify.py:155-157 | An item that starts with `track `, `album ` or `artist ` is searched as a field filter `tag:`. With an author, this holds for `track` and `album`. |
| `Spotify.Query` | pyvoicecontrol/spotify.py:152-172 | With no item there is no search, and an item that is not a string raises `AttributeError`. Without an author, the retagged item is searched over artists, albums and tracks. With an author, the item retagged for tracks and albums plus ` artist:<author>` is searched over albums and tracks. |
| `Spotify.Tracks` | pyvoicecontrol/spotify.py:161 | A URI is kept exactly when it was found and contains `:track:`. |
| `Spotify.TracksKeepOrder` | pyvoicecontrol/spotify.py:161 | The track filter keeps the order of the search result, because it distributes over concatenation. |
| `Spotify.PlayStartsTracks` | pyvoicecontrol/spotify.py:150-176 | `_play_music` makes at most a search and then a playback. Playback starts only right after the search, with exactly the track URIs that search found, and never with an empty list. |
| `Spotify.Play` | pyvoicecontrol/spotify.py:150-176 | `_play_music` keeps the earlier requests and sends nothing when it raises. With no item, it sends nothing. Anything it sends starts with a search for the query that `Query` builds from the item and author, with the configured limit. |
| `Spotify.Act` | pyvoicecontrol/spotify.py:55-80 | Only `play_music` can raise, and then it sends nothing. Every other control sends at most one request, and a playback control sends exactly one, to the device. |
| `Spotify.Intents` | pyvoicecontrol/spotify.py:55-80 | No intents send nothing. The earlier requests are kept. A walk that raised nothing met only intents with a `name` that the dispatch could test. |
| `Spotify.OneDevice` | pyvoicecontrol/spotify.py:55-80 | Every request made by a run of intents, apart from searches, goes to the selected device. Earlier requests are kept. |
| `Spotify.Fallback` | pyvoicecontrol/spotify.py:94-104 | With nothing playing and no listing fetched, the fallback raises `TypeError`. A first listed device without a `name` raises `KeyError`, from the log argument read before its id. |
| `Spotify.FallbackNeedsName` | pyvoicecontrol/spotify.py:100-104 | When nothing plays and the first listed device has an id but no name, the fallback raises `KeyError` instead of choosing it. |
| `Spotify.UnconfiguredNothingPlaying` | pyvoicecontrol/spotify.py:84-100 | With no device name configured and nothing playing, the code as written raises `TypeError` whatever devices are listed, where the corrected selection picks the first listed device. |
| `Spotify.DeviceAsWritten` | pyvoicecontrol/spotify.py:84-100 | As written, with no device name configured, nothing playing raises `TypeError`. When something plays, the selection agrees with the corrected fallback. |
| `Spotify.SelectDevice` | pyvoicecontrol/spotify.py:82-105 | With a device name configured, the corrected selection agrees with the code as written. |
| `Spotify.Listing` | pyvoicecontrol/spotify.py:86-88 | Builds a well-formed `devices()` answer with one entry per device. |
| `Spotify.Entries` | pyvoicecontrol/spotify.py:88-91 | Builds one `{'name', 'id'}` entry per device, in order. |
| `Spotify.Playing` | pyvoicecontrol/spotify.py:94-97 | Builds a current-playback answer on a device, which is truthy. |
| `Spotify.NamedFirst` | pyvoicecontrol/spotify.py:88-92 | The name search over a well-formed listing never raises. It finds nothing exactly when no device has the name, and otherwise it finds the id of the first device with the name. |
| `Spotify.Named` | pyvoicecontrol/spotify.py:88-92 | The search finds nothing only when every device has a `name` and none is the configured one. |
| `Spotify.DeviceOrder` | pyvoicecontrol/spotify.py:82-105 | The first device with the configured name is chosen first. Otherwise the device of the current playback is chosen, then the first listed device, and otherwise none. |
| `Spotify.Spotify.Snapshot` | pyvoicecontrol/spotify.py:188-189 | `get_state` has exactly `state` and `now_playing`, and the latter is always `{}`. |
| `Spotify.Spotify.constructor` | pyvoicecontrol/spotify.py:13-31 | The resource starts in `READY` with no requests and no device. It broadcasts its snapshot once. It subscribes to exactly the intent and input paths, and keeps every earlier subscription. |
| `Spotify.Spotify.SetStateInternal` | pyvoicecontrol/spotify.py:178-186 | A truthy state that differs from the current one is tried against the machine and adopted when it is admitted. The snapshot is broadcast when forced or when the state changed. |
| `Spotify.Spotify.SetupDeviceId` | pyvoicecontrol/spotify.py:82-105 | The device id becomes the one the corrected `SelectDevice` chooses, or `None` when the selection raises, and the error is passed on. With a device name configured this is the code as written. |
| `Spotify.Spotify.Issue` | pyvoicecontrol/spotify.py:107-137 | A playback method appends exactly its `Effect` to the requests on the current device. |
| `Spotify.Spotify.TogglePlay` | pyvoicecontrol/spotify.py:139-148 | `_toggle_music` makes exactly the requests of `Toggle`, and raises when a truthy playback has no `is_playing`. |
| `Spotify.Spotify.PlayItem` | pyvoicecontrol/spotify.py:150-176 | `_play_music` makes exactly the requests of `Play` and raises what it raises. |
| `Spotify.Spotify.RetagItem` | pyvoicecontrol/spotify.py:155-157 | The in-place tag loop computes `Retag`, whose properties are the `Retag` lemmas above. |
| `Spotify.Spotify.HandleInputAction` | pyvoicecontrol/spotify.py:39-53 | A toggle action runs `Toggle`, another control appends its `Effect`, and an action `in` cannot search raises. |
| `Spotify.Spotify.HandleIntent` | pyvoicecontrol/spotify.py:55-80 | Walking a non-iterable raises at once. Otherwise the requests and the error are those of the intent loop, with a bad intent stopping the walk. |
| `Spotify.Spotify.Notify` | pyvoicecontrol/spotify.py:33-37 | `INTENT` from the intent path forwards the intents, defaulting to none, and the entities, defaulting to `{}`. `ACTION` from the input path forwards the action. A missing `state`, `intent` or `action` raises. Other states and paths change nothing, and a forwarded failure is never raised by `notify` itself. |
| `Config.Boolean` | pyvoicecontrol/config.py:16-22 | The text is `True` exactly when its lower-cased form is a true word. It is `False` exactly when it is a false word and not a true one. Otherwise it is neither. |
| `Config.Choice` | pyvoicecontrol/config.py:25-30 | Without allowed values, the text is stored verbatim. With them, it is accepted exactly when its lower-cased form is allowed, and it is stored lower-cased. |
| `Config.Integer` | pyvoicecontrol/config.py:31-40 | An accepted integer is what `int(text, base)` reads, in base 16 after `0x` and base 10 otherwise, and it lies within the declared bounds. |
| `Config.Scalar` | pyvoicecontrol/config.py:15-91 | An unrecognised type raises the invalid-schema-type error. A string without allowed values is stored verbatim. An integer field yields an integer, and a list has at most one element per piece. |
| `Config.Pieces` | pyvoicecontrol/config.py:51 | The stripped text split on `,` gives one more piece than it has commas. |
| `Config.Element` | pyvoicecontrol/config.py:53-88 | A list field without a subtype raises `KeyError`. A list or unrecognised subtype adds nothing, and only the four scalar subtypes add an element. |
| `Config.Elements` | pyvoicecontrol/config.py:51-89 | The list loop yields at most one value per piece. |
| `Config.ElementsInOrder` | pyvoicecontrol/config.py:51-89 | For a scalar subtype, a list that converts has exactly one value per piece, each being that piece converted. For any other subtype, the list is empty. |
| `Config.CaseInsensitive` | pyvoicecontrol/config.py:18-30 | Booleans and strings with allowed values ignore case: texts that lower-case alike convert alike. |
| `Config.LowerOfUpper` | pyvoicecontrol/config.py:18 | Upper-casing a text does not change what it lower-cases to. |
| `Config.BooleanWords` | pyvoicecontrol/config.py:15-24 | The four true words, in any case, give `True`. The four false words give `False`. Any other text raises the not-a-boolean error. |
| `Config.IntegerRoundTrip` | pyvoicecontrol/config.py:31-40 | The decimal text of any integer reads back as that integer within the bounds. Below the minimum it raises too-low, and above the maximum too-high, with the minimum checked first. |
| `Config.NoHexPrefix` | pyvoicecontrol/config.py:32 | A decimal rendering is never read in base 16. |
| `Config.Validate` | pyvoicecontrol/config.py:10-14 | A missing section raises `KeyError`. An absent field takes its default, and raises the mandatory-parameter error exactly when it has none. A present field is converted. |
| `Config.Store` | pyvoicecontrol/config.py:13 | `output_dict[section][field] = value` changes only that field of that section. It raises `KeyError` when the section was never created. |
| `Config.FieldsOk` | pyvoicecontrol/config.py:106-107 | A section's fields all go through exactly when each field validates. |
| `Config.FieldsKeys` | pyvoicecontrol/config.py:106-107 | A section's fields fill that section with exactly its fields and leave every other section alone. |
| `Config.FieldsValues` | pyvoicecontrol/config.py:106-107 | With distinct field names, each field holds its validated value. |
| `Config.SectionsOk` | pyvoicecontrol/config.py:104-107 | Parsing goes through exactly when every field of every section validates. |
| `Config.SectionsKeys` | pyvoicecontrol/config.py:104-107 | The result has exactly the schema's sections, besides what was there before. |
| `Config.SectionsValues` | pyvoicecontrol/config.py:104-107 | With distinct names, each section holds exactly its fields, each with its validated value. |
| `Config.ParseShape` | pyvoicecontrol/config.py:94-108 | `parse_config`'s result has exactly the schema's sections, each with exactly its fields and their validated values. It fails exactly when some field fails. |
| `Config.ConvertList` | pyvoicecontrol/config.py:51-89 | The list loop computes `Elements`, whose order is given by `ElementsInOrder`. |
| `Config.ValidateAndConvertTypes` | pyvoicecontrol/config.py:5-91 | The field's validated value is stored into the output, or the first error is raised. |
| `Config.ParseConfig` | pyvoicecontrol/config.py:94-108 | The loops compute `Parse`, whose shape is given by `ParseShape`. |

## Left out

- Actors and concurrency (pykka): calls between actors are synchronous method calls, and a call made through a proxy is returned as the `forwarded` outcome instead of being queued.
- Foreign libraries are not modelled: Gst pipelines, evdev, pexpect, requests, `snapcast.control`, the pulse client, spotipy and its OAuth setup. What a resource sends to them is a log of commands, and what they answer is a parameter.
- Logging is not modelled: it has no effect on state.
- `Spotify.Spotify.SetupDeviceId` follows the corrected selection of the "## Findings" row. With no device name configured and nothing playing, the code as written raises `TypeError` at spotify.py:100 and the resource does not start. The method instead falls back to the first listed device. `Spotify.DeviceAsWritten` models the code as written.
- Reading the configuration file with configparser is not modelled. This covers option-name case folding and the `DEFAULT` section. The model starts from the parsed sections.
- `Config.Scalar` does not model float conversion or its bounds: a float field keeps its text, because Dafny has no floating point.
- `Config.Element` does not model float conversion or its bounds in lists either, for the same reason.
- `Config.Integer` does not accept the digit-group underscores that Python's `int` allows.
- `Strings.Upper` and `Strings.Lower` cover ASCII letters only. Unicode case mapping is not modelled.
- `Strings.ParseInt` accepts only the ASCII digits, and for base 16 the ASCII letters `a` to `f`. Python's `int` also accepts other Unicode decimal digits and underscores between digits.
- `Registry.DeleteFrom` does not repeat the `if r in cls.__registry` test of the second loop (service.py:145). No resource overrides `delete`, whose default raises, so every path checked by the first loop is still registered.
- The `value is dict` test in the audio alerts' `notify` (audio_alerts.py:32) never holds for a state value, so the per-entry branch never runs. The model follows the `str(value)` branch the code takes, which finds a dotted trigger only for a one-entry dictionary. The per-entry branch is not modelled, because a payload dictionary here has no insertion order to launch in.
- Python's equality between `True` and `1` is not modelled: booleans and integers are distinct values.
- `Dispatch.Iterate` approximates iteration over a non-empty string or dictionary: it raises at the first subscript that follows in every caller. Iterating a dictionary's keys in order is not modelled.
- `Snapcast.StepUp`, `Snapcast.StepDown`, `Snapcast.Duck` and `Snapcast.Snapcast.Notify` use the own client's volume and mute flag as the resource's own commands left them, starting from the mute flag read at start-up. The source reads `volume` (snapcast.py:64, 70) and `muted` (snapcast.py:27) from the client each time. So a change made by another Snapcast controller between calls is not modelled: a step starts from the tracked volume, and ducking saves the tracked mute flag.
- `Snapcast.Send` tracks the own client's volume only for integer levels. A level of another type is still sent, but the tracked volume is not changed.
- The audio alerts look up a trigger by `str(value)` only for strings, integers, booleans, `None` and one-entry dictionaries of a string. Python's rendering of other dictionaries and of lists is not modelled, so such values find no alert.
- The bluetooth polling thread, its sleeps, and `on_stop` with `disconnect_on_exit` are not modelled. One polling round is a method.
- The snowboy timer length, the Gst pipeline description and the audio `set_state(NULL)` calls are not modelled, because they only configure foreign objects.
- Reading key events from evdev in the input service's I/O handler is not modelled. Events arrive as parameters.
- The wit service's recording and output file are not modelled. Writing the output file is a logged command.
- The template resource's `notify` is not modelled, because it does nothing.
- The spotify search result is a function from query and type to the URIs found. `nested_lookup` over the JSON result is not modelled.
- Spotify's `now_playing` is not modelled beyond being the empty dictionary, because nothing ever updates it.
- schema.py and the command-line wiring in `__main__` are not part of this model.

## Findings

| source | as written | input that shows it | evidently intended | confidence | as-written member | corrected member |
|---|---|---|---|---|---|---|
| pyvoicecontrol/spotify.py:84-100 | `devices` is fetched only when a device name is configured, yet the fallback to the first listed device reads `devices['devices']` in every case | no `device` configured, and `current_playback()` returns `None` | fetch the device listing before falling back to its first device | not executed | `Spotify.UnconfiguredNothingPlaying` | `Spotify.DeviceOrder` |
