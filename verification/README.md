# fast-lib: a verified model

A Dafny model of the parts of fast-lib in which one line of code depends on many others: how MQTT
topic filters become regular expressions, how the communicator's threads share its subscriptions, and
how migration-framework messages are written to and read from YAML trees. The main theorems are
statements over every filter and topic, every interleaving, or every message.

`dafny verify dfyconfig.toml` checks the whole project.

## What is modelled

**Topic filters** (`Regex`, `Topics`). `PatternText` is the two successive rewrites of
`topic_to_regex`; `Regex.Parse` parses the resulting text (literals, `.`, `$`, `[^/]`, `(?:...)`, `*`)
and `Regex.Denotes` is what a parsed expression matches. The reference is `LevelMatch` on the topic split
at `/`. The way between them: the two rewrites equal a one-pass rewrite, its text parses to a
known expression, the expression denotes what a left-to-right token matcher accepts, and for well-formed
filters the token matcher is the level matcher. `LiteralFilter` and `WellFormedIff` say on the bare text what an
ordinary character and a well-formed filter are. `StandardMatch` is section 4.7.1 of MQTT 3.1.1 with its
parent level.

**The communicator's dispatch** (`Subscriptions`, `Dispatch`, `DispatchTheorems`, `Losses`, `WakeUps`, `Runs`). A step machine whose
events are single critical sections: add, remove, the snapshot half of `on_message`, the delivery to one
handle, entering `get_message`, waking (by a notify, spuriously or by a timeout) and looking again. The
state carries histories: the log of received messages, the lifetime of every handle, and what each handle
was given. `Dispatch.After` is the state after an arbitrary run. The thread that `notify_one` wakes and the map's
iteration order are part of the event, so every choice is covered. The matcher is a parameter; in
`SubscriberSeesItsLevels` it is the topic translation itself, with any verdict on filters outside the fragment.

**The communicator's connection** (`Connection`). A second step machine: one user thread that connects, adds,
removes and resubscribes in steps, and the loop thread's callbacks between any two of them. `ledger` is the
set of topics subscribed minus unsubscribed on the present broker session; `lasting` says that the
connection which the last `connect_to_broker` waited for still lasts and that no request on it was refused.

**The objects** (`Communicator`). The classes of `mqtt_communicator.cpp` with the fields they update, their
loops and their error returns, proved against the functions of the two machines: each handle carries the state of
`Subscriptions`, and the client runs `Connection` beside its own fields. The clock and the broker's answers are
parameters.

**Messages** (`Yaml`, `Numerals`, `Tasks`, `StartTask`, `MigrateTasks`, `Containers`, `Pci`). A node is a
scalar text, a list, or a map with ordered entries. `MergeNode` is the loop of `merge_node`. Each message
struct has a value datatype with its emitted table of slots (`...Slots`) and its `Load...` function, and a
class whose `Emit` and `Load` methods update fields one after another. What a load does is stated key by key: a
load succeeds if and only if what its keys hold `Fits`, and then each field `Takes` the value under its key, or stays
as it was when the key is absent. Numbers are texts: they are printed with `Digits` and read with the rules of the stream extractor and of `stoul`.

**Timers** (`Timers`). The stop/resume timer and the table of named timers, against the list of running
intervals and against the first tick and tock of each name. Times are integer nanoseconds.

## Where the code does not do what one would expect

The model follows the code, and each of these is a theorem.

- `.` and `$` in a filter keep their regex meaning. A well-formed filter without other operators is matched as its levels
  say on all topics if and only if it contains neither (`TranslationIsLevelMatchIff`).
- `p/#` does not match the parent level `p`, which section 4.7.1.2 of MQTT 3.1.1 demands (`CodeAgainstStandard`). The
  code matches as section 4.7.1 says on all topics if and only if the filter contains no `.` or `$` and does not end in
  `/#` (`CodeIsStandardIff`).
- `add_message` notifies only when the queue becomes non-empty. Some continuation without a further entry leaves a getter
  of a subscription asleep on a message, with nobody about to look, unless its handle is `Safe`: on an empty queue at most
  one getter is inside whose timeout has not passed; otherwise nobody sleeps, and at most one such getter is inside or at
  most one getter more than there are messages (`WakeUpsSufficeIff`). When the getters sleep on an empty queue, that is: if
  and only if there are two or more (`WakeUpsSufficeForOneSleeper`).
- An automatic reconnect sets the connected flag but subscribes nothing, so the new session starts without any topic
  (`ReconnectForgets`). From then on, while it lasts and no request on it is refused, the broker knows the map between calls
  if and only if every topic of the map has been added, or added again, since (`ReconnectedKnowsTheMapIff`); whatever the
  session knew at the begin, exactly the topics that no call has been about can be wrong (`BrokerKnowsTheMapIff`).
- A callback that throws takes the message from the handles behind it in the snapshot, and one filter that does not compile
  takes every message from everybody. A handle was given its filtered log if and only if no such event cost it a
  message, and the events count exactly what it misses (`GivenIsFilteredLogIff`).
- `Start` writes PCI addresses under `dev` and reads them from `devs`: it survives if and only if it has none
  (`StartRoundTripIff`).
- `PCI_addr` writes `addr` and reads `pci-addr`, so no emitted address is ever loaded (`EmittedAddrNeverLoads`). Even
  under the right key its text would give the address back if and only if the domain is 0 and bus, device and function
  are equal, because `str` prints the device first (`WrittenAddrSurvivesIff`). A text without a `.` is read with
  equal device and function (`WithoutDotDeviceIsFunction`).
- A quit container writes its list and never reads it (`QuitForgetsItsTasks`). A container of a list kind survives if and
  only if its tasks are all of that kind and each survives (`ListRoundTripIff`).
- A merged container and its task share the key `concurrent-execution`; the task's option wins (`MergedRoundTrip`). The
  container survives if and only if it has one task and the two options agree (`MergedRoundTripIff`). The order of
  the entries may change on re-emission, so stability is equality of maps.
- `resume` on a running timer reads the clock twice. The elapsed time is the running time plus the sum of these gaps
  (`ElapsedIsRunningTimePlusGaps`), and it is the running time if and only if no running timer was resumed, since the last
  start, with time passing between the readings (`ElapsedIsRunningTime`). Which reading comes first is unspecified in
  C++; the theorem holds for either order.
- A present `pci-ids` or `devs` that is no list counts as an empty list, while every other ill-typed key makes the load of
  a start task fail; and a message that is a scalar never loads (`StartObject.Load`).

## Model

| member | source | states |
|---|---|---|
| `Topics.PatternTextIsOnePass` | src/mqtt_communicator.cpp:31-38 | Rewriting `+` and then `#` in the result equals rewriting every character of the filter once: the second pass never touches what the first inserted. |
| `Topics.TranslationParses` | src/mqtt_communicator.cpp:31-38 | Every filter without operators outside the fragment compiles, to the expression composed from its characters. |
| `Regex.SlashFreeMeaning` | src/mqtt_communicator.cpp:34 | The text inserted for `+` matches exactly the stretches without `/`, possibly empty. |
| `Regex.LoopsTakeAll` | src/mqtt_communicator.cpp:36 | The loops of the text inserted for `#` match every string to its end. |
| `Topics.ExprMeaning` | src/mqtt_communicator.cpp:31-38 | At every position of every topic, the compiled expression matches to the end iff the token matcher accepts the rest. |
| `Topics.CodeMatchesIsAccepts` | src/mqtt_communicator.cpp:270 | Translate, compile and whole-string match equals the left-to-right token matcher, for all fragment filters, malformed ones included. |
| `Topics.LiteralFilter` | src/mqtt_communicator.cpp:31-38 | A filter of any characters other than the listed operators and wildcards matches exactly the topics of its length that agree with it in every character, save that `.` takes any character but a line feed or carriage return. |
| `Topics.LevelsJoin` | src/mqtt_communicator.cpp:31-38 | The levels of a text hold no `/`, and put together with `/` they are the text. |
| `Topics.WellFormedIff` | src/mqtt_communicator.cpp:31-38 | The levels of a filter are well formed iff in its text every `+` stands between two `/` or ends, and every `#` is last, behind a `/` or alone. |
| `Topics.AcceptsIsLevelMatch` | src/mqtt_communicator.cpp:31-38 | For every well-formed filter and every topic, matching character by character is matching level by level. |
| `Topics.TranslationIsLevelMatch` | src/mqtt_communicator.cpp:262-272 | For well-formed plain filters the code's match is the level-by-level match, on every topic, in both directions. |
| `Topics.TranslationIsLevelMatchIff` | src/mqtt_communicator.cpp:31-38 | A well-formed fragment filter is matched by its levels on all topics iff it contains neither `.` nor `$`. |
| `Topics.StopRejectsSkeleton` | src/mqtt_communicator.cpp:31-38 | For each well-formed filter, a topic built from it that its levels accept and that the code refuses if the filter holds `$`. |
| `Topics.DotAcceptsDisguise` | src/mqtt_communicator.cpp:31-38 | For each well-formed filter without `$`, a topic built from it that the code accepts and that its levels refuse if the filter holds `.`. |
| `Topics.ParentLevel` | src/mqtt_communicator.cpp:31-38 | The level matcher and section 4.7.1 of MQTT 3.1.1 differ exactly by the parent level of a trailing `#`. |
| `Topics.CodeAgainstStandard` | src/mqtt_communicator.cpp:31-38 | For each filter and topic: the standard matches iff the code does, or the filter is `p/#` and the code matches `p`; so the code never accepts too much. |
| `Topics.CodeIsStandardIff` | src/mqtt_communicator.cpp:31-38 | A well-formed fragment filter is matched as section 4.7.1 demands on all topics iff it contains no `.` or `$` and does not end in `/#`. |
| `Topics.ParentTopicIsMissed` | src/mqtt_communicator.cpp:31-38 | For each plain filter that ends in `/#`, a topic built from it that the standard accepts and the code does not. |
| `Subscriptions.AddMessageIsSound` | src/mqtt_communicator.cpp:85-96 | Notifying only at size one keeps an uncrowded handle free of lost wake-ups, and appends the message to what the handle received. |
| `Subscriptions.EnterIsSound` | src/mqtt_communicator.cpp:98-110 | Entering `get_message` neither loses, doubles nor reorders a message, and keeps the handle sound. |
| `Subscriptions.WakeUpIsSound` | src/mqtt_communicator.cpp:100-108 | Spurious and timed wake-ups keep the handle sound. |
| `Subscriptions.LookAgainIsSound` | src/mqtt_communicator.cpp:100-110 | A woken thread that takes, times out or sleeps on keeps the handle sound and its messages in order. |
| `Dispatch.MatchingIsOwnFilter` | src/mqtt_communicator.cpp:266-273 | A handle is in a snapshot iff it is in the map and its own filter matches: each matching handle once, in whatever order. |
| `Dispatch.StepKeepsInv` | src/mqtt_communicator.cpp:187-283 | Every event keeps map, records, heap and loop consistent, every live handle sound, and every history faithful to its filter. |
| `Dispatch.RunKeepsInv` | src/mqtt_communicator.cpp:187-283 | The invariant holds after every run. |
| `DispatchTheorems.OnlyThrowsFault` | src/mqtt_communicator.cpp:265-281 | Dispatch is faulted only after a callback or a regex construction threw. |
| `Runs.MapFollowsCalls` | src/mqtt_communicator.cpp:187-223 | In every run a topic is in the map iff an add call follows its last removal; its handle is that of the first such call, and is a callback handle iff that call gave a callback. |
| `Runs.LogIsWhatArrived` | src/mqtt_communicator.cpp:262-264 | The log holds exactly the messages that `on_message` was called with, in order. |
| `Runs.CallbacksSeeAll` | src/mqtt_communicator.cpp:126-129 | In every run the callback of a live handle has seen all messages its handle was given; such a handle queues none and no thread waits in it. |
| `Runs.MessageIsQueued` | src/mqtt_communicator.cpp:85-96 | A get-style handle queues a delivered message behind the others; a sleeper wakes iff the queue was empty and somebody slept, and nobody else is touched. |
| `Runs.UsersAreNeverBlocked` | src/mqtt_communicator.cpp:187-332 | In every reachable state, whatever the loop thread is doing: adds, removals without a getter inside, entries, wake-ups with and without timeout, and looks are possible. |
| `Runs.LoopIsNeverBlocked` | src/mqtt_communicator.cpp:262-283 | In every reachable state the loop thread can take any message, in some order of the handles or failing on a filter that does not compile, or deliver the one it has; a callback in turn can throw. |
| `DispatchTheorems.QueuesAreFilteredLogs` | src/mqtt_communicator.cpp:85-117 | In every run without throws: messages taken, then queued, then the one under way, are the log since the add filtered by the topic; nothing lost, doubled or reordered. |
| `DispatchTheorems.NothingDoubledOrReordered` | src/mqtt_communicator.cpp:262-283 | With throws too, what any handle (also a removed one) was given is a subsequence of its filtered log. |
| `Losses.StepMissing` | src/mqtt_communicator.cpp:262-283 | Only a broken filter at a matching message, or a throw in front of the handle in the snapshot, adds to what a handle misses, and then exactly one message. |
| `Losses.GivenIsFilteredLogIff` | src/mqtt_communicator.cpp:262-283 | For every run and every handle that was ever in the map: what it was given, and what is under way to it, is its filtered log iff no throw cost it a message; the costs add up to what is missing. |
| `Losses.OnlyThrowsLose` | src/mqtt_communicator.cpp:265-281 | A run without throws costs no handle a message. |
| `Losses.SubscriberSeesItsLevels` | src/mqtt_communicator.cpp:262-283 | End to end with the topic translation, in every run and with any filters in the other subscriptions, even ones that do not compile: a subscription to a plain filter gets a subsequence of the messages whose topic levels match, all of them iff no throw cost it one, and it misses as many as the throws cost it. |
| `WakeUps.NoGetterSleepsOnAMessage` | src/mqtt_communicator.cpp:91-111 | If getters of a handle never overlapped, a sleeping getter implies an empty queue, in every run. |
| `Runs.CrowdedIsOverlapped` | src/mqtt_communicator.cpp:98-111 | The history that a handle was crowded is exactly that some entry of the run met another thread inside. |
| `Runs.WithoutOverlapNobodySleepsOnAMessage` | src/mqtt_communicator.cpp:91-111 | In every run in which no entry into a handle met another thread inside, a sleeping getter implies an empty queue. |
| `Runs.EntryTakesOrSleeps` | src/mqtt_communicator.cpp:98-110 | After any run an entry is possible; it takes the oldest message and leaves nobody behind, or sleeps on the empty queue. |
| `Runs.TimeoutEndsTheWait` | src/mqtt_communicator.cpp:103-108 | After any run a sleeper on an empty queue can wake up and look: it is gone if its timeout has passed, and sleeps on otherwise; the others stay as they are. |
| `Runs.MessageEndsTheWait` | src/mqtt_communicator.cpp:103-110 | A woken getter takes the oldest message and is gone, even when its timeout has passed. |
| `WakeUps.WakeUpsSufficeIff` | src/mqtt_communicator.cpp:85-111 | In every reachable state, with any queue and any getters inside, of a subscription that some message matches: no continuation without a further entry leaves a getter asleep on a message with nobody about to look iff the handle is safe, a test on its queue and getters. |
| `WakeUps.WakeUpsSufficeForOneSleeper` | src/mqtt_communicator.cpp:85-111 | When the getters sleep on an empty queue, that is so iff at most one is inside. |
| `WakeUps.StaysSafe` | src/mqtt_communicator.cpp:85-111 | A safe handle stays safe in every continuation without an entry, whatever else happens. |
| `WakeUps.UnsafeGetsStuck` | src/mqtt_communicator.cpp:85-111 | From any other handle, an explicit continuation of looks and messages leaves a getter stuck. |
| `WakeUps.OneGetterIsSafe` | src/mqtt_communicator.cpp:100-108 | A handle with at most one thread inside, not asleep on a message, is safe. |
| `WakeUps.TwoSleepersLoseAWakeUp` | src/mqtt_communicator.cpp:91-95 | For any run, matcher, subscription and two sleepers: a continuation in which one takes its message and leaves the other asleep on the next, with nobody about to look. |
| `WakeUps.TwoGettersLoseAWakeUp` | src/mqtt_communicator.cpp:91-95 | A concrete run with two getters ends with one asleep on a queued message and nobody else inside. |
| `DispatchTheorems.RemovalIsFinal` | src/mqtt_communicator.cpp:217-223 | No later event changes the record of a removed handle. |
| `DispatchTheorems.RemovedGetsAtMostOneMore` | src/mqtt_communicator.cpp:217-223 | However the run goes on, a removed handle is given at most one message after its removal. |
| `DispatchTheorems.RemovedHoldsAPrefix` | src/mqtt_communicator.cpp:217-223 | However the run goes on, what a removed handle has been or will be given is a prefix of what it had at its removal and the message then under way to it. |
| `DispatchTheorems.SnapshotStaysAlive` | src/mqtt_communicator.cpp:266-278 | In every run the handles of the snapshot are alive until they are served, and the next delivery is possible. |
| `DispatchTheorems.RemoveCommutesWithDelivery` | src/mqtt_communicator.cpp:217-223 | A removal and a delivery can be swapped: map, queues, histories and loop come out the same. |
| `Connection.StepKeepsInv` | src/mqtt_communicator.cpp:187-259 | Every step of the user thread or a callback keeps the ledger equal to the map up to the topic in hand, while the connection lasts. |
| `Connection.RunKeepsInv` | src/mqtt_communicator.cpp:187-259 | The invariant holds after every run. |
| `Connection.BrokerKnowsTheMap` | src/mqtt_communicator.cpp:355-415 | Between calls, while the observed connection lasts, the broker's topics are the keys of the map. |
| `Connection.LastsUntilDisturbed` | src/mqtt_communicator.cpp:187-259 | Only a lost session, a disconnect request or a refused request ends the lasting connection; adds, re-adds, removes and stray callbacks do not. |
| `Connection.LastingIsLasts` | src/mqtt_communicator.cpp:187-259 | The history that a connection lasts is exactly that the last wait found a session and no disturbance or new connection attempt followed. |
| `Connection.KeysFollowCalls` | src/mqtt_communicator.cpp:187-230 | A topic is in the map iff the last add or remove call about it was an add. |
| `Connection.LedgerIsWhatTheBrokerTook` | src/mqtt_communicator.cpp:187-415 | In every run a topic is in the ledger iff the last request about it that the broker took on the present session was a subscription. |
| `Connection.CallsChangeTheTopic` | src/mqtt_communicator.cpp:187-230 | A whole add or remove call changes the map, the ledger iff the flag is set and the broker accepts, and nothing else of the connection but that a refusal ends its lasting. |
| `Connection.CallbacksFallInAnywhere` | src/mqtt_communicator.cpp:232-259 | Whatever the user thread is doing, a session can end and begin, and its callback waits only for a resubscription. |
| `Connection.UserIsNeverBlocked` | src/mqtt_communicator.cpp:187-415 | Between calls every call can begin, and in each the broker's answer can be either. |
| `Connection.ConnectedBrokerKnowsTheMap` | src/mqtt_communicator.cpp:355-415 | From a successful wait on, with no such disturbance, every run has flag and session set and ledger equal to the keys between calls. |
| `Connection.ReconnectForgets` | src/mqtt_communicator.cpp:232-245 | A lost and automatically renewed session, with no call in between, leaves the flag set, the map unchanged and the broker without any topic. |
| `Connection.RunKeepsSince` | src/mqtt_communicator.cpp:187-230 | On a connection that is not disturbed, the topics that calls have been about agree with the map, the one in hand excepted, and the others stay as they were. |
| `Connection.BrokerKnowsTheMapIff` | src/mqtt_communicator.cpp:187-245 | From any reachable state with flag and session set, over every undisturbed run that ends between calls: the ledger equals the map iff broker and map already agreed on every topic that no call was about. |
| `Connection.ReconnectedKnowsTheMapIff` | src/mqtt_communicator.cpp:187-245 | When the session starts without any topic, the ledger equals the map iff each of its topics was the subject of an add or remove call since. |
| `Communicator.SubscriptionHandle.AddMessage` | src/mqtt_communicator.cpp:85-96 | The handle takes the step of the machine, and notifies iff a get-style queue was empty. |
| `Communicator.SubscriptionHandle.EnterGet` | src/mqtt_communicator.cpp:98-110 | Returns the front message and removes it, or leaves the thread asleep on an empty queue. |
| `Communicator.SubscriptionHandle.Resume` | src/mqtt_communicator.cpp:103-110 | A woken thread gets the front message, even after its timeout; it gets the timeout error only on an empty queue. |
| `Communicator.Client.AddSubscription` | src/mqtt_communicator.cpp:187-215 | A known topic keeps its handle, a new one gets a fresh handle; one subscribe call iff connected; the connection machine's invariant is kept, also when the call is refused. |
| `Communicator.Client.RemoveSubscription` | src/mqtt_communicator.cpp:217-230 | Only this topic leaves the map; one unsubscribe call iff connected; the invariant is kept. |
| `Communicator.Client.OnConnect` | src/mqtt_communicator.cpp:232-245 | Sets the flag iff the code is 0, and changes no subscription. |
| `Communicator.Client.OnDisconnect` | src/mqtt_communicator.cpp:247-259 | Clears the flag for every code, and changes no subscription. |
| `Communicator.Client.Snapshot` | src/mqtt_communicator.cpp:266-273 | The loop over the map collects exactly the matching handles, each once, or stops at a filter that does not compile. |
| `Communicator.Client.Deliver` | src/mqtt_communicator.cpp:276-278 | The delivery loop gives the message once to each handle of the snapshot, in order, up to and including the first one that throws, and to no other. |
| `Communicator.Client.OnMessage` | src/mqtt_communicator.cpp:262-283 | Each matching handle is given the message once and others are untouched; after a throw the handles reached are a subset; the catch block runs exactly on a bad filter, no match or a thrown callback. |
| `Communicator.Client.BeginGet` | src/mqtt_communicator.cpp:319-332 | The three errors exactly when they are due (no connection, unknown topic, callback handle), in this order; otherwise the oldest message is taken from this topic's queue alone, or the thread waits on an empty one. |
| `Communicator.Client.Resubscribe` | src/mqtt_communicator.cpp:402-415 | Throws without a connection, and makes no call; otherwise every topic of the map is subscribed once with its handle's qos, until one is refused. |
| `Communicator.SubscribesInOrder` | src/mqtt_communicator.cpp:407-411 | Of the calls that a resubscription makes, each is about its topic and has the qos of that topic's handle. |
| `Communicator.Client.Retry` | src/mqtt_communicator.cpp:364-374 | At most floor(T)+2 connect or reconnect calls, all but the last failing; gives up only past the timeout, and at the first reading past it. |
| `Communicator.Client.ConnectToBroker` | src/mqtt_communicator.cpp:355-387 | Normal return iff the client was not connected, the last call succeeded, the flag was seen and the broker takes every stored topic, each being subscribed once; then the broker knows the map. A refusal names a stored topic that is refused. The timeout error comes iff the last call failed or the flag was not seen, and never before the timeout has passed since the start; the wait gets what is left of it, negative or not. A connected client is refused without any call. |
| `Yaml.MergeNode` | src/serializable.cpp:24-32 | The loop computes the left-biased union, reading `rhs[tag]` as the code does. |
| `Yaml.MergeIsLeftBiased` | src/serializable.cpp:24-32 | In a merge every key finds the left value if there is one, and the right value otherwise. |
| `Yaml.FirstOccurrence` | src/serializable.cpp:26-29 | Looking up `rhs[tag]` inside the loop gives the entry the loop is at, whenever it is copied. |
| `Yaml.FindIsFirst` | src/serializable.cpp:24-32 | A lookup gives the value of the first entry with the key, and nothing iff there is none. |
| `Yaml.FlagWords` | include/fast-lib/serializable.hpp:65-78 | The words that are read as true, the words that are read as false, and no others. |
| `Yaml.NumberIsWholeText` | include/fast-lib/serializable.hpp:65-78 | A decimal text is a number iff only blanks follow its digits and it is in range; a minus sign counts back from the end of the range. |
| `Yaml.RangesOfNumbers` | include/fast-lib/serializable.hpp:65-78 | The ranges are those of 32 and 64 bits. |
| `Yaml.KindsOfNodes` | include/fast-lib/serializable.hpp:65-78 | Every scalar and nothing else is a text; flags and numbers are scalars; a vector comes from a list. |
| `Yaml.FindPresent` | include/fast-lib/optional.hpp:340-347 | In a table of distinct keys with absent options left out, every key finds its own value or nothing. |
| `Yaml.AllRoundTrip` | include/fast-lib/serializable.hpp:72-78 | A vector is read back from the list it was written to, whatever its length, if its elements are. |
| `Yaml.FieldRoundTrip` | include/fast-lib/optional.hpp:340-356 | An optional field that was written, or left out, is read back into an empty one. |
| `Yaml.LoadFieldMerged` | include/fast-lib/optional.hpp:349-356 | Loading a field from two maps in turn is loading it from their merge, the later map on the left. |
| `Yaml.AsAllByIndex` | include/fast-lib/serializable.hpp:72-78 | A list converts iff every item does, and then item by item in order. |
| `Numerals.DigitsAreDigits` | src/message/migfra/pci_id.cpp:19-24 | A printed number consists of digits of its base, has no leading zero, and has that number as its value. |
| `Numerals.DigitsAreFew` | src/message/migfra/pci_id.cpp:19-24 | It has as many digits as it takes, and no more. |
| `Numerals.HexRoundTrip` | src/message/migfra/pci_id.cpp:19-24 | The text of `to_hex_string` has max(width, digits) digits, and `stoul` reads it back, with and without `0x`. |
| `Numerals.StoulReads` | src/message/migfra/pci_addr.cpp:63-78 | Blanks, sign, base prefix, digits, and a rest that is ignored: the number in the base that prefix or argument tell; out of range it throws, and a minus sign wraps around at 64 bits. |
| `Numerals.StoulRejects` | src/message/migfra/pci_addr.cpp:63-78 | Without a digit behind blanks and sign it throws. |
| `Numerals.DecimalRoundTrip` | include/fast-lib/serializable.hpp:65-78 | A number in decimal is read back by an extractor that takes the base from the text. |
| `Pci.PciIdObject.Emit` | src/message/migfra/pci_id.cpp:56-62 | Writes vendor and device under their keys with base prefix and four digits. |
| `Pci.PciIdObject.Load` | src/message/migfra/pci_id.cpp:64-68 | Succeeds iff both keys hold texts that start with a number in range, in the base of its prefix; the fields are these numbers cut to 16 bits. Any emitted id is read back. |
| `Pci.IdRoundTrip` | src/message/migfra/pci_id.cpp:56-68 | Load after emit is the identity on all pairs of 16-bit numbers. |
| `Pci.IdIsWritten` | src/message/migfra/pci_id.cpp:41-62 | Vendor and device stand under their keys as the prefixed halves of the id's text. |
| `Pci.IdTextHolds` | src/message/migfra/pci_id.cpp:51-54 | Nine characters: four digits of the vendor, a colon, four digits of the device. |
| `Pci.IdTextIsInjective` | src/message/migfra/pci_id.cpp:51-54 | Different ids have different texts. |
| `Pci.PciAddrObject.Load` | src/message/migfra/pci_addr.cpp:53-79 | A node with the canonical text of an address loads that address, also without the domain when it is 0. For every other text the counting, cutting and erasing step by step gives the parsed address, or fails when parsing does. |
| `Pci.AddrParses` | src/message/migfra/pci_addr.cpp:53-79 | For all hexadecimal fields of any width, each field is read from its own place and cut to its size, with or without a domain. |
| `Pci.AddrRoundTrip` | src/message/migfra/pci_addr.cpp:53-79 | Parsing inverts the canonical zero-padded text on all field values; without a domain it gives domain 0. |
| `Pci.WithoutDotDeviceIsFunction` | src/message/migfra/pci_addr.cpp:74-78 | Any text without a `.` that is accepted, with or without a domain, gives the same device and function. |
| `Pci.DotlessAddrParses` | src/message/migfra/pci_addr.cpp:70-78 | What a text of a bus and one more number is read as: that number is device and function. |
| `Pci.ColonsDecide` | src/message/migfra/pci_addr.cpp:57-68 | Only a text with one or two colons is an address, and one colon means domain 0. |
| `Pci.AddrTextHolds` | src/message/migfra/pci_addr.cpp:40-51 | The emitted text, under its key, holds texts of device, bus, device and function, the first three padded. |
| `Pci.EmittedAddrNeverLoads` | src/message/migfra/pci_addr.cpp:46-55 | No emitted address can be loaded, since the keys differ. |
| `Pci.WrittenAddrShifts` | src/message/migfra/pci_addr.cpp:40-79 | The text that `str` prints is read as domain 0, the device as bus, the bus as device, and the device as function. |
| `Pci.WrittenAddrSurvivesIff` | src/message/migfra/pci_addr.cpp:40-79 | Parsing what `str` prints gives the address back iff the domain is 0 and bus, device and function are equal. |
| `Tasks.TaskObject.Emit` | src/message/migfra/task.cpp:38-45 | The successive merges build the table of the set options. |
| `Tasks.TaskObject.Load` | src/message/migfra/task.cpp:47-52 | Succeeds iff the node is no scalar and every present key of the three decodes; an absent optional key leaves its field as it was, a present one sets it to its decoded value. |
| `Tasks.TaskRoundTrip` | src/message/migfra/task.cpp:38-52 | Load after emit into a fresh task is the identity. |
| `Tasks.StopObject.Emit` | src/message/migfra/task.cpp:330-338 | The merges into the base task's node build the table of the set options. |
| `Tasks.StopObject.Load` | src/message/migfra/task.cpp:340-347 | Succeeds iff the node is no scalar and every present key of the task and of the stop decodes; an absent optional key leaves its field as it was, a present one sets it to its decoded value. |
| `Tasks.StopRoundTrip` | src/message/migfra/task.cpp:330-347 | Load after emit into a fresh task is the identity. |
| `Tasks.SwapWithObject.Emit` | src/message/migfra/task.cpp:359-368 | The name, then the set options. |
| `Tasks.SwapWithObject.Load` | src/message/migfra/task.cpp:370-375 | Succeeds iff the name is there and every present key decodes; the name is overwritten, an absent optional key leaves its field as it was, a present one sets it to its decoded value. |
| `Tasks.SwapWithRoundTrip` | src/message/migfra/task.cpp:359-375 | Load after emit into a fresh object is the identity, CPU map included. |
| `Tasks.IvshmemObject.Emit` | src/message/migfra/ivshmem.cpp:21-28 | Id and size, then the path if set. |
| `Tasks.IvshmemObject.Load` | src/message/migfra/ivshmem.cpp:30-35 | Succeeds iff id and size are there and every present key decodes; these two are overwritten, an absent optional key leaves its field as it was, a present one sets it to its decoded value. |
| `Tasks.IvshmemRoundTrip` | src/message/migfra/ivshmem.cpp:21-35 | Load after emit into a fresh device is the identity. |
| `Tasks.RepinObject.Emit` | src/message/migfra/task.cpp:532-539 | The task's options, the name and the CPU map. |
| `Tasks.RepinObject.Load` | src/message/migfra/task.cpp:541-546 | Succeeds iff name and CPU map are there and every present key decodes, those of the task included; these two are overwritten, an absent optional key leaves its field as it was, a present one sets it to its decoded value. |
| `Tasks.RepinRoundTrip` | src/message/migfra/task.cpp:532-546 | Load after emit into a fresh task is the identity. |
| `Tasks.NamedTaskObject.Emit` | src/message/migfra/task.cpp:562-594 | Suspend and resume tasks, which have the same fields: the task's options and the name. |
| `Tasks.NamedTaskObject.Load` | src/message/migfra/task.cpp:569-600 | Succeeds iff the name is there and every present key decodes, those of the task included; the name is overwritten, an absent optional key leaves its field as it was, a present one sets it to its decoded value. |
| `Tasks.NamedTaskRoundTrip` | src/message/migfra/task.cpp:562-600 | Load after emit into a fresh suspend or resume task is the identity. |
| `StartTask.StartObject.Emit` | src/message/migfra/task.cpp:268-290 | Options, nested device, non-empty id and address lists, in the code's order. |
| `StartTask.StartObject.Load` | src/message/migfra/task.cpp:292-307 | Succeeds iff the node is no scalar, every present optional key decodes and so does every item of a present list; an absent optional key leaves its field as it was, a present one sets it to its decoded value; a device list becomes the decoded items, or empty when the key is absent or holds no list. |
| `StartTask.StartRoundTrip` | src/message/migfra/task.cpp:268-307 | Load after emit gives back every field, through the nested device, the id list and the matrices, but no PCI addresses. |
| `StartTask.AddrsAreWritten` | src/message/migfra/task.cpp:280-283 | Non-empty id and address lists are written in full under `pci-ids` and `dev`, empty ones are not written. |
| `StartTask.StartRoundTripIff` | src/message/migfra/task.cpp:282-300 | Load after emit is the identity iff the task has no PCI addresses. |
| `MigrateTasks.MigrateObject.Emit` | src/message/migfra/task.cpp:420-436 | Fields, and a nested parameter map iff some option is set. |
| `MigrateTasks.MigrateObject.Load` | src/message/migfra/task.cpp:438-452 | Succeeds iff name and destination are there, every present key decodes, and so does every present key of a parameter node that is there; an absent optional key leaves its field as it was, a present one sets it to its decoded value, and without a parameter node all options stay. |
| `MigrateTasks.MigrateRoundTrip` | src/message/migfra/task.cpp:420-452 | Load after emit is the identity, through the parameter map and the swap-with object in it. |
| `MigrateTasks.MigrateParameterIsWritten` | src/message/migfra/task.cpp:425-435 | The parameter map is written iff some option is set, with the set options. |
| `MigrateTasks.EvacuateObject.Emit` | src/message/migfra/task.cpp:484-498 | Fields, a nested parameter map iff some option is set, and the optional name behind it. |
| `MigrateTasks.EvacuateObject.Load` | src/message/migfra/task.cpp:500-514 | Succeeds iff the destinations are there, every present key decodes, and so does every present key of a parameter node that is there; an absent optional key leaves its field as it was, a present one sets it to its decoded value, and without a parameter node all options stay. |
| `MigrateTasks.EvacuateRoundTrip` | src/message/migfra/task.cpp:484-514 | Load after emit is the identity, through the parameter map and the list of destinations. |
| `MigrateTasks.EvacuateParameterIsWritten` | src/message/migfra/task.cpp:488-497 | The parameter map is written iff some option is set, with the set options. |
| `Containers.TypeTextsRoundTrip` | src/message/migfra/task.cpp:71-99 | The text that `type` gives for a kind is dispatched by `load` to that kind. |
| `Containers.TypeTexts` | src/message/migfra/task.cpp:71-99 | The text of each kind in both formats; an unknown kind throws. |
| `Containers.TypeTextsDiffer` | src/message/migfra/task.cpp:71-99 | No two kinds share a text, nor do the formats of one kind, but for quit. |
| `Containers.EmittedListKey` | src/message/migfra/task.cpp:106-119 | A start container has its tasks under `vm-configurations` and nothing under `list`; stop, suspend, resume and quit have them under `list` and nothing under `vm-configurations`; type text and own options stand under their keys. |
| `Containers.ContainerByText` | src/message/migfra/task.cpp:129-213 | For each of the eight type texts, what has to be readable under which key, and what the tasks then are; any other text throws. |
| `Containers.ContainerObject.Emit` | src/message/migfra/task.cpp:102-121 | Type text, then the merged task or the task list, then the container's own options; fails on an empty container and on an unknown kind. |
| `Containers.ContainerObject.Load` | src/message/migfra/task.cpp:185-214 | Succeeds iff the type text names a kind, the node (migrate, evacuate, repin, quit) or every item of the kind's list fits a fresh task of that kind, and the own options decode; the tasks are these fresh tasks, loaded, in the order of the list. |
| `Containers.AnyRoundTrip` | src/message/migfra/task.cpp:129-183 | Each task is read back from its own node by the loader of its kind. |
| `Containers.ListRoundTrip` | src/message/migfra/task.cpp:102-214 | Start, stop, suspend and resume containers of any length are read back unchanged. |
| `Containers.ListRoundTripIff` | src/message/migfra/task.cpp:102-214 | A container whose first task is of a list kind, mixed ones included, survives iff its tasks are of one kind and each survives. |
| `Containers.MergedRoundTrip` | src/message/migfra/task.cpp:102-214 | A migrate, evacuate or repin container comes back with its first task, both `concurrent-execution` options being the task's if set, else the container's. |
| `Containers.MergedRoundTripIff` | src/message/migfra/task.cpp:102-214 | Such a container survives iff it has exactly one task and the two `concurrent-execution` options agree. |
| `Containers.MergedStable` | src/message/migfra/task.cpp:102-121 | Emitting it again finds the same node under every key. |
| `Containers.ContainerIsStable` | src/message/migfra/task.cpp:102-214 | Emit, load, emit equals emit as a map, and keeps the type text, for every non-empty container of one kind other than quit whose tasks survive. |
| `Containers.QuitForgetsItsTasks` | src/message/migfra/task.cpp:116-183 | A quit container comes back as one task made of the container's own option; it survives iff it held just that task. |
| `Containers.LoadTaskMerged` | src/message/migfra/task.cpp:47-52 | Loading two well-typed maps in turn into any task is loading their merge once. |
| `Containers.LoadStopMerged` | src/message/migfra/task.cpp:340-347 | The same for stop tasks. |
| `Timers.Timer.Start` | src/message/migfra/time_measurement.cpp:63-67 | From now on the elapsed time is the time since the start; stop and base time stay. |
| `Timers.Timer.Stop` | src/message/migfra/time_measurement.cpp:69-75 | The elapsed time is frozen at what it was, and a second stop moves neither it nor the stop time. |
| `Timers.Timer.Resume` | src/message/migfra/time_measurement.cpp:77-81 | The elapsed time runs on from what it was at the second reading, which is that of the stopped timer, or is counted twice between the readings of a running one. |
| `Timers.ElapsedIsRunningTime` | src/message/migfra/time_measurement.cpp:29-81 | After every sequence of operations: elapsed time is the total of the running intervals since the last start if no running timer was resumed since then with time between the two readings, and only if so when all resumes read in the same order on a clock that does not run backwards. |
| `Timers.ElapsedIsRunningTimePlusGaps` | src/message/migfra/time_measurement.cpp:29-81 | After every sequence of operations, on any clock, elapsed time is the total of the running intervals plus the gaps between the readings of resumes of a running timer, since the last start. |
| `Timers.ElapsedIsRunningTimeIff` | src/message/migfra/time_measurement.cpp:29-81 | On any clock the two agree at all times iff these gaps add up to zero. |
| `Timers.GapsDoNotCancel` | src/message/migfra/time_measurement.cpp:77-81 | If the clock does not run backwards, gaps add up to zero iff each is zero, in whichever order a resume reads. |
| `Timers.OffsetsAddUp` | src/message/migfra/time_measurement.cpp:42-52 | For a stopped timer start offset plus elapsed is the stop offset, and stopping again changes nothing. |
| `Timers.TimeMeasurement.DoTick` | src/message/migfra/time_measurement.cpp:103-110 | Succeeds iff the name is new or the measurement is disabled; a new name gets a timer that shows the time since now, next to the unchanged others; otherwise nothing changes. |
| `Timers.TimeMeasurement.DoTock` | src/message/migfra/time_measurement.cpp:112-121 | Succeeds iff the name is known or the measurement is disabled; the timer is frozen at what it shows, the others stay; otherwise nothing changes. |
| `Timers.TimersAreFirstMarks` | src/message/migfra/time_measurement.cpp:103-121 | After every run each name holds its first tick and its first tock after it, and no other name is there. |
| `Timers.MarksSucceedOnce` | src/message/migfra/time_measurement.cpp:103-121 | A tick succeeds iff it is the first of its name, a tock iff a tick came before. |
| `Timers.DurationIsFirstTockMinusTick` | src/message/migfra/time_measurement.cpp:103-121 | The duration of a name is its first tock minus its tick, whatever ticks and tocks follow. |
| `Timers.DisabledStaysEmpty` | src/message/migfra/time_measurement.cpp:103-121 | A disabled measurement stays empty after every run. |

## Left out

- The regex operators `\ ^ * ? | ( ) [ ] { }` in a filter: `Regex.Parse` has no reading for them. In `Dispatch` the matcher is arbitrary, and in `Losses.SubscriberSeesItsLevels` it is arbitrary on such filters, so other subscriptions may have them.
- The rule of section 4.7.2 of MQTT 3.1.1 for topics that start with `$`.
- The network, the mosquitto library, logging, allocation failures and message freeing; the broker's answers are arbitrary result codes.
- `Communicator.Client` runs one call at a time; interleavings are in `Dispatch` and `Connection`, whose functions its methods are proved to compute.
- Removing a topic while a thread is inside `get_message` for it: the getter holds a reference into the map, so `Dispatch` assumes that the two do not overlap.
- Callbacks that throw something other than `std::exception`, which `on_message` does not catch.
- `WakeUps.NoGetterSleepsOnAMessage`: only from getters that never overlapped, which is what a caller can ensure; the exact condition from any reachable state is in `WakeUps.WakeUpsSufficeIff`.
- `Communicator.Client.ConnectToBroker`: without a timeout it assumes that some call succeeds and the flag is set in the end; the code would wait for ever otherwise. A connect or reconnect call is taken to give up a session that is still there.
- `send_message`, `disconnect_from_broker`, the constructors that connect, and the reference counter of the library.
- The qos of a re-added topic: the map keeps the first handle's, the subscribe call uses the new one.
- Floating-point durations and their texts; times are integers, and a missing timeout is a case of its own.
- YAML text, emitter styles, node aliasing, null nodes (taken as empty maps) and keys that need quoting.
- The heap pointer inside `Optional`, its moves, its accessors, and assignment of one `Optional` to another, which also replaces the tag: every field carries its constructor's tag.
- The sharing of tasks through `shared_ptr`: a container holds its tasks by value.
- The fields of an object after a failed load: only the failure is stated.
- The texts and the `emit` of `Time_measurement`, agent messages, results, and hash specialisations.
