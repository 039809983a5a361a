# relay-pty visualisation core, in Dafny

This project models the in-memory core of the relay-pty visualisation (`swarm-patterns`) and
proves properties of that model. The model covers:

- **Event vocabulary** (`contracts.dfy`, module `Contracts`). This is the closed union of
  payloads, the five event kinds, and the prefix classifier `kindFromPayload`. It also models
  JavaScript's one-character `split`, which derives subtypes.
- **Scenario playback engine** (`generator.dfy`, module `Generator`). A `Player` class replays
  a scenario's templates one timer firing at a time. Each event is prepended to a timeline
  capped at 2000 entries, and the session statistics are updated. The single `setTimeout`
  handle is the `pending` flag plus the delay it was armed with. `Fire` is the timer expiring.
- **Timeline log post-processing** (`parser.dfy`, module `TimelineParser`). The pipeline is
  filter, stable sort by `ts`, then de-duplicate by id. A second part gives the participant
  colour assignment. Log lines arrive already decoded.
- **Display stores** (`agents.dfy`, `messages.dfy`, `event_handler.dfy`):
  - the agents map with its per-role counts;
  - the bounded message history, with connections, in-flight set and delivery callbacks;
  - the `kind/subtype` dispatcher with its counters.
- **Mock feeders**:
  - `mock_ws.dfy`: the replaying mock WebSocket.
  - `stream.dfy`: the round-robin relay stage stream and its metrics.
  - `simulator.dfy`: the event factory, the seven demo scenarios, the endless scenario
    sequencer and the manual stream.
- **Swarm connection topology** (`patterns.dfy`). This is who connects to whom in the
  hub-and-spoke, hierarchical, spiral and consensus patterns, plus the orbit slot arithmetic.
- **Shared helpers**:
  - `slices.dfy`: JavaScript `slice(0, n)` and `slice(-n)`, and the newest-first window.
  - `draws.dfy`: `arr[Math.floor(Math.random() * arr.length)]`.
  - `wrappers.dfy`: `Option`.

Clocks, identifiers (`makeId`) and random numbers are parameters. Timers are flags or queues
of armed callbacks, and firing one is a method call. Writable stores become fields, and
derived stores become functions.

Several behaviours are kept exactly as the code has them, even where they look accidental:

- The emitted channel in the playback engine is parsed as
  `(spec.channel ?? type === 'agent/msg') ? payload.channel : undefined`. So a template's own
  channel is never emitted; it only decides whether the payload's channel is.
- Connection ids `from->to` collide for names that contain `->`
  (`Messages.ConnectionIdCollides`).
- A delivery callback marks its message `delivered` even after it was acked. It also removes
  the connection from the in-flight set although a newer send on it may still be animating.
  Clearing the stores does not cancel armed callbacks.
- `relay/*` and `system/*` events reach no handler case.
- After a non-looping mock WebSocket has finished, `start` delivers `undefined` once more and
  stops again. The model records this as `None`.
- Declared `pty/io` lengths are used as written, even where they differ from the data length
  (16 for a 17-character string in the default scenario).
- Hierarchical levels can hold the same agent twice: the first agent when there are no leads,
  or a coordinator, specialist or lead other than the first agent when there are no workers
  (`agents.slice(1)` then holds them all). The later assignment wins. For a coordinator
  followed by a lead, the lead ends up as the coordinator's child.
- Hub-and-spoke and hierarchical updates throw on an empty swarm (`agents[0].id`). They
  therefore require a non-empty array.

## Model

| member | source | states |
|---|---|---|
| Contracts.ClassifyTagByPrefix | src/lib/types/contracts.ts:113-119 | each of `pty/`, `agent/`, `daemon/`, `relay/` selects its kind and is selected by it (both directions); every other tag is `system` |
| Contracts.KindAndSubtypeRebuildTag | src/lib/types/contracts.ts:68-76 | for every payload variant, the classified kind's name + `/` + subtype equals the payload's type tag |
| Contracts.TagOfKind | src/lib/types/contracts.ts:113-119 | a tag `<kind>/<sub>` classifies as that kind and has subtype `sub` |
| Contracts.AgentMsgClassified | src/lib/types/contracts.ts:113-115 | every message payload is an `agent` event of subtype `msg` |
| Contracts.Split | src/lib/events/generator.ts:73 | `split` on one character gives at least one piece, exactly one iff the separator is absent, no piece holds the separator, and joining the pieces gives back the string |
| Contracts.SplitJoin | src/lib/events/generator.ts:73 | splitting a join of separator-free pieces gives the pieces back |
| Generator.Delay | src/lib/events/generator.ts:101-103 | the armed delay is non-negative, zero exactly when the offset does not exceed the previous one, and otherwise times the speed equals the gap |
| Generator.DelayScalesWithSpeed | src/lib/events/generator.ts:103 | multiplying the speed by `f` divides the delay by `f` |
| Generator.DelayTimesSpeed | src/lib/events/generator.ts:101-103 | where offsets do not go backwards, delay × speed is exactly the gap from the previous template |
| Generator.EmissionTimeIsOffset | src/lib/events/generator.ts:101-109 | with monotone offsets, template `i` is emitted `at[i] / speed` after the start |
| Generator.ChannelComesFromPayload | src/lib/events/generator.ts:77 | the emitted channel is only ever the payload's; without a template channel message payloads keep theirs and others get none; an empty template channel suppresses it |
| Generator.EmittedEventFaithful | src/lib/events/generator.ts:65-79 | an emitted event's kind and subtype spell its payload's tag, and it keeps source, target, thread, payload, session id, id and timestamp |
| Generator.EmitSession | src/lib/events/generator.ts:81-90 | an emission adds 1 to `eventCount`, adds `len` to `ioBytes` exactly for `pty/io`, sets `lastEventAt`, and keeps the other session fields |
| Generator.StatsAfterCounts | src/lib/events/generator.ts:81-90 | after a run of emissions `eventCount` grew by their number and `ioBytes` by the declared `pty/io` bytes |
| Generator.DefaultScenarioTiming | src/lib/events/generator.ts:12-53 | the default script has 8 templates with non-decreasing offsets, and at speed 1 its last template is emitted 680 ms after the start |
| Generator.DefaultScenarioStats | src/lib/events/generator.ts:12-53 | a full run of the default script adds 8 to `eventCount` and 43 to `ioBytes` |
| Generator.Player.constructor | src/lib/events/generator.ts:56-63 | initial stores: empty timeline, no session, `idle`, speed 1, cursor 0, nothing pending, and the default scenario built from the clock's readings at load time |
| Generator.Player.ScheduleNext | src/lib/events/generator.ts:93-110 | past the last template the state becomes `done` with nothing pending; otherwise a timer is armed with the template's delay at the current speed |
| Generator.Player.Fire | src/lib/events/generator.ts:105-109 | emits the template at the cursor and advances it; the emitted templates are always the scenario's prefix in order; the timeline is the newest `MAX_EVENTS` emissions, newest first; re-arms or finishes |
| Generator.Player.Stop | src/lib/events/generator.ts:123-128 | nothing pending, cursor 0, state `idle`, timeline kept; the resulting state does not depend on the prior one, so a second stop changes nothing |
| Generator.Player.Pause | src/lib/events/generator.ts:130-135 | with a timer pending, cancels it and sets `paused` keeping the cursor; otherwise changes nothing |
| Generator.Player.Resume | src/lib/events/generator.ts:137-141 | a no-op when pending, running or past the end; otherwise `running` with a timer armed at the current cursor |
| Generator.Player.Start | src/lib/events/generator.ts:112-121 | installs the given scenario, or else the default one built from the clock's session id and start time; then empty timeline, cursor 0, session published, running (or done for an empty script); speed replaced only by a non-zero option |
| Generator.Player.SetSpeed | src/lib/events/generator.ts:59 | the speed store changes and the player stays consistent |
| Generator.Player.Latest | src/lib/events/generator.ts:144 | the most recent emission since the last start, or none |
| Slices.Truncate | src/lib/events/generator.ts:80 | `slice(0, n)` is the prefix of length `min(len, n)` |
| Slices.Last | src/lib/stores/messages.ts:48-50 | `slice(-n)` is the suffix of length `min(len, n)` |
| Slices.NewestFirst | src/lib/events/generator.ts:80 | the window holds the newest `min(len, cap)` entries of a log, newest first |
| Slices.PrependKeepsWindow | src/lib/events/generator.ts:80 | prepending an event to the window and truncating equals the window of the extended log |
| TimelineParser.AcceptedAppend | apps/relay-timeline/src/lib/data/parser.ts:51-68 | the accepted messages of concatenated logs are the concatenation of each log's |
| TimelineParser.SkippedLineContributesNothing | apps/relay-timeline/src/lib/data/parser.ts:52-67 | a blank, undecodable, status or system line can be removed from anywhere without changing the accepted messages |
| TimelineParser.AcceptedMembers | apps/relay-timeline/src/lib/data/parser.ts:57-63 | a message is accepted iff a kept line carries it, and no accepted message comes from `__system__` |
| TimelineParser.InsertByTs | apps/relay-timeline/src/lib/data/parser.ts:71 | insertion adds exactly the new message (as a multiset) |
| TimelineParser.InsertByTsSorted | apps/relay-timeline/src/lib/data/parser.ts:71 | inserting into a sorted list keeps it sorted by `ts` |
| TimelineParser.SortByTsSortsAndPermutes | apps/relay-timeline/src/lib/data/parser.ts:71 | the sort's output is ascending in `ts` and a permutation of its input |
| TimelineParser.WithTsAppend | apps/relay-timeline/src/lib/data/parser.ts:71 | selecting one timestamp distributes over concatenation |
| TimelineParser.InsertByTsWithTs | apps/relay-timeline/src/lib/data/parser.ts:71 | insertion places the new message after every message with its timestamp |
| TimelineParser.SortByTsStable | apps/relay-timeline/src/lib/data/parser.ts:71 | among equal timestamps the sort keeps input order |
| TimelineParser.IdsMembers | apps/relay-timeline/src/lib/data/parser.ts:74-83 | an id is in the id set iff some message has it |
| TimelineParser.DedupeKeepsIds | apps/relay-timeline/src/lib/data/parser.ts:74-83 | de-duplication keeps every id |
| TimelineParser.DedupeDistinct | apps/relay-timeline/src/lib/data/parser.ts:74-83 | no id survives twice |
| TimelineParser.SurvivorIsFirst | apps/relay-timeline/src/lib/data/parser.ts:74-83 | every survivor is the first message with its id |
| TimelineParser.FirstSurvives | apps/relay-timeline/src/lib/data/parser.ts:74-83 | the first message of every id survives |
| TimelineParser.DedupeKeepsFirst | apps/relay-timeline/src/lib/data/parser.ts:74-83 | the survivors are exactly the first message of each id |
| TimelineParser.DedupeKeepsOrder | apps/relay-timeline/src/lib/data/parser.ts:74-83 | de-duplicating a sorted list leaves it sorted |
| TimelineParser.IdsOfPermutation | apps/relay-timeline/src/lib/data/parser.ts:71-83 | sorting does not change the id set |
| TimelineParser.PipelineSpec | apps/relay-timeline/src/lib/data/parser.ts:47-84 | the result is sorted by `ts`, has distinct ids, covers every accepted id, has no system sender, and is exactly the first-by-id of the sorted accepted messages |
| TimelineParser.ParseMessages | apps/relay-timeline/src/lib/data/parser.ts:47-84 | the loops (filter, sort, `seen`-set dedupe) compute the pipeline |
| TimelineParser.StrLessIrreflexive | apps/relay-timeline/src/lib/data/parser.ts:97 | default string order is irreflexive |
| TimelineParser.StrLessTransitive | apps/relay-timeline/src/lib/data/parser.ts:97 | default string order is transitive |
| TimelineParser.StrLessTotal | apps/relay-timeline/src/lib/data/parser.ts:97 | distinct strings are ordered one way or the other |
| TimelineParser.InsertStr | apps/relay-timeline/src/lib/data/parser.ts:97 | insertion adds exactly the new name (as a multiset) |
| TimelineParser.InsertStrSorted | apps/relay-timeline/src/lib/data/parser.ts:97 | inserting a new name into a strictly sorted list keeps it strictly sorted |
| TimelineParser.SortStringsSpec | apps/relay-timeline/src/lib/data/parser.ts:97 | sorting distinct names gives a strictly sorted permutation |
| TimelineParser.DistinctCard | apps/relay-timeline/src/lib/data/parser.ts:96-101 | a repeat-free list has as many elements as its set |
| TimelineParser.IndexIsRank | apps/relay-timeline/src/lib/data/parser.ts:97-101 | in the sorted list a name's position is its rank among the names |
| TimelineParser.StrictlySortedDistinct | apps/relay-timeline/src/lib/data/parser.ts:97 | a strictly sorted list has no repeats |
| TimelineParser.CollectAgents | apps/relay-timeline/src/lib/data/parser.ts:87-94 | the participants are every sender and every recipient not starting with `#`, each once |
| TimelineParser.AssignColors | apps/relay-timeline/src/lib/data/parser.ts:99-101 | the name at position `k` gets `AGENT_COLORS[k % 10]`, and only the listed names are keys |
| TimelineParser.GetAgentColors | apps/relay-timeline/src/lib/data/parser.ts:86-104 | keys are exactly the participants, each coloured by its rank in sorted name order modulo 10 |
| Agents.IndexByIdLaterWins | src/lib/stores/agents.ts:84-86 | the keys are exactly the listed ids, and each holds the last listed agent with that id |
| Agents.IndexByIdKeyed | src/lib/stores/agents.ts:84-86 | every entry is filed under its own id |
| Agents.RoleCountsSumToSize | src/lib/stores/agents.ts:29-35 | the per-role counts add up to the number of agents |
| Agents.SpawnCountsOneMore | src/lib/stores/agents.ts:43-51 | spawning a new id adds one to its role's count only |
| Agents.ReleaseCountsOneLess | src/lib/stores/agents.ts:54-59 | releasing a stored agent takes one from its role's count only |
| Agents.RecordUpdateKeepsRoleCounts | src/lib/stores/agents.ts:62-81 | status and position updates leave every role count unchanged |
| Agents.CountOneMore | src/lib/stores/agents.ts:31-33 | one more visited agent adds one to its role's tally only |
| Agents.CountByRole | src/lib/stores/agents.ts:29-35 | the counting loop gives each role its number of agents, with no entry for an absent role |
| Agents.AgentStore.constructor | src/lib/stores/agents.ts:23 | the map starts empty |
| Agents.AgentStore.Get | src/lib/stores/agents.ts:38-40 | the stored agent for the id, or none exactly when absent |
| Agents.AgentStore.Spawn | src/lib/stores/agents.ts:43-51 | inserts or overwrites the id's entry stamped with `now`; other keys unchanged |
| Agents.AgentStore.Release | src/lib/stores/agents.ts:54-59 | removes the id; a no-op when absent |
| Agents.AgentStore.UpdateStatus | src/lib/stores/agents.ts:62-70 | changes only the status of an existing agent; unchanged map when absent |
| Agents.AgentStore.UpdatePosition | src/lib/stores/agents.ts:73-81 | changes only `x` and `y` of an existing agent; unchanged map when absent |
| Agents.AgentStore.SetAgents | src/lib/stores/agents.ts:84-86 | the map becomes the list keyed by id, later duplicates winning |
| Agents.AgentStore.Clear | src/lib/stores/agents.ts:89-91 | the map becomes empty |
| Messages.FirstArrowEnd | src/lib/stores/messages.ts:64-66 | for a sender without `>`, the first `>` of the connection id ends the arrow |
| Messages.ConnectionIdInjective | src/lib/stores/messages.ts:64-66 | for senders without `>`, equal connection ids mean equal pairs |
| Messages.ConnectionIdCollides | src/lib/stores/messages.ts:64-66 | `a->b`→`c` and `a`→`b->c` share one connection id |
| Messages.MarkStatus | src/lib/stores/messages.ts:121-127 | same length; messages with the id get the status, all others unchanged |
| Messages.MarkStatusOverrides | src/lib/stores/messages.ts:112-127 | a later status mark of the same id overrides an earlier one |
| Messages.DeactivatedSpec | src/lib/stores/messages.ts:130-140 | keys kept; `active` cleared exactly on stale entries; other fields unchanged; idempotent |
| Messages.InGroupMembers | src/lib/stores/messages.ts:53-61 | a group holds exactly the messages whose `channel \|\| 'direct'` is its key |
| Messages.InGroupEmpty | src/lib/stores/messages.ts:53-61 | a key no message has has an empty group |
| Messages.MessagesByChannel | src/lib/stores/messages.ts:53-61 | the keys are exactly the messages' group keys, each group in history order |
| Messages.Recent | src/lib/stores/messages.ts:48-50 | the newest 20 messages (or all), oldest first |
| Messages.Bumped | src/lib/stores/messages.ts:84-96 | the pair's entry is active at `now` with count one more (or 1); other entries unchanged |
| Messages.MessageStore.constructor | src/lib/stores/messages.ts:31-38 | empty history, connections and in-flight set |
| Messages.MessageStore.Send | src/lib/stores/messages.ts:69-103 | appends the message as `sending` keeping the last 100, bumps its connection, marks it in flight, arms its delivery callback |
| Messages.MessageStore.FireDelivery | src/lib/stores/messages.ts:105-117 | the oldest callback removes its connection from the in-flight set and marks its message `delivered` |
| Messages.MessageStore.Ack | src/lib/stores/messages.ts:121-127 | messages with the id become `acked` |
| Messages.MessageStore.DeactivateStale | src/lib/stores/messages.ts:130-140 | the connection map becomes its deactivation at `now`, with `maxAge` defaulting to 5000 |
| Messages.MessageStore.Clear | src/lib/stores/messages.ts:143-147 | empties history, connections and in-flight set; armed callbacks stay |
| Messages.MessageStore.GetConnection | src/lib/stores/messages.ts:150-152 | the entry under the pair's id, or none exactly when absent |
| EventHandler.ParseRoleRoundTrip | src/lib/stores/eventHandler.ts:57-60 | a role's name parses back to it; a non-default parse returns its input's role; `default` exactly for unknown names |
| EventHandler.ParseStatusRoundTrip | src/lib/stores/eventHandler.ts:63-66 | a status's name parses back to it; a non-idle parse returns its input's status; `idle` exactly for unknown names or `idle` |
| EventHandler.SystemStateIsIgnored | src/lib/stores/eventHandler.ts:161-164 | `system/state` reaches no handler case |
| EventHandler.AgentsAfterTouchesOnlySource | src/lib/stores/eventHandler.ts:82-165 | an event changes at most the agent named by its source, keeps entries keyed by id, and leaves role counts alone unless it spawns |
| EventHandler.StatsAfterAllCounts | src/lib/stores/eventHandler.ts:46-52 | over any run `totalEvents` counts every event, `errors` stays 0, `messagesSent` counts the sending events |
| EventHandler.Handler.constructor | src/lib/stores/eventHandler.ts:38-52 | fresh empty stores, zero counters, daemon `online`, layout index 0 |
| EventHandler.Handler.Handle | src/lib/stores/eventHandler.ts:82-165 | counters, agents map, layout index, daemon status, armed callbacks and message store after one event, per `kind/subtype` case |
| EventHandler.Handler.FireTimer | src/lib/stores/eventHandler.ts:104-117 | a spawn's callback activates the agent, a release's removes it; counters unchanged |
| EventHandler.Handler.Reset | src/lib/stores/eventHandler.ts:170-185 | agents and messages cleared, counters zero, layout index 0, daemon `online`; armed callbacks stay |
| MockWs.MockSocket.constructor | src/lib/mock/mockWs.ts:18-21 | defaults interval 500 and no loop; position 0, not running, no listeners |
| MockWs.MockSocket.Current | src/lib/mock/mockWs.ts:24 | `events[idx]`, or undefined past the end |
| MockWs.MockSocket.Tick | src/lib/mock/mockWs.ts:23-30 | every listener gets `events[idx]`; the position advances, wraps in a loop or stops the timer at the end; the deliveries so far are the replay sequence |
| MockWs.MockSocket.Start | src/lib/mock/mockWs.ts:32-35 | running afterwards iff it was running or there are events |
| MockWs.MockSocket.Stop | src/lib/mock/mockWs.ts:37-40 | not running; position kept |
| MockWs.MockSocket.Subscribe | src/lib/mock/mockWs.ts:43-44 | adds the listener |
| MockWs.MockSocket.Unsubscribe | src/lib/mock/mockWs.ts:45 | removes the listener |
| MockWs.MockSocket.Status | src/lib/mock/mockWs.ts:52 | `open` iff a timer is set |
| MockWs.DivisionStep | src/lib/mock/mockWs.ts:25-27 | one step moves the looping position on by one or wraps it to 0 |
| MockWs.LoopCyclesThroughList | src/lib/mock/mockWs.ts:23-29 | a looping replay repeats with period `len` and restarts at the first event every `len` ticks |
| Draws.ScaledDrawInRange | src/lib/stores/stream.ts:41 | a draw in [0, 1) scaled by `n` lies in [0, n) |
| Draws.PickIndex | src/lib/stores/stream.ts:41 | `Math.floor(r * n)` is a valid index |
| Draws.PickFrom | src/lib/stores/stream.ts:40-42 | `randomFrom` returns an element of the array |
| Stream.RoundBetween | src/lib/stores/stream.ts:46 | `Math.round` of a value in a band stays in the band |
| Stream.RandomLatency | src/lib/stores/stream.ts:44-47 | latency lies in `[base, base + 40]` for the stage |
| Stream.Decimal | src/lib/stores/stream.ts:58 | a number's decimal rendering is non-empty digits, two or more from 10 up |
| Stream.DecimalInjective | src/lib/stores/stream.ts:58 | different numbers render differently |
| Stream.AfterLastDash | src/lib/stores/stream.ts:58 | the dash-free suffix of a string |
| Stream.AfterLastDashOf | src/lib/stores/stream.ts:58 | the part after the last dash of `p-d` is `d` when `d` has no dash |
| Stream.EventIdNamesTick | src/lib/stores/stream.ts:58 | an event id ends in its tick |
| Stream.EventIdsDistinct | src/lib/stores/stream.ts:53-58 | events of different ticks have different ids |
| Stream.EventAt | src/lib/stores/stream.ts:53-66 | the event of tick `k` has stage `stageOrder[k % 4]`, that stage's actor and a sample message, a latency in band, status `ok` iff the draw exceeds 0.08, and an id naming tick `k + 1` |
| Stream.MadeInOrderExtend | src/lib/stores/stream.ts:53-55 | appending the next tick's event keeps the log in tick order |
| Stream.MadeIdsDistinct | src/lib/stores/stream.ts:53-58 | all events made have distinct ids |
| Stream.ActiveStageIsLastHandedOut | src/lib/stores/stream.ts:84 | the active stage is the newest event's stage, or `queue` before the first |
| Stream.CountOk | src/lib/stores/stream.ts:96 | the `ok` count is at most the window size |
| Stream.MetricsOf | src/lib/stores/stream.ts:86-101 | no data exactly for an empty buffer; throughput at least 1 per minute |
| Stream.QuotientBetween | src/lib/stores/stream.ts:97-104 | a quotient of values in a band stays in the band |
| Stream.SuccessRateBands | src/lib/stores/stream.ts:97 | over at most 20 events the rate is in [0, 100], 100 iff all ok, 0 iff none, otherwise in [5, 95] |
| Stream.SumLatencyBetween | src/lib/stores/stream.ts:103-105 | the latency sum lies between `lo·n` and `hi·n` |
| Stream.MeanLatencyBetween | src/lib/stores/stream.ts:103-105 | the rounded mean latency lies in the band |
| Stream.MetricsOfStream | src/lib/stores/stream.ts:86-105 | for any stream the success rate is in [0, 100] and the mean latency in [35, 125] |
| Stream.RelayStream.constructor | src/lib/stores/stream.ts:49-51 | tick 0, no timer, empty buffer |
| Stream.RelayStream.MakeEvent | src/lib/stores/stream.ts:53-66 | returns the tick's event and advances the tick by one |
| Stream.RelayStream.Fire | src/lib/stores/stream.ts:70-73 | the buffer becomes the new event prepended, cut to 50; it is always the newest 50 events made, newest first |
| Stream.RelayStream.Start | src/lib/stores/stream.ts:68-74 | a timer runs afterwards; nothing else changes |
| Stream.RelayStream.Stop | src/lib/stores/stream.ts:76-80 | no timer runs afterwards |
| Simulator.SimSubtypeOfTag | src/lib/events/simulator.ts:27 | the factory's subtype is the segment after the first `/` and agrees with the playback engine's |
| Simulator.CreateEventFaithful | src/lib/events/simulator.ts:20-40 | demo session id, caller's source, target, channel and thread, kind and subtype spelling the tag |
| Simulator.FixedSpecs | src/lib/events/simulator.ts:51-270 | every fixed scenario has between 1 and 8 events |
| Simulator.FlurryEventOf | src/lib/events/simulator.ts:105-107 | a flurry message between two different crew members is an `agent/msg` of the demo session |
| Simulator.DrawPair | src/lib/events/simulator.ts:101-103 | a sender and a different recipient, both crew members; when the first two draws pick different members, exactly those two and no redraw |
| Simulator.CreateMessageFlurry | src/lib/events/simulator.ts:97-111 | eight `agent/msg` events, each between two different crew members, with the supplied ids, at least 16 draws taken; `None` only once every draw is used, and never when each sender's draw is followed by a different recipient's, in which case exactly 16 draws are taken |
| Simulator.BuildScenario | src/lib/events/simulator.ts:276-284 | scenario `k` carries the `k`-th name; the fixed ones are their specs made into events, and the flurry is eight messages with the supplied ids; with ample draws (each sender's draw followed by a different recipient's) a scenario is always built |
| Simulator.ConcatAppend | src/lib/events/simulator.ts:290-295 | one more scenario appends its events to the concatenation |
| Simulator.RotationIsRoundRobin | src/lib/events/simulator.ts:290 | scenario names rotate through all seven in order |
| Simulator.Sequencer.constructor | src/lib/events/simulator.ts:287 | nothing built or yielded yet |
| Simulator.Sequencer.Next | src/lib/events/simulator.ts:276-297 | each yielded event is the next event of the concatenated scenarios `0, 1, 2, …`, re-stamped; scenario `k` is begun only when `k - 1` is used up, and it is exactly fixed scenario `k mod 7`, or a message flurry with the supplied ids when `k mod 7 = 1`; no event (`None`) only when a new scenario is due and it is a message flurry, and never with ample draws, so the rotation yields forever |
| Simulator.Sequencer.BeginScenario | src/lib/events/simulator.ts:290 | builds the next scenario in the rotation |
| Simulator.Sequencer.YieldCurrent | src/lib/events/simulator.ts:291-294 | yields the current template with a fresh timestamp |
| Simulator.ManualStream.constructor | src/lib/events/simulator.ts:327-329 | no subscriber, value `null` |
| Simulator.ManualStream.Subscribe | src/lib/events/simulator.ts:329-330 | one more subscriber |
| Simulator.ManualStream.Unsubscribe | src/lib/events/simulator.ts:331-333 | one subscriber fewer |
| Simulator.ManualStream.Emit | src/lib/events/simulator.ts:338 | forwards the event iff subscribed, otherwise nothing changes |
| Patterns.OtherIds | apps/swarm-viz/src/lib/swarm/patterns.ts:390-392 | the other ids are exactly the ids different from the given one |
| Patterns.FindLead | apps/swarm-viz/src/lib/swarm/patterns.ts:139 | the first agent with role `lead`, or none when there is no lead |
| Patterns.LeadIndex | apps/swarm-viz/src/lib/swarm/patterns.ts:139 | the hub is a valid position |
| Patterns.SlotInOrbit | apps/swarm-viz/src/lib/swarm/patterns.ts:151-155 | a worker's position in its ring is below the ring's population, which is at most 6 |
| Patterns.SlotsDistinct | apps/swarm-viz/src/lib/swarm/patterns.ts:151-152 | different workers get different slots |
| Patterns.HubAndSpoke | apps/swarm-viz/src/lib/swarm/patterns.ts:139-176 | every agent with another id connects to the hub alone; the hub connects to all of them in order; agents sharing the hub's id are untouched |
| Patterns.HubSpokes | apps/swarm-viz/src/lib/swarm/patterns.ts:140-176 | the hub's connections are exactly the other agents' ids |
| Patterns.IndicesWithRole | apps/swarm-viz/src/lib/swarm/patterns.ts:190-193 | exactly the positions with the role |
| Patterns.Tail | apps/swarm-viz/src/lib/swarm/patterns.ts:199 | every position but the first |
| Patterns.NonEmptyLevels | apps/swarm-viz/src/lib/swarm/patterns.ts:200 | exactly the non-empty candidate levels |
| Patterns.Candidates | apps/swarm-viz/src/lib/swarm/patterns.ts:195-199 | four candidate levels of valid positions, the top one non-empty |
| Patterns.LevelsCoverSwarm | apps/swarm-viz/src/lib/swarm/patterns.ts:190-200 | one to four non-empty levels of valid positions that together place every agent |
| Patterns.ParentInRange | apps/swarm-viz/src/lib/swarm/patterns.ts:223-224 | the parent position is always in range, so the clamp never takes effect |
| Patterns.ParentMonotone | apps/swarm-viz/src/lib/swarm/patterns.ts:223 | later agents of a level never get an earlier parent |
| Patterns.Hierarchical | apps/swarm-viz/src/lib/swarm/patterns.ts:203-229 | the array after the frame is the original with every level's assignments applied in order |
| Patterns.AssignLevel | apps/swarm-viz/src/lib/swarm/patterns.ts:207-229 | one level's assignments applied in order |
| Patterns.AssignAgent | apps/swarm-viz/src/lib/swarm/patterns.ts:220-228 | one agent gets `[parent.id]`, or nothing on the top level |
| Patterns.ApplyAllSnoc | apps/swarm-viz/src/lib/swarm/patterns.ts:207 | one more assignment applies after the earlier ones |
| Patterns.LastWriteWins | apps/swarm-viz/src/lib/swarm/patterns.ts:203-229 | an agent ends with its last assignment, or as it was when never assigned; ids and roles never change |
| Patterns.AssignedConnsAreParents | apps/swarm-viz/src/lib/swarm/patterns.ts:220-228 | every assignment is empty or the single id of an agent on a level with a level below |
| Patterns.EveryPlacedAgentWritten | apps/swarm-viz/src/lib/swarm/patterns.ts:203-220 | every placed agent is assigned |
| Patterns.HierarchyOutcome | apps/swarm-viz/src/lib/swarm/patterns.ts:190-229 | after a frame every agent was assigned and has no connection or exactly one, to an agent on a level above some level |
| Patterns.SpiralIsAChain | apps/swarm-viz/src/lib/swarm/patterns.ts:322-328 | spiral neighbours are the adjacent positions: symmetric, never self, at most two |
| Patterns.Spiral | apps/swarm-viz/src/lib/swarm/patterns.ts:322-328 | each agent connects to the previous then the next agent's id |
| Patterns.PhaseByMillis | apps/swarm-viz/src/lib/swarm/patterns.ts:339-344 | progress lies in [0, 1); scatter, discussion and convergence are the first 3200 ms, up to 5600 ms, and the rest of the cycle |
| Patterns.NearIds | apps/swarm-viz/src/lib/swarm/patterns.ts:373-377 | every kept id is a nearby agent's and not one's own |
| Patterns.ConsensusLinks | apps/swarm-viz/src/lib/swarm/patterns.ts:364-392 | no links while scattering; at most three nearby, never self, while discussing; exactly every other id when converging |
| Patterns.Consensus | apps/swarm-viz/src/lib/swarm/patterns.ts:353-393 | each agent's connections are its phase's links at the given clock |

## Left out

- JSON decoding of log lines and `trim`: the parser takes lines already decoded as blank, malformed or an entry.
- TimelineParser.Message: the optional fields `data`, `deliverySeq`, `deliverySessionId` and `sessionId` are left out, because the pipeline never reads them and passes them through unchanged. `ts` is an integer, not a JavaScript number, so fractional or `NaN` timestamps in the `a.ts - b.ts` comparator are not modelled.
- Timers (`setTimeout`, `setInterval`) are flags or queues of armed callbacks; the delays and intervals are not modelled as time.
- `Date.now()`, `new Date().toISOString()`, `makeId`/`crypto.randomUUID` and `Math.random` are parameters.
- Generator.Player.SetSpeed: speed is kept positive; a zero or negative speed set on the store is not modelled (the source divides by it).
- Generator.Player.Start: a negative `opts.speed` is excluded by the precondition. The source would install it, because it is truthy, and then compute negative delays. Zero is modelled: it is ignored.
- Messages.MessagesByChannel: the grouping object is a plain `{}`, so a channel named `constructor`, `toString`, `hasOwnProperty`, `valueOf`, `__proto__` or any other `Object.prototype` key finds an inherited value that is already truthy. The group is then never created, and `push` throws a TypeError inside the derived store. The model treats these names as ordinary keys and returns their group.
- Patterns.HubAndSpoke: requires a non-empty array. The source reads `agents[0].id` and throws on an empty swarm, and the model does not represent the throw.
- Patterns.Hierarchical: requires a non-empty array. For an empty swarm the top level is `[agents[0]]`, which holds `undefined`, and reading its `x` throws. The model does not represent the throw.
- EventHandler: the event payload is a `map<string, string>`. Payload values that are not strings (numbers, objects) are not modelled. The handler only reads string fields, through `||` fallbacks.
- Simulator.ManualStream.Unsubscribe: subscribers are a count. In Svelte's `readable`, calling the same unsubscriber twice does nothing the second time, but here every call releases one subscriber. Which subscriber is released is not modelled.
- Simulator.CreateMessageFlurry: returns `None` when the supplied random draws run out before eight distinct pairs are drawn; the source draws until it succeeds.
- Simulator.BuildScenario: returns `None` for the message flurry when the supplied draws run out. An event is promised only when the draws are ample (every sender's draw is followed by a different recipient's); with other draws the contract allows `None` for the flurry, where the source keeps drawing.
- Simulator.Sequencer.Next: returns `None` when the supplied draws run out while building a flurry. An event on every call is promised only for ample draws, as for `Simulator.BuildScenario`.
- `createSimulatedStream`: the interval wrapper around the sequencer is a timer and is not modelled.
- The mock WebSocket's `send` is a no-op and is not modelled.
- Floating-point arithmetic: the model computes with exact rationals (`Math.round` as `floor(x + 0.5)`).
- In `patterns.ts`: positions, velocities and forces, the boids and mesh patterns, and the distance test itself (an input `near(i, j)`).
- Patterns: agents are values in an array, so an agent object listed twice in the array is not modelled as one object.
- `layoutAgents` and `getNextPosition` are trigonometry; only the layout index increment is modelled.
- The `throughput`/`successRate`/`latency` strings of `metrics`: the numbers are modelled, not their formatting.
- Svelte store machinery: writable stores are fields and derived stores are functions.
- `Map` insertion order (the `agents` and `connections` arrays) is not modelled; maps are Dafny maps.
- String order is by character code on `char`, not by UTF-16 code units.
- `DEMO_AGENTS`, `DEMO_MESSAGES` and the unused `CLIS` list of the simulator.
- `src/lib/types/events.ts` is not part of this model; the playback engine and simulator use the payload union of `Contracts`.
- Console logging.
