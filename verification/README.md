# Triage Sentinel: the incident pipeline, proved

A Dafny model of the M1 incident pipeline: how a message becomes an incident row, how the
process loop moves incidents through Tier 0, how fingerprints open and close suppression
windows, and how the audit trail reaches a browser. Everything that interleaves in the
program interleaves here: each database transaction is one atomic step (there is a single
writer), the hub's consumer may read between any two steps of an overflow, and a crash may
fall between any two commits. `dafny verify dfyconfig.toml` checks the whole project.

## How it is laid out

| file | what it holds |
|---|---|
| `BusQueue.dfy`, `Bus.dfy` | one subscriber's queue as a machine of micro-steps; the hub, its clients and their ring buffers as classes that follow it |
| `Store.dfy`, `StoreRuns.dfy`, `Windows.dfy` | the tables, each transaction as a function and as a method of `Database`; any sequence of transactions; suppression windows |
| `Pipeline.dfy` | the subscriber, the process loop, registry syncs and crashes as one machine |
| `PipelineIngest.dfy`, `PipelineStorm.dfy`, `PipelineTrail.dfy`, `PipelineGroups.dfy`, `PipelineFifo.dfy`, `PipelineWait.dfy` | what holds in every run of that machine |
| `Runtime.dfy`, `Ingest.dfy`, `Orchestrator.dfy` | the subscriber, the writer and the process loop as imperative code over a shared database, each commit tied to a step of the machine |
| `Fingerprint.dfy`, `Tier0.dfy` | grouping; the filter chain |
| `Normalize.dfy`, `Around.dfy`, `Passes.dfy` | checkout-root stripping, also around a piece of the line; the passes that erase volatile detail |
| `Scans.dfy`, `Times.dfy`, `Volatile.dfy` | the passes as scans of a text in parts; timestamps; what two occurrences may differ in and still be one text |
| `Config.dfy`, `Limits.dfy`, `Problems.dfy`, `Roots.dfy` | the registry: projects and defaults, budgets and limits, and the problems that validation gathers; which source roots stay inside the repository and match frames |
| `Sse.dfy`, `Stream.dfy`, `Sessions.dfy` | the frames a stream writes and how a browser reads them; replay and live delivery; one connection, cut off anywhere |
| `Live.dfy` | live delivery and replay decide by topic alike |
| `Reconnects.dfy`, `Losses.dfy`, `Watching.dfy` | any number of connections of one browser; two runs that lose a row; connections to a running pipeline |
| `Migrations.dfy` | loading and applying schema migrations |
| `Text.dfy`, `Picks.dfy`, `Wrappers.dfy` | strings; picking from a list by position; option and result |

Conventions. A hash is taken to be injective, so a digest is represented by what was hashed.
Instants are nanoseconds; a stored timestamp is whole seconds, rounded down. I/O, clocks and
failures are parameters: a transaction gets a flag saying whether it commits. Grouping
takes the normalisation of a line, the other regular expressions and JSON rendering as
function parameters, with the facts used of them stated; the normalisation itself is
`Passes.Normalized`.

## What the proofs found

- A consumer read that falls inside the drain of an overflow tears the delivered order: an
  event arrives behind one that was already discarded, and the resync comes only later. Each
  lost block is followed directly by its resync exactly when no read fell there
  (`BusQueue.GaplessIffNotTorn`). The loss is still announced, unless the connection is cut
  before the resync: then the browser comes back with a later id and the lost row is never
  replayed (`Losses.TornCutLosesARow`). A connection may be cut anywhere if and only if no
  publication was passed over in that way that had not been replayed
  (`Sessions.ConnectionSafeToCut`).
- A browser that reads by section 9.2.6 of the WHATWG HTML standard forgets its id on a
  connection that brings something, be it a resync or a heartbeat, but no event with an id:
  the id buffer starts empty and every blank line copies it. It then comes back with no id, nothing is replayed,
  and what was published meanwhile is lost (`Losses.HeartbeatLosesARow`). Reconnecting is safe
  after each of any number of connections, whatever is published afterwards, if and only if
  each of them either got nothing and held an id or got an event with an id
  (`Reconnects.SafeIffIdsKept`, over a pipeline run `Watching.ReconnectingToAPipeline`).
- With a buffer of one, a second overflow discards the pending resync and queues no new one
  (`BusQueue.CapacityOneCanBeSilent`); with two or more this cannot happen.
- Sighting and transition are two commits. An opener abandoned or lost in a crash between
  them is suppressed by its own window when it comes back, exactly until the rounded deadline
  (`PipelineStorm.RetriedOpenerIsSuppressed`, with a run in `RetriedOpenerRun`).
- The stored deadline is rounded down, so a window can reopen up to a second early; the rate
  bound allows for it and is tight (`Windows.WindowsReopenEarly`).
- An incident that does not fail is moved if and only if fewer failing ones than a batch
  holds wait ahead of it (`PipelineWait.MovedIffFewFail`); otherwise it waits forever.
- A replay page is silently incomplete as soon as more than 500 rows are past the id
  (`Stream.PageCompleteIffWithinLimit`).
- Being in a terminal state and having a closing time are the same thing exactly for the
  incidents that a project claimed: an unroutable one is born filtered and never gets one
  (`PipelineTrail.ClosedIffTerminalIffRoutable`).
- A grouping whose class is one line shares its hash with a different failure if and only if
  that class holds a NUL (`Fingerprint.CollidesIffNulInClass`), that is, if and only if the workflow name, or the
  normalised title where it becomes the class, does (`Fingerprint.GroupingsAreClean`); two
  such incidents are in `Fingerprint.TitlesCollide`.
- Storing job steps as one string changes the grouping if and only if a step holds the
  separator (`Fingerprint.TransparentIffNoSeparator`).
- Outside the listed checkout roots a file's text is independent of the root if and only if
  no earlier marker cuts its line and its own does not occur again
  (`Normalize.MarkerCutIff`, with two texts of one file in `RootsWithMarkersDiffer`).
- Validation accepts source roots that no frame can match: every root with a whole-word number
  after its first character, such as `api/2/src` and `api-2/src`, or with blanks that are not
  single spaces. Among the roots without an address, a UUID or a line number in them these are
  exactly the ones that cannot match (`Roots.RootMatchesIff`,
  `Roots.AcceptedRootMatchesNothing`).
- Validation also accepts source roots that leave the repository: exactly those that end in `..`
  with nothing but empty parts and dots before it, such as `./..` (`Roots.RootStaysIff`,
  `Roots.AcceptedRootLeaves`).
- The hub drops empty topics and the replay does not, so the two decide alike exactly for the
  lists without one (`Live.AgreeIffNoneEmpty`); the lists a stream asks for have none, and there
  live delivery is what replay would pass (`Live.LiveAsReplayed`).
- Two lines that differ only in a time, an identifier, an address, or the line and column behind
  one suffix are normalised to one text, whatever surrounds these, as long as nothing that begins
  earlier runs into them and nothing behind continues them (`Times.TimesAlike`,
  `Volatile.IdentifiersAlike`, `Volatile.AddressesAlike`, `Volatile.PositionsAlike`).
- Redelivered malformed messages are counted but leave no `duplicate` row, unlike redelivered
  events; the redelivery ledger keeps them apart (`PipelineIngest.RedeliveriesAccounted`).

The code is what is modelled where its documentation differs: the comment on `hashParts`
says that the separator cannot occur in a part; the one on `validateSourceRoots` that an
accepted root can match; and issues are fingerprinted like other incidents, which the
project's design notes do not foresee.

## Model

| member | source | states |
|---|---|---|
| BusQueue.LossAccounting | internal/bus/bus.go:128-172 | with a buffer of two or more, for every interleaving of publications, drain steps and reads: what was read followed by what is queued is in publication order, each resync stands for a loss, and what follows the last resync is the unbroken latest run of wanted events |
| BusQueue.AnnouncedIffNotSilent | internal/bus/bus.go:151-172 | at every capacity, the latest run is announced if and only if no overflow ended without a resync since the last one was queued |
| BusQueue.CapacityOneCanBeSilent | internal/bus/bus.go:162-165 | with a buffer of one, events can be lost and a later one arrive with no notice |
| BusQueue.GaplessIffNotTorn | internal/bus/bus.go:154-168 | every publication follows its predecessor or the resync covering it, if and only if no consumer read fell behind an item the running drain had discarded |
| BusQueue.ReadDuringDrainTears | internal/bus/bus.go:154-160 | the interleaving in which it does |
| BusQueue.LossIsAnnounced | internal/bus/bus.go:150-172 | every wanted event before the announced position was delivered, or a resync queued after it was |
| BusQueue.OrderedIncreases | internal/bus/bus.go:141-146 | delivered positions strictly increase: nothing is duplicated or reordered |
| Bus.Channel.TrySend | internal/bus/bus.go:141-146 | a send on an open channel appends when there is room and otherwise changes nothing, on a ring buffer |
| Bus.Channel.TryReceive | internal/bus/bus.go:154-160 | a receive takes the oldest item, if any |
| Bus.Channel.Close | internal/bus/bus.go:199-207 | a channel is closed at most once: closing needs it open |
| Bus.Client.Offer | internal/bus/bus.go:141-146 | one client's part of a publication keeps its buffer, flag and consumer view those of the queue machine, with reads allowed between any two steps |
| Bus.Client.OverflowLocked | internal/bus/bus.go:151-172 | the overflow ends, whatever the consumer reads meanwhile, in a state of the machine that is not overflowing |
| Bus.Hub.constructor | internal/bus/bus.go:74-82 | a buffer below one is raised to one |
| Bus.Hub.Subscribe | internal/bus/bus.go:87-110 | a new client is in the map iff the hub is open, otherwise its channel is already closed; a client is always in the map iff its channel is open; its topics are the ones named, without the empty one |
| Bus.Hub.Unsubscribe | internal/bus/bus.go:114-123 | removes the client and closes its channel; a client that is not in the map, be it of another hub, is left alone, so repeating is safe |
| Bus.Hub.Publish | internal/bus/bus.go:128-148 | every open client that named no topic, or this one, is offered exactly this publication; of every other client, queue, flag and what was received stay as they were; nothing is sent on a closed channel; an open hub puts the publication on record, a closed one ignores it |
| Bus.Hub.Close | internal/bus/bus.go:184-197 | every client is closed, the map emptied, later publications ignored; safe to repeat |
| Bus.ClientAccounted | internal/bus/bus.go:128-172 | in every reachable state of the hub, each client's received and queued events are the loss accounting of the machine: event by event, a wanted one unaltered, or a resync without id and data that names the topic of the publication it was queued for |
| Bus.ClientGivenItsTopics | internal/bus/bus.go:56-61 | in every reachable state of the hub a client's wanted list is, of the publications made while it was in the map, all when it named no topic, else those on one of its topics, by position, each once and in order |
| Store.Database.IngestIncident | internal/store/incidents.go:55-89 | an upsert on (source, source_ref): a new row, or one more occurrence and nothing else; a failure changes nothing |
| Store.Database.AppendEvent | internal/store/events.go:73-92 | appends exactly the row asked for, with an id above all others, or fails on an unknown incident |
| Store.Database.TransitionIncident | internal/store/events.go:101-149 | compare-and-set and audit row together, column by column; the nine terminal states, and no other, set the closing time; a stale transition changes neither table |
| Store.Database.ObserveFingerprint | internal/store/fingerprints.go:62-158 | inside the window the stored deadline stays and is reported, otherwise it is reopened and the unrounded instant is reported; the counter always grows; a first sighting inserts the row |
| Store.IngestEffect | internal/store/incidents.go:55-89 | an ingest is refused exactly when it would insert a row under an unknown project; a new key is stored as it came, a known one gains one occurrence; no other row or table changes |
| Store.TransitionEffect | internal/store/events.go:94-149 | a transition happens exactly when the row is in the expected state; it changes state, reason and times of that row only and adds the one audit row that says so, with an id above all others |
| Store.Database.EventsPast | internal/store/events.go:154-194 | by position, the first rows with a larger id, up to the limit, which is 500 when none is given |
| Store.Database.SyncProjects | internal/store/projects.go:50-115 | the whole reconciliation as one transaction |
| Store.SyncReconciles | internal/store/projects.go:40-115 | a sync deletes no project and clears no quarantine; exactly the listed slugs end up active, each with the columns of its last entry |
| Store.QueueInOrder | internal/store/incidents_read.go:51-67 | the queue lists every received row once, by creation second and then id |
| Store.QueueIncreasing | internal/store/incidents_read.go:62-67 | oldest first is smallest id first if and only if creation times do not go back between waiting rows |
| StoreRuns.AuditDeterminesState | internal/store/events.go:101-149 | for any transactions by any number of callers: an incident's state_change rows chain from its state to its later one, closed_at is the time of its last move into a terminal state, written rows never change, ids increase in commit order |
| StoreRuns.ApplyTrail | internal/store/events.go:94-149 | one transaction writes at most one audit row, and a state_change row exactly when it moved that incident, from its old state to its new one |
| StoreRuns.OneRowPerKey | internal/store/incidents.go:55-89 | each (source, source_ref) has at most one row, whose count grows by exactly the committed ingests of the key |
| StoreRuns.NewIffFirst | internal/store/incidents.go:67-84 | an ingest is reported as new exactly when none of its key was committed before |
| StoreRuns.ReferencesAlwaysHold | internal/store/projects.go:40-49 | no sequence of transactions leaves an incident, fingerprint or audit row naming something absent |
| Windows.OpeningsSpaced | internal/store/fingerprints.go:99-109 | each opening of a fingerprint is past the stored deadline of the one before, in any run and with any clock |
| Windows.RateBound | internal/store/fingerprints.go:99-120 | n >= 2 openings with windows of at least W span more than (n - 1)(W - 1s) |
| Windows.WindowsReopenEarly | internal/store/fingerprints.go:107-119 | that bound is tight: two openings W - 1s + 1ns apart |
| Windows.DeadlineAndCounter | internal/store/fingerprints.go:99-120 | the stored deadline never moves back, and the lifetime counter is exactly the committed sightings |
| Windows.CounterFromScratch | internal/store/fingerprints.go:137-158 | a fingerprint exists exactly after its first sighting, which opens a window |
| PipelineIngest.AcknowledgedIsSettled | internal/ingest/subscriber.go:146-229 | in every run, with redelivery, failed writes and acknowledgements and crashes: an acknowledged message has its row, or was ignored, unclaimed or badly signed |
| PipelineIngest.RunSound | internal/store/incidents.go:55-89 | every reachable state has one row per key, at least one occurrence each, increasing audit ids and no dangling reference |
| PipelineIngest.RedeliveriesAccounted | internal/ingest/writer.go:77-92 | an incident's count is one, plus its duplicate rows, plus the ingests that left none, plus a row still owed; the counts those rows record strictly increase |
| PipelineIngest.ReceivedNamesAProject | internal/store/projects.go:50-115 | whatever was synced meanwhile, every queued incident names an existing project |
| PipelineStorm.HandNext | internal/orchestrator/orchestrator.go:108-134 | what the worker holds are distinct incidents still in received, after every step of any actor |
| PipelineStorm.HandMove | internal/orchestrator/orchestrator.go:199-213 | with one worker no transition is stale |
| PipelineStorm.BooksBalance | internal/orchestrator/orchestrator.go:136-217 | conservation in every run: each sighting of a fingerprint has its verdict, is in hand or was lost; each window has its triaged incident, has its opener in hand, or was spoiled; the stored deadline is that of the last opening |
| PipelineStorm.StormCollapse | internal/orchestrator/orchestrator.go:157-206 | nothing in hand or lost and nothing rejected by an earlier filter: exactly the openers reached triage, in order, every other sighting was suppressed, and the lifetime counter is their sum |
| PipelineStorm.CollapseIffNoneSpoiled | internal/orchestrator/orchestrator.go:157-206 | with nothing in hand, as many incidents reached triage as windows opened if and only if no opener was lost or rejected |
| PipelineStorm.StormRate | internal/orchestrator/orchestrator.go:136-217 | in every run, failures and clock steps included: triaged incidents never exceed openings, and openings obey the rate bound |
| PipelineStorm.RetriedOpenerIsSuppressed | internal/orchestrator/orchestrator.go:157-213 | in every run from the start: an opener given up or lost in a crash between sighting and transition, and marked again with no other sighting of its fingerprint in between, is suppressed by its own window if and only if it returns before the rounded deadline |
| PipelineStorm.RetriedOpenerRun | internal/orchestrator/orchestrator.go:136-217 | one such run from the empty database, step by step |
| PipelineTrail.TrailDeterminesStates | internal/store/events.go:101-149 | in every run each incident's moves chain from its birth state to its current one, received is left at most once and never re-entered, and closed_at is set exactly by a move into a terminal state |
| PipelineTrail.ClosedIffTerminalIffRoutable | internal/ingest/writer.go:69-72 | in every run and for every incident: being in a terminal state and having a closing time coincide if and only if it names a project |
| PipelineTrail.PublishAfterCommit | internal/orchestrator/orchestrator.go:199-216 | what was published is always a list of committed state_change rows with strictly increasing ids |
| PipelineGroups.NoOverCollapse | internal/triage/fingerprint.go:58-65 | for any clean groupings that the loop may mark: the incident in hand agrees in project, class and frames with every opener of its fingerprint, and every judged incident carries the fingerprint and belongs to its project |
| PipelineGroups.JudgedLikeItsOpeners | internal/orchestrator/orchestrator.go:152-206 | from the texts: in every run whose marks are what the incidents' own titles, bodies and steps give, with no NUL in the title or workflow name that becomes the class of an incident carrying the fingerprint, whatever the fingerprint judged, suppressed or not, agrees by its own text in project, class and frames with every incident that opened a window of it |
| PipelineGroups.StoredEvidenceNeverChanges | internal/store/fingerprints.go:111-120 | a fingerprint's project and stored frames never change over a run |
| PipelineFifo.QueueIsWaiting | internal/store/incidents_read.go:62-67 | while the clock never goes back, queue order is insertion order |
| PipelineFifo.FirstInFirstOut | internal/orchestrator/orchestrator.go:108-134 | through batches, arrivals, crashes and restarts, with a clock that never goes back and no incident given up: incidents leave in id order, the worker holds the head of the queue, and a fingerprint's first incident has the smallest id of all that carry it |
| PipelineWait.BoundedWait | internal/orchestrator/orchestrator.go:108-134 | with k failing incidents waiting ahead, fewer than a batch B, a clock that does not go back and any arrivals: an incident with m non-failing ones ahead has moved after n uncancelled passes as soon as n (B - k) > m |
| PipelineWait.EnoughPasses | internal/orchestrator/orchestrator.go:108-134 | that is, from pass floor(m / (B - k)) + 1 on, and not before |
| PipelineWait.QueueStalls | internal/orchestrator/orchestrator.go:121-132 | when the first B waiting incidents fail every time, no number of passes moves anything |
| PipelineWait.MovedIffFewFail | internal/orchestrator/orchestrator.go:108-134 | the dichotomy: an incident that does not fail is moved, at the latest one pass after as many as are ahead of it, if and only if fewer failing incidents than a batch wait ahead of it |
| Ingest.IncidentWriter.Classify | internal/ingest/writer.go:44-75 | the parameters that the machine ingests; what they store is stated by the next rows |
| Ingest.StoredEventGroups | internal/orchestrator/orchestrator.go:223-230 | from event to group: the stored row of a failed workflow is grouped by the steps the event came with |
| Ingest.IncidentWriter.Handle | internal/ingest/writer.go:41-94 | a new event leaves one row, column by column its own: title, body, metadata, steps that split back, its own time or the ingest time, waiting if and only if it names a project; a known key gains one occurrence and its audit row; an unknown project is refused; success exactly when all of this commits |
| Ingest.IncidentWriter.HandleMalformed | internal/ingest/writer.go:98-116 | a malformed message leaves one filtered row under its own key, column by column, or one more occurrence of it |
| Ingest.ReceiveStores | internal/ingest/writer.go:58-80 | the same over the machine: what receiving a new event leaves |
| Ingest.ReceiveStoresMalformed | internal/ingest/writer.go:98-116 | and a malformed message |
| Ingest.Subscriber.HandleMessage | internal/ingest/subscriber.go:180-229 | outcome by outcome: what is left in the tables, whether the message may be acknowledged, and the one counter raised beside that of the pulled messages |
| Ingest.Subscriber.ProcessBatch | internal/ingest/subscriber.go:146-175 | message by message through the batch the same; exactly the messages that may be are acknowledged, and each of these is settled in the tables; the pull time moves only on a successful acknowledgement |
| Orchestrator.Orchestrator.Group | internal/orchestrator/orchestrator.go:223-238 | told from the row: a failed workflow by its name and its steps that are not empty once normalised, in order; anything else by the class of its first line that is not blank, or its title, and the ladder's choice among the first five frames of its body |
| Orchestrator.Orchestrator.Settings | internal/orchestrator/orchestrator.go:145-150 | the window and roots that the first project with the slug gives itself, else the default window and no roots |
| Orchestrator.Orchestrator.Decide | internal/orchestrator/orchestrator.go:169-206 | the chain's verdict becomes exactly the transition the machine's move makes, with the name and the reason of the first filter that rejects |
| Orchestrator.Orchestrator.Process | internal/orchestrator/orchestrator.go:136-217 | an incident leaves the queue exactly when no read or commit failed, and no other incident moves; then it carries the fingerprint of its own grouping, and told from the tables and the row alone: a quarantined project, a transient pattern in title or body, the bot as author, a sighting inside the stored window, in this order, give state, reason and detail; it is closed unless it goes on to triage, and one audit row says all of this |
| Orchestrator.JudgedAlike | internal/orchestrator/orchestrator.go:136-217 | over the real tables, whatever runs of the loop led to them: each verdict's incident agrees by its own text with every opener of its fingerprint |
| Orchestrator.JudgedAlikeHere | internal/orchestrator/orchestrator.go:223-238 | when the loop has had one registry, the groupings it would give the two incidents now are of the same failure |
| Orchestrator.Orchestrator.ProcessOnce | internal/orchestrator/orchestrator.go:108-134 | until cancelled, exactly the listed incidents without a failure leave the queue, one after the other and each with the verdict just described over the tables as it finds them, and they are counted; a pass that is not cancelled is a pass of the bounded-wait theorem, giving up only the failed ones |
| Fingerprint.HashSeparates | internal/triage/fingerprint.go:160-163 | the hashed key is injective in project, error class and frame list, for parts without the separators |
| Fingerprint.CollidesIffNulInClass | internal/triage/fingerprint.go:158-163 | a grouping whose class and frames are one line each, and whose slug has no NUL, shares its key with a different failure whose class is free of NUL if and only if its own class holds a NUL |
| Fingerprint.TitlesCollide | internal/triage/fingerprint.go:158-163 | two incidents, told apart by title and body, that get one hash |
| Fingerprint.GroupingsAreClean | internal/triage/normalize.go:119-164 | an incident's grouping is free of separators if and only if its normalised title, or its workflow name, has no NUL where that becomes the class, and its slug has none |
| Fingerprint.LadderHolds | internal/triage/fingerprint.go:67-110 | at most five frames, in order, never none when there are some; which rung was used says which frames qualify; recomputing from the chosen frames gives the same frames and strategy |
| Fingerprint.LadderPicks | internal/triage/fingerprint.go:67-110 | by position: the first five frames under a root, or outside the dependency directories, or of all, as the strategy says |
| Fingerprint.DependencyIff | internal/triage/fingerprint.go:128-135 | a frame is a dependency's if and only if one of the directories stands somewhere in it |
| Fingerprint.MatchesRootIff | internal/triage/fingerprint.go:112-127 | blanks and slashes around a root do not matter: a frame is under it if and only if the root and a slash stand somewhere in it |
| Fingerprint.RungHolds | internal/triage/fingerprint.go:92-110 | one rung keeps the first five qualifying frames, is empty exactly when none qualifies, and is a fixpoint |
| Fingerprint.FilterFrames | internal/triage/fingerprint.go:92-103 | the early exit at five frames changes nothing |
| Fingerprint.ComputeFingerprint | internal/triage/fingerprint.go:58-90 | hash and evidence are those of the ladder |
| Fingerprint.WorkflowFingerprint | internal/triage/fingerprint.go:144-156 | a CI failure is grouped by its non-empty normalised steps under the workflow's name |
| Fingerprint.StepPicks | internal/triage/fingerprint.go:144-156 | by position: the steps that are not empty once normalised |
| Fingerprint.ExtractFrames | internal/triage/normalize.go:119-137 | the first five non-empty normalised frame lines, in order |
| Fingerprint.BodyPicks | internal/triage/normalize.go:119-137 | by position: the first five lines that are frames and not empty once normalised |
| Fingerprint.ErrorClassed | internal/triage/normalize.go:145-164 | the class is the typed error of the first line that is not blank, or panic, or else the normalised title, or unknown |
| Fingerprint.GroupOfIs | internal/orchestrator/orchestrator.go:223-238 | all of it together: what an incident is grouped by |
| Fingerprint.StepEncodingTransparent | internal/ingest/writer.go:45-56 | joining the steps for storage and splitting them again does not change the grouping, also for no steps and empty step names |
| Fingerprint.TransparentIffNoSeparator | internal/ingest/writer.go:45-56 | the grouping is unchanged by storage under every normalisation if and only if no step holds the separator |
| Normalize.IndexAbsolute | internal/triage/normalize.go:85-98 | the first occurrence that begins an absolute path, or -1, all indexing in bounds |
| Normalize.StripAbsolutePrefix | internal/triage/normalize.go:54-76 | the search and cut that the specification functions define |
| Normalize.RelativeUnchanged | internal/triage/normalize.go:50-76 | a line in which no slash starts an absolute path is returned unchanged |
| Normalize.RootIndependence | internal/triage/normalize.go:25-59 | a frame under any listed checkout root strips to the same text |
| Normalize.MarkerCut | internal/triage/normalize.go:60-74 | an absolute token without a listed root is cut at the last occurrence of the first marker it holds |
| Normalize.MarkerCutIff | internal/triage/normalize.go:60-74 | of a token that reads root, marker, rest, what is kept is marker and rest, whatever the root, if and only if no earlier marker cuts the line and this one does not occur again |
| Normalize.RootsWithMarkersDiffer | internal/triage/normalize.go:64-74 | one file under two roots, with two texts |
| Passes.NoIntLeft | internal/triage/normalize.go:34-48 | no normalised line holds a number that is a word of its own |
| Passes.BlanksLeftSingle | internal/triage/normalize.go:45-47 | no normalised line holds a blank but single spaces, so it is one line |
| Passes.SettledComesOut | internal/triage/normalize.go:34-48 | a trimmed text with no UUID, address, line number, whole-word number or blanks but single spaces is what normalising makes of some line |
| Times.StampErased | internal/triage/normalize.go:14-39 | a timestamp, told character by character, is replaced by its token and nothing around it is, unless one that begins earlier runs into it or what follows continues it |
| Times.TimesAlike | internal/triage/normalize.go:30-48 | two lines that differ only in such a timestamp are normalised to the same text |
| Volatile.TimeComesOut | internal/triage/normalize.go:36-48 | a line that begins with a timestamp is normalised to the token and the rest, when the rest has nothing else to erase |
| Volatile.UuidErased | internal/triage/normalize.go:16-40 | an identifier between no words is replaced, and nothing around it is |
| Volatile.IdentifiersAlike | internal/triage/normalize.go:30-48 | two lines that differ only in an identifier between no words, which no timestamp overlaps, are normalised to the same text |
| Volatile.AddressErased | internal/triage/normalize.go:17-41 | an address is replaced, and nothing around it is, unless the text before it ends in one |
| Volatile.AddressesAlike | internal/triage/normalize.go:30-48 | two lines that differ only in such an address, which no timestamp overlaps, are normalised to the same text |
| Around.StripKeepsPiece | internal/triage/normalize.go:54-76 | stripping a checkout root cuts a line in the same way whatever piece of this shape stands in it: a dot or digit first, a path byte last, no slash and no token end |
| Volatile.PositionErased | internal/triage/normalize.go:18-43 | a line and a column behind a file's suffix are taken off it, and nothing around it is |
| Volatile.PositionsAlike | internal/triage/normalize.go:30-48 | two lines that differ only in the line and column behind one suffix, with or without a column, are normalised to the same text, under whatever root |
| Volatile.NumberErased | internal/triage/normalize.go:19-44 | a number that is a word of its own is replaced, and nothing around it is |
| Volatile.BlankErased | internal/triage/normalize.go:20-45 | a run of blanks becomes one, and nothing around it changes |
| Tier0.ChainVerdict | internal/triage/tier0.go:74-145 | filtered exactly when quarantined, transient or self-inflicted, under the name and the reason of the first of these; suppressed exactly when none of these and in a window |
| Tier0.TransientNamesFirst | internal/triage/tier0.go:88-98 | a transient rejection names the first pattern that matches title or body |
| Config.Validate | internal/config/validate.go:47-66 | accepts exactly the registries whose every rule holds, budgets, soft mode, defaults, runtime, bot and patterns included, and names exactly the faulty projects |
| Config.ValidateProjects | internal/config/validate.go:325-395 | all projects are checked; a repeated slug is a fault of the later one |
| Config.ValidateSourceRoots | internal/config/validate.go:297-323 | accepts exactly relative, non-blank roots that neither begin with a part leading upward nor hold one in the middle |
| Config.ValidateDefaults | internal/config/validate.go:167-205 | accepts exactly the usable defaults |
| Config.ValidateModelField | internal/config/validate.go:210-223 | accepts exactly priced models, or none where none is required |
| Config.EffectiveProject | internal/config/effective.go:47-91 | the first project with the slug: autonomy, model, the five commands, window, diff limit, test changes and roots its own where given and not blank, else the default's; every other column from the one that has it |
| Config.ProjectOkIff | internal/config/validate.go:325-395 | acceptance of a project, told from any resolution of its overrides and defaults |
| Config.AcceptedIsUsable | internal/config/validate.go:293-415 | in an accepted registry whatever answers for a slug is of the one project that has it, with valid autonomy, priced models, a positive window, a test command, a deploy command when deploying, and roots that cleaning does not empty |
| Roots.RootMatchesIff | internal/triage/fingerprint.go:115-126 | over the passes of normalising: a root with no address, UUID or line number in it matches some normalised frame if and only if it has no whole-word number after its first character and no blanks but single spaces |
| Roots.NoneMatches | internal/triage/fingerprint.go:115-126 | one half of it for every root: with such a number, or such blanks, no normalised frame matches |
| Roots.AcceptedRootMatchesNothing | internal/config/validate.go:293-323 | three roots that validation accepts and no normalised frame matches: a number as a segment, a number at the end of one, and two blanks |
| Roots.RootStaysIff | internal/config/validate.go:293-323 | an accepted root stays inside the repository if and only if it does not end in an upward part with only empty parts and dots before it |
| Roots.AcceptedRootLeaves | internal/config/validate.go:315-318 | one that is accepted and leaves |
| Sse.WriteEvent | internal/httpapi/stream.go:94-112 | one frame: id only when positive, type only when there is one, braces for no data |
| Sse.WriteStream | internal/httpapi/stream.go:52-89 | the bytes of a list of events and heartbeats |
| Sse.RoundTrip | internal/httpapi/stream.go:81-147 | a parser by section 9.2.6 of the WHATWG HTML standard reads back the same types and data in order; it reconnects with the id of the last event that had one, with the id it held before when it got nothing, and with none when what it got had no id |
| Sse.HoldsIff | internal/httpapi/stream.go:81-112 | a browser holds an id after a connection if and only if it held one and got nothing, or got an event with an id |
| Sse.ParseDecimal | internal/httpapi/stream.go:134-147 | the header a browser sends for an id is parsed as that id |
| Sse.CutStream | internal/httpapi/stream.go:92-112 | a connection cut at any character: exactly the messages of the chunks that were complete, no part of the next, and a reconnection with the id that those chunks leave |
| Stream.WantsTopic | internal/httpapi/replay.go:61-71 | an empty topic list wants every topic |
| Stream.StoreReplay | internal/httpapi/replay.go:24-56 | by position, the first 500 audit rows past the id, each with its id, the incidents topic, its kind and its data, or none for other topics |
| Stream.ParseTopics | internal/httpapi/stream.go:116-129 | the parts as the next two rows describe them |
| Stream.TopicsRoundTrip | internal/httpapi/stream.go:116-129 | a list of topics survives the query string |
| Live.TopicsAre | internal/httpapi/stream.go:116-129 | the topics of a query are exactly its trimmed parts that are not blank |
| Live.AgreeIffNoneEmpty | internal/bus/bus.go:87-94 | the hub's set of topics and the replay's list decide alike on every topic if and only if the list holds no empty one |
| Live.LiveAsReplayed | internal/httpapi/stream.go:41-50 | what a client with the topics of a query is given of the publications made while it was in the map is, by position, exactly what replay would pass for the same topics |
| Stream.ReconnectHasNoGap | internal/httpapi/stream.go:41-79 | subscribe before replay, a page not truncated, a buffer of two or more: every row past the id that was committed before the replay read or is ever published reaches the client, or a resync does |
| Stream.ReplayFirstLosesARow | internal/httpapi/stream.go:41-43 | in the other order a row is lost with no notice |
| Stream.PageCompleteIffWithinLimit | internal/httpapi/replay.go:12-14 | the page is complete if and only if at most 500 rows are past the id |
| Sessions.SafeToCutIff | internal/httpapi/stream.go:41-90 | wherever a connection is cut, every row due up to the id it leaves behind has reached the browser or a later resync has, if and only if no publication was passed over that had not been replayed |
| Sessions.ConnectionSafeToCut | internal/httpapi/stream.go:41-90 | that holds of every connection as it runs, and none is passed over when no read fell into an overflow's drain |
| Reconnects.NoGapOverSessions | internal/httpapi/stream.go:18-90 | over any number of connections, heartbeats included, each of which left an id: every published row that the first one was to bring, up to the id held last, reached the browser on some connection, as itself or by a later resync |
| Reconnects.SafeIffIdsKept | internal/httpapi/stream.go:41-90 | after each connection, and whatever is committed and published later, every row owed was shown or is past the id held, so that it will be replayed, if and only if each connection got nothing and held an id, or got an event with an id |
| Watching.ReconnectingToAPipeline | internal/orchestrator/orchestrator.go:199-216 | the same for connections made while any run of the pipeline goes on: the order of rows and publications that this needs is what the process loop gives them |
| Losses.TornCutLosesARow | internal/bus/bus.go:151-172 | a run in which a cut after a torn read loses a row for good |
| Losses.HeartbeatLosesARow | internal/httpapi/stream.go:45-90 | a run in which a connection brings one heartbeat and takes the id away: the row published before the next connection never reaches the browser, and no later id will replay it |
| Migrations.LoadMigrations | internal/store/migrate.go:122-184 | well-named files are accepted if and only if their versions are distinct and exactly 1..n; what is returned is all of them in order |
| Migrations.NamedIff | internal/store/migrate.go:133-150 | a name is accepted if and only if it is a version printed with four digits, an underscore, a lower-case stem and the suffix, and that is then its version |
| Migrations.Schema.Migrate | internal/store/migrate.go:49-77 | one run applies the pending scripts in order and stops at the first failure; a database ahead of the file set is left alone |
| Migrations.MigrateRepeatedly | internal/store/migrate.go:49-102 | after any runs, upgrades and downgrades over file sets of one history, with failures and restarts, the schema is scripts 1..v of it once each in order; a last run that succeeds leaves at least its own scripts, and exactly those when none before shipped more |

## Left out

- SQLite itself: tables are sequences and maps, a transaction is one atomic step, and the foreign keys and the unique index are part of each transaction's function.
- SHA-256 and HMAC: hashing is injective, and the verdict on a message's signature is an input.
- The regular expressions of `ExtractFrames`, `ErrorClass` and the transient patterns: functions, of which only one-line results are used where stated. Nothing is claimed of normalising twice.
- Roots.RootMatchesIff: of roots with an address, a UUID or a line number in them only `Roots.NoneMatches` is claimed.
- Volatile.PositionsAlike: what follows the number begins with no word character, colon or dash, and the suffix holds no address; no timestamp runs into them.
- Volatile.NumberErased: stated of the pass; that two whole lines with different numbers are one text is not, since an earlier pass may take part of a number.
- Text is characters: one outside ASCII is several bytes in the program, none of which a pass or the search looks for.
- JSON columns and payloads: values; event data is rendered by a parameter.
- Amounts in the registry are real numbers, so NaN and infinities are not modelled.
- A registry replaced while the loop runs: one `Orchestrator` has one registry; `PipelineGroups.JudgedLikeItsOpeners` and the loop's invariant hold over processes with different ones.
- Reconnects.NoGapOverSessions: rows that are never published, such as `duplicate` rows, reach a browser only by replay, so those committed after a connection's replay read and before a later published row are not claimed; connections whose page is truncated, or that passed over a publication, are outside the statement. That publications come in id order is assumed here and proved for a pipeline run in `Watching.dfy`.
- Orchestrator.Orchestrator.ProcessOnce: nothing else runs between its commits; the interleavings with ingestion, registry syncs and crashes are those of the pipeline machine.
- Ingest.Subscriber.ProcessBatch: the subscriber's handler for malformed messages is set; pulling, backoff with jitter and the ingest cursor are not modelled.
- Orchestrator.Orchestrator.Publish: what is handed to the hub is recorded as the committed row, and the hub's own delivery is proved in `Bus.dfy`.
- Stream.ReconnectHasNoGap: the handler's wait is the machine's interleaving of client steps and publications, not a method over the hub class; writing is `Sse.WriteStream`.
- Windows.DeadlineAndCounter: that the deadline never moves back is stated for non-negative windows, which an accepted registry guarantees.
- PipelineFifo.FirstInFirstOut: an incident marked again under another grouping after a restart no longer counts as carrying the first one.
- More than one process loop over the same tables: `Transition` is proved for any number of callers, the pipeline machine has one worker, as the program does.
- `author_email`: it is read by the loop but never stored by the writer, so no claim is made about self-inflicted incidents end to end.
- HTTP routing, sessions, health and overview pages, static files, the REST and GitHub clients, the relay, process supervision and the user interface.
