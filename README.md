# Live poll vote pipeline — a verified Dafny model

The server of a live-poll application takes votes over HTTP and appends each
one to a Redis stream. A stream consumer, in a consumer group, applies each
entry to the poll's vote hash with `HINCRBY` and publishes a `VOTE_EVENT` on
the `poll-updates` pub/sub channel. Every server process relays that event to
the WebSocket viewers of the poll that are connected to it. Releasing a poll
closes it to new votes and publishes `RESULTS_RELEASED` with the current
counts.

This project models one server process as a sequential state machine over
in-memory stand-ins for Redis and the sockets, and proves what each step
does.

- `tally.dfy` (module `Tally`) covers one poll's hash as a map from option to
  count, and `HINCRBY` by one. `Total` is the sum of a snapshot. `SumVotes` is
  the `reduce` loop that computes it.
- `aggregate.dfy` (module `Aggregate`) covers all hashes after a sequence of
  increments, and how the counters, the present options and the totals relate
  to the votes applied.
- `registry.dfy` (module `Registry`) covers the `clients` map from poll id to
  sockets, as it is after a `connection` or a `close` event.
- `messages.dfy` (module `Messages`) holds the poll metadata, the two
  notifications, the pub/sub envelope, the socket states and the handlers'
  error replies.
- `server.dfy` (module `Server`) holds the class `VoteServer`.
  - Its fields are the registry, each connection's `readyState` and close
    handler, everything written to sockets (`outbox`), the poll metadata, the
    vote hashes, the stream, the consumer group, the channel, and a ghost
    record of the entries applied.
  - Its methods are:
    - the socket events;
    - `broadcastLocal` and the publish bridge;
    - `updateVoteCount`;
    - the create, read, vote and release handlers;
    - one turn of the stream consumer.
  - The class invariant `Valid` says three things. The registry is tidy. The
    group's delivered entries are exactly its pending plus acknowledged ones.
    Every hash equals the fold of the entries applied, in stream order and
    each once.
- `scenarios.dfy` (module `Scenarios`) holds whole runs from an empty store,
  each stated as what a client sees.

Sockets are named by connection ids. A `ws.send` is a `Delivery` appended to
`outbox`. Stream entry ids are stream positions. The pub/sub bridge is
synchronous: `Publish` appends to `channel` and hands the message straight to
this process's `BroadcastLocal`.

Where the code behaves differently from what one might expect, the model
follows the code:

- A release of a poll nobody voted on sends `{}`, not a zero per option. An
  option with no votes has no hash field.
- A vote on a missing poll gets "Poll closed" (403), not "Not found".
- A vote's option is not checked against the poll's options.
- Entries already in the stream when a poll is released are still consumed.
  Their `VOTE_EVENT`s still go out after `RESULTS_RELEASED`.
- A socket that connects to a released poll gets no `RESULTS_RELEASED` on
  connecting.
- Every snapshot a client receives is copied field by field into a plain
  object `{}`. Assigning to a field named `__proto__` hits the prototype
  setter, which ignores a number. So a vote for an option named `__proto__`
  is counted in the hash but missing from the VOTE_EVENT, the poll read and
  RESULTS_RELEASED, and their totals are lower by its count (`Tally.Visible`).
- A release saves the poll CLOSED before it reads the hash and publishes. A
  Redis failure in between leaves the poll closed to votes with no
  RESULTS_RELEASED sent and no reply. The rejected promise is not handled
  either, which the model does not follow further (see "## Left out").
- A consumer turn that fails after reading an entry leaves it pending for
  good. The consumer reads only never-delivered entries (`>`), so nothing in
  this process reads that entry again.

## Model

| member | source | states |
|---|---|---|
| Tally.Increment | server/index.js:95 | HINCRBY by one creates the field at 1 or raises it by exactly 1; the other fields keep their values and no field disappears |
| Tally.TotalRemove | server/index.js:127 | the sum of a snapshot is one field's value plus the sum of the rest, whichever field is taken first |
| Tally.TotalIncrement | server/index.js:94-100 | one increment adds exactly one vote to the snapshot's total |
| Tally.VisibleTotal | server/index.js:97-98 | the total of a snapshot copied into a plain object falls short of the hash's total by exactly the `__proto__` field's count |
| Tally.SumVotes | server/index.js:127 | the `reduce` over the snapshot's values yields its total |
| Aggregate.Apply | server/index.js:94-95 | one `updateVoteCount(p, o)` increments `o` in `p`'s hash, creating the hash if needed; every other poll's hash is unchanged |
| Aggregate.TallyAllSnoc | server/index.js:120 | applying one more entry to the hashes of a sequence of entries gives the hashes of the longer sequence |
| Aggregate.TallyCount | server/index.js:120 | after a sequence of votes, each counter equals the number of those votes for that poll and option |
| Aggregate.TallyKeys | server/index.js:196-198 | an option appears in a poll's snapshot exactly when it received at least one vote, so options nobody voted for are absent |
| Aggregate.TallyPolls | server/index.js:95-96 | a poll's hash exists exactly when some vote on it has been applied |
| Aggregate.TallyTotal | server/index.js:123-128 | a poll's total is the number of votes applied on that poll |
| Aggregate.PizzaTacos | server/index.js:94-99 | votes Tacos, Pizza, Tacos give `{Pizza: 1, Tacos: 2}`, with a total of 3 |
| Registry.Register | server/index.js:146-147 | connecting adds the socket to its poll's set, creating the set if absent; the other polls' sets are unchanged and no set is empty |
| Registry.Unregister | server/index.js:149-155 | closing removes the socket from its poll's set and drops the poll's entry when the set empties; the other entries are unchanged; nothing happens when the poll has no entry |
| Registry.RegisterUnregister | server/index.js:146-155 | a socket that connects and then closes leaves the registry exactly as it was |
| Server.IncreasingSnoc | server/index.js:111-115 | taking a stream position above every one taken so far keeps the positions in stream order, and the new one was not taken before |
| Server.ApplyKeeps | server/index.js:117-120 | applying the next delivered entry keeps the group's bookkeeping, and the hashes become those of the applied entries plus this one |
| Server.VoteServer.CountsMatchApplied | server/index.js:110-132 | under the invariant, each counter is the number of applied entries for that option, an option is present only once voted for, a poll's total is the number of its applied entries, and the total a client is shown misses exactly the votes for `__proto__` |
| Server.VoteServer.constructor | server/index.js:52-53 | a process starts with no connections, nothing sent, no polls, no hashes, an empty stream and group, and nothing published |
| Server.VoteServer.Connect | server/index.js:141-148 | a socket without a poll id, or with an empty one, is terminated and not registered; otherwise it is OPEN, joins its poll's set and gets that poll's close handler |
| Server.VoteServer.BeginClosing | server/index.js:72 | an OPEN socket whose peer starts closing becomes CLOSING and stays registered |
| Server.VoteServer.Close | server/index.js:149-155 | a closed socket is CLOSED; its close handler, if one was attached, unregisters it from its poll; no other poll's set changes |
| Server.VoteServer.BroadcastLocal | server/index.js:68-77 | the message is written exactly once to each OPEN socket of the poll and to no other socket; nothing is written for a poll with no entry; earlier writes are kept |
| Server.VoteServer.Publish | server/index.js:79-81 | one publication goes on the channel, and this process's subscriber fans it out to the poll's OPEN sockets |
| Server.VoteServer.ReadVotes | server/index.js:96-98 | the copy holds every field of the poll's hash except `__proto__`, with the same values; it is empty when the hash is absent |
| Server.VoteServer.UpdateVoteCount | server/index.js:94-100 | the option's count in the poll's hash rises by one and nothing else in any hash changes; the return value is the poll's whole snapshot after the increment, as copied into a plain object (without `__proto__`) |
| Server.VoteServer.CreatePoll | server/index.js:159-165 | a new poll is stored ACTIVE with its question, options and creation time |
| Server.VoteServer.ReadPoll | server/index.js:167-179 | a missing poll is "Not found"; otherwise the reply is the poll, its snapshot as copied into a plain object, and a total equal to that copy's sum |
| Server.VoteServer.Vote | server/index.js:181-188 | a vote on a missing or non-ACTIVE poll is refused with "Poll closed" and appends nothing; otherwise exactly one `{pollId, option}` entry is appended |
| Server.VoteServer.Release | server/index.js:190-201 | a failing status read or save leaves everything unchanged and sends no reply; otherwise a missing poll is "Not found" and nothing changes; an existing poll is saved CLOSED whatever its status was; a failure after the save publishes nothing and sends no reply; a complete release publishes one RESULTS_RELEASED with the poll's copied snapshot and writes it to the poll's OPEN sockets |
| Server.VoteServer.ReadGroup | server/index.js:111-115 | the read returns the first never-delivered entry and adds it to the pending list, or nothing when every entry has been delivered; a pending entry is never returned again |
| Server.VoteServer.Ack | server/index.js:131 | XACK moves an applied and published entry from pending to acknowledged |
| Server.VoteServer.ApplyEntry | server/index.js:119-120 | the entry's vote is applied to the hashes, and the returned snapshot is the poll's new one as copied into a plain object |
| Server.VoteServer.ApplyAndAnnounce | server/index.js:120-129 | after the increment, a VOTE_EVENT is published and written to the poll's OPEN sockets; it carries the entry's id, its payload, the poll's new snapshot as copied into a plain object, and that copy's total |
| Server.VoteServer.CompleteEntry | server/index.js:120-131 | a turn past the increment publishes the VOTE_EVENT and acknowledges the entry only when the XACK does not fail |
| Server.VoteServer.HandleEntry | server/index.js:117-132 | once an entry is read, a failure before the increment changes nothing; one before the publish leaves the increment unannounced; one before the ack leaves the entry pending; only a complete turn acknowledges it |
| Server.VoteServer.ConsumerStep | server/index.js:110-132 | one turn handles at most one entry, the first never delivered, in stream order, and acknowledges it only after the increment and the publish; an empty stream tail changes nothing; the invariant holds after every turn |
| Scenarios.FanOutSingle | server/index.js:71-75 | a fan-out to a single OPEN socket is exactly one write to it |
| Scenarios.OneViewer | server/index.js:141-148 | after one connection with a poll id and one without, the poll has exactly one OPEN viewer |
| Scenarios.EmptyReleaseRun | server/index.js:190-201 | releasing a poll nobody voted on sends `{}` to its one viewer, and releasing again keeps it CLOSED and sends `{}` again |
| Scenarios.ThreeVotes | server/index.js:181-188 | three accepted votes append three entries in the order cast |
| Scenarios.Turn | server/index.js:110-132 | a consumer turn with entries left takes the next one and acknowledges it only when nothing fails |
| Scenarios.Counted | server/index.js:110-132 | once the three votes are consumed, the poll's hash is `{Pizza: 1, Tacos: 2}` |
| Scenarios.Released | server/index.js:190-201 | releasing the counted poll leaves it CLOSED, with `{Pizza: 1, Tacos: 2}` as the copied snapshot |
| Scenarios.PizzaTacosVisible | server/index.js:97-98 | neither `Pizza` nor `Tacos` is lost in the copy into a plain object |
| Scenarios.PizzaTacosRun | server/index.js:167-188 | after the three votes and a release, the poll reads back CLOSED with `{Pizza: 1, Tacos: 2}` and a total of 3, and a further vote is refused |
| Scenarios.LostAckRun | server/index.js:110-132 | a turn whose XACK fails leaves its entry pending; the next turn takes the following entry and never that one again |
| Scenarios.PartialReleaseRun | server/index.js:194-199 | a release that fails after the save leaves the poll CLOSED, so a later vote is refused, but nothing is sent to its viewer and no reply is given |
| Scenarios.ProtoVoteUnseen | server/index.js:95-98 | one vote for `__proto__` is counted 1 in the hash, but the copied snapshot is `{}` with a total of 0 |

## Left out

- Server.VoteServer.Vote, Server.VoteServer.ReadPoll and Server.VoteServer.CreatePoll: a rejected Redis call in these handlers is not modelled. Each makes at most one write, as its last call, so such a failure would change no Redis state and send no reply. `Release` does model its failures.
- Server.VoteServer.Release (and the other handlers): the model assumes the process survives a handler whose Redis call rejected. The handlers are `async` functions under Express 4, which ignores the promise they return, and no `unhandledRejection` handler is installed; on Node 15 and later the process then exits, losing its `clients` registry, its sockets and its consumer loop, with any entry it had read left pending. `Failure(Unanswered)` records only the Redis state and the missing reply, and the model goes on using the same process afterwards.
- Server.VoteServer.constructor: the consumer group is created at the stream's end (`$`) when the consumer starts. Votes appended before that are never consumed. The model creates the store and the group together with an empty stream, so it does not show this startup window.
- JSON encoding and parsing of payloads, messages and poll metadata: messages are datatypes.
- Express routing, CORS, static file serving, the `/ws` upgrade path check and HTTP status plumbing: handler outcomes are a `Result` with `NotFound` (404) or `PollClosed` (403).
- Redis client connection setup, the swallowed `xGroupCreate` error and the 5-second restart after a consumer error: these are foreign I/O and timing. A failed turn is modelled as a `Fault` parameter, and the restart is simply the next `ConsumerStep`.
- The `BLOCK 2000` wait: a read that finds no new entry returns at once with nothing.
- `uuidv4` poll ids and `Date.now()` timestamps are parameters of `CreatePoll` and `ConsumerStep`.
- Cross-process concurrency and pub/sub delivery between processes: the bridge delivers each publication synchronously to this process only, with no claim about loss or interleaving.
- The WebSocket transport itself: `BeginClosing` stands for the peer's closing handshake, and only the `readyState` values and the close handler are modelled.
- Hash fields hold `nat` counts, so the `Number(...)` conversion is the identity. JavaScript's loss of integer precision above 2^53 is not modelled.
- client/src/App.jsx is not part of this model: the React UI, its percentage bars (floating-point division), clipboard and confetti calls, and its fetch and WebSocket plumbing.
