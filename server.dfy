/**
 * One server process of the vote pipeline, together with the Redis state
 * it shares: poll metadata, per-poll vote hashes, the vote stream with its
 * consumer group, and the `poll-updates` pub/sub channel.  The process's
 * own state is the connection registry `clients`.  Sockets are named by
 * connection ids; the WebSocket library's view of each (its `readyState`
 * and the close handler attached to it) is kept in maps, and everything
 * `ws.send` writes is appended to `outbox` as a (connection, message) pair.
 *
 * The pub/sub bridge is modelled as synchronous: a publication is appended
 * to `channel` and handed at once to this process's `BroadcastLocal`.
 */
module Server {
  import opened Results
  import opened Tally
  import opened Aggregate
  import opened Registry
  import opened Messages

  /** Every position in `idx` is below `n`. */
  ghost predicate Below(idx: seq<nat>, n: nat)
  {
    forall j :: 0 <= j < |idx| ==> idx[j] < n
  }

  /** The positions in `idx` are strictly increasing: each taken once, in stream order. */
  ghost predicate Increasing(idx: seq<nat>)
  {
    forall j, k :: 0 <= j < k < |idx| ==> idx[j] < idx[k]
  }

  /** Taking a position above all earlier ones keeps the order strict. */
  lemma IncreasingSnoc(idx: seq<nat>, i: nat)
    requires Increasing(idx) && Below(idx, i)
    ensures Increasing(idx + [i]) && i !in idx
  {
    var r := idx + [i];
    forall j, k | 0 <= j < k < |r|
      ensures r[j] < r[k]
    {
      if k < |idx| {
        assert r[j] == idx[j] && r[k] == idx[k];
      } else {
        assert r[j] == idx[j] && r[k] == i;
      }
    }
  }

  /** The stream entries at positions `idx`, in that order. */
  function Pick(stream: seq<VotePayload>, idx: seq<nat>): (es: seq<VotePayload>)
    requires Below(idx, |stream|)
    ensures |es| == |idx|
    ensures forall j :: 0 <= j < |idx| ==> es[j] == stream[idx[j]]
  {
    seq(|idx|, j requires 0 <= j < |idx| => stream[idx[j]])
  }

  lemma PickSnoc(stream: seq<VotePayload>, idx: seq<nat>, i: nat)
    requires Below(idx, |stream|)
    requires i < |stream|
    ensures Below(idx + [i], |stream|)
    ensures Pick(stream, idx + [i]) == Pick(stream, idx) + [stream[i]]
  {
    assert Pick(stream, idx + [i]) == Pick(stream, idx) + [stream[i]];
  }

  /**
   * Every stream position below `n` has been delivered to the group, and is
   * either still pending or acknowledged; nothing else is in either set.
   */
  ghost predicate DeliveredExactly(pending: set<nat>, acked: set<nat>, n: nat)
  {
    forall i: nat :: i in pending || i in acked <==> i < n
  }

  /** Some VOTE_EVENT for stream entry `i` has gone out on the channel. */
  ghost predicate Announced(channel: seq<Publication>, i: nat)
  {
    exists k :: 0 <= k < |channel| && channel[k].data.VoteEvent? && channel[k].data.metadata.id == i
  }

  lemma AnnouncedGrows(channel: seq<Publication>, extra: seq<Publication>, i: nat)
    requires Announced(channel, i)
    ensures Announced(channel + extra, i)
  {
    var k :| 0 <= k < |channel| && channel[k].data.VoteEvent? && channel[k].data.metadata.id == i;
    assert (channel + extra)[k] == channel[k];
  }


  type ConnId = nat

  /** One `ws.send(data)`: a message written to one connection. */
  datatype Delivery = Delivery(conn: ConnId, message: Message)

  /** The connections written to, in order. */
  function Recipients(sent: seq<Delivery>): (cs: seq<ConnId>)
    ensures |cs| == |sent|
    ensures forall k :: 0 <= k < |sent| ==> cs[k] == sent[k].conn
  {
    seq(|sent|, k requires 0 <= k < |sent| => sent[k].conn)
  }

  /** `sent` writes `m` exactly once to each connection of `targets`, and to no other. */
  ghost predicate FanOut(sent: seq<Delivery>, targets: set<ConnId>, m: Message)
  {
    && (forall k :: 0 <= k < |sent| ==> sent[k].message == m)
    && (forall j, k :: 0 <= j < k < |sent| ==> sent[j].conn != sent[k].conn)
    && (forall c :: c in Recipients(sent) <==> c in targets)
  }

  /**
   * No poll keeps an empty set, and a registered connection is known to
   * the transport and carries the close handler of the poll it is in.
   */
  ghost predicate RegistryInv(clients: map<PollId, set<ConnId>>, readyState: map<ConnId, ReadyState>, onClose: map<ConnId, PollId>)
  {
    && NoEmptySets(clients)
    && (forall p, c :: p in clients && c in clients[p] ==> c in readyState && c in onClose && onClose[c] == p)
    && onClose.Keys <= readyState.Keys
  }

  /**
   * The consumer group's bookkeeping: the delivered entries are exactly
   * the pending and the acknowledged ones; entries were applied in stream
   * order, each at most once; an acknowledged entry was applied and its
   * VOTE_EVENT published.
   */
  ghost predicate GroupInv(stream: seq<VotePayload>, lastDelivered: nat, pending: set<nat>, acked: set<nat>,
                           applied: seq<nat>, channel: seq<Publication>)
  {
    && lastDelivered <= |stream|
    && pending !! acked
    && DeliveredExactly(pending, acked, lastDelivered)
    && Below(applied, lastDelivered)
    && Increasing(applied)
    && (forall i :: i in acked ==> i in applied)
    && (forall i :: i in acked ==> Announced(channel, i))
  }

  /** Every hash holds exactly the votes of the applied entries. */
  ghost predicate TallyInv(votes: map<PollId, Snapshot>, stream: seq<VotePayload>, applied: seq<nat>)
  {
    && Below(applied, |stream|)
    && votes == TallyAll(Pick(stream, applied))
  }


  /**
   * Applying the next delivered entry `i`, later than every entry applied
   * so far, keeps the group's bookkeeping and makes the hashes those of
   * the applied entries plus this one.
   */
  lemma ApplyKeeps(stream: seq<VotePayload>, lastDelivered: nat, pending: set<nat>, acked: set<nat>,
                   applied: seq<nat>, channel: seq<Publication>, votes: map<PollId, Snapshot>, i: nat)
    requires GroupInv(stream, lastDelivered, pending, acked, applied, channel)
    requires TallyInv(votes, stream, applied)
    requires i < lastDelivered && Below(applied, i)
    ensures GroupInv(stream, lastDelivered, pending, acked, applied + [i], channel)
    ensures TallyInv(Apply(votes, stream[i]), stream, applied + [i])
  {
    PickSnoc(stream, applied, i);
    TallyAllSnoc(Pick(stream, applied), stream[i]);
    IncreasingSnoc(applied, i);
    assert Below(applied + [i], lastDelivered);
  }

  /** The part of the state one consumer turn writes, besides the group's lists. */
  datatype Effects = Effects(votes: map<PollId, Snapshot>, applied: seq<nat>, channel: seq<Publication>, outbox: seq<Delivery>)

  /**
   * What one turn does with the entry `i` (payload `v`) once it has been
   * read, given how far it got (`fault`): the increment, then the
   * VOTE_EVENT carrying the new snapshot and its total, written to the
   * poll's OPEN connections `targets`.
   */
  ghost predicate EntryEffect(before: Effects, after: Effects, i: nat, v: VotePayload, fault: Fault, now: int, targets: set<ConnId>)
  {
    && (fault == FailBeforeIncrement ==> after.votes == before.votes && after.applied == before.applied)
    && (fault != FailBeforeIncrement ==>
          after.votes == Apply(before.votes, v) && after.applied == before.applied + [i])
    && (fault == FailBeforeIncrement || fault == FailBeforePublish ==>
          after.channel == before.channel && after.outbox == before.outbox)
    && (fault == FailBeforeAck || fault == NoFailure ==>
          var event := VoteEvent(Metadata(i, now), v, Total(Visible(after.votes[v.pollId])), Visible(after.votes[v.pollId]));
          && after.channel == before.channel + [Publication(v.pollId, event)]
          && |after.outbox| >= |before.outbox| && after.outbox[..|before.outbox|] == before.outbox
          && FanOut(after.outbox[|before.outbox|..], targets, event))
  }

  /** What a failed consumer step got as far as before the error. */
  datatype Fault =
    | NoFailure
    | FailBeforeIncrement  // parsing the payload or HINCRBY failed
    | FailBeforePublish    // the increment happened; reading the hash or publishing failed
    | FailBeforeAck        // the update was published; XACK failed

  /** How far a release handler got before a Redis call rejected, if one did. */
  datatype ReleaseFault =
    | ReleaseCompletes
    | FailBeforeSave   // reading the poll or saving it CLOSED failed
    | FailAfterSave    // saved CLOSED; reading the hash or publishing failed

  datatype StepOutcome = Idle | Processed(id: nat) | Failed(id: nat)

  class VoteServer {
    /** pollId -> connections watching it (process-local). */
    var clients: map<PollId, set<ConnId>>
    /** Each known connection's `readyState`. */
    var readyState: map<ConnId, ReadyState>
    /** The poll whose close handler is attached to a connection. */
    var onClose: map<ConnId, PollId>
    /** Every `ws.send` so far, in order. */
    var outbox: seq<Delivery>
    /** `poll:<id>:meta` */
    var polls: map<PollId, Poll>
    /** `poll:<id>:votes` */
    var votes: map<PollId, Snapshot>
    /** The vote stream; an entry's id is its position. */
    var stream: seq<VotePayload>
    /** The consumer group's last-delivered position: entries below it were handed out. */
    var lastDelivered: nat
    /** The group's pending entries list: delivered, not acknowledged. */
    var pending: set<nat>
    /** Entries acknowledged with XACK. */
    var acked: set<nat>
    /** Everything published on `poll-updates`, in order. */
    var channel: seq<Publication>
    /** Positions of the entries whose increment took effect, in the order applied. */
    ghost var applied: seq<nat>

    ghost predicate Valid()
      reads this
    {
      && RegistryInv(clients, readyState, onClose)
      && GroupInv(stream, lastDelivered, pending, acked, applied, channel)
      && TallyInv(votes, stream, applied)
    }

    ghost function Current(): Effects
      reads this`votes, this`applied, this`channel, this`outbox
    {
      Effects(votes, applied, channel, outbox)
    }

    /**
     * What the invariant means for a reader of the hashes: each counter
     * is the number of applied entries for that option, an option is
     * present only once voted for, and a poll's total is the number of
     * applied entries for that poll.  The total a client is shown, taken
     * over the plain-object copy, misses the votes for `__proto__`.
     */
    lemma CountsMatchApplied(p: PollId, o: OptionName)
      requires Valid()
      ensures Count(SnapshotOf(votes, p), o) == Occurrences(Pick(stream, applied), VotePayload(p, o))
      ensures o in SnapshotOf(votes, p) <==> Occurrences(Pick(stream, applied), VotePayload(p, o)) > 0
      ensures Total(SnapshotOf(votes, p)) == VotesFor(Pick(stream, applied), p)
      ensures Total(Visible(SnapshotOf(votes, p))) + Occurrences(Pick(stream, applied), VotePayload(p, ProtoKey))
              == VotesFor(Pick(stream, applied), p)
    {
      TallyCount(Pick(stream, applied), p, o);
      TallyCount(Pick(stream, applied), p, ProtoKey);
      TallyKeys(Pick(stream, applied), p, o);
      TallyTotal(Pick(stream, applied), p);
      VisibleTotal(SnapshotOf(votes, p));
    }

    /** The connections of `p` whose `readyState` is OPEN. */
    ghost function OpenMembers(p: PollId): set<ConnId>
      reads this`clients, this`readyState
    {
      set c | c in Members(clients, p) && c in readyState && readyState[c] == Open
    }

    constructor ()
      ensures Valid()
      ensures clients == map[] && readyState == map[] && onClose == map[] && outbox == []
      ensures polls == map[] && votes == map[]
      ensures stream == [] && lastDelivered == 0 && pending == {} && acked == {} && channel == [] && applied == []
    {
      clients := map[];
      readyState := map[];
      onClose := map[];
      outbox := [];
      polls := map[];
      votes := map[];
      stream := [];
      lastDelivered := 0;
      pending := {};
      acked := {};
      channel := [];
      applied := [];
    }

    // ---------------------------------------------------------------- sockets

    /**
     * The `connection` handler for a newly upgraded socket `c`, which
     * arrives OPEN.  A socket whose URL carries no (or an empty) `pollId`
     * is terminated and never registered; otherwise it joins its poll's set
     * and gets a close handler for that poll.
     */
    method Connect(c: ConnId, pollId: Option<PollId>) returns (accepted: bool)
      requires Valid()
      requires c !in readyState
      modifies this`clients, this`readyState, this`onClose
      ensures Valid()
      ensures accepted <==> pollId.Some? && pollId.value != ""
      ensures accepted ==>
        && clients == Register(old(clients), pollId.value, c)
        && onClose == old(onClose)[c := pollId.value]
        && readyState == old(readyState)[c := Open]
      ensures !accepted ==>
        && clients == old(clients)
        && onClose == old(onClose)
        && readyState == old(readyState)[c := Closing]
    {
      if pollId.None? || pollId.value == "" {
        // ws.terminate(): the OPEN socket starts closing at once
        readyState := readyState[c := Closing];
        return false;
      }
      var p := pollId.value;
      readyState := readyState[c := Open];
      clients := Register(clients, p, c);
      onClose := onClose[c := p];
      return true;
    }

    /**
     * The peer starts the closing handshake: an OPEN socket becomes
     * CLOSING.  This is the WebSocket library's doing, not the server's; a
     * CLOSING socket stays registered until its `close` event.
     */
    method BeginClosing(c: ConnId)
      requires Valid()
      requires c in readyState
      modifies this`readyState
      ensures Valid()
      ensures readyState == old(readyState)[c := if old(readyState)[c] == Open then Closing else old(readyState)[c]]
    {
      if readyState[c] == Open {
        readyState := readyState[c := Closing];
      }
    }

    /**
     * The socket's `close` event: it is CLOSED, and its close handler, if
     * one was attached, removes it from its poll's set and drops the poll's
     * entry when the set empties.  No other poll's set changes.
     */
    method Close(c: ConnId)
      requires Valid()
      requires c in readyState
      modifies this`clients, this`readyState
      ensures Valid()
      ensures readyState == old(readyState)[c := ReadyState.Closed]
      ensures c !in onClose ==> clients == old(clients)
      ensures c in onClose ==> clients == Unregister(old(clients), onClose[c], c)
    {
      readyState := readyState[c := ReadyState.Closed];
      if c in onClose {
        clients := Unregister(clients, onClose[c], c);
      }
    }

    /**
     * `broadcastLocal(pollId, data)`: write `m` once to each of the poll's
     * connections that is OPEN, and to nobody else.
     */
    method BroadcastLocal(p: PollId, m: Message)
      modifies this`outbox
      ensures |outbox| >= |old(outbox)| && outbox[..|old(outbox)|] == old(outbox)
      ensures FanOut(outbox[|old(outbox)|..], OpenMembers(p), m)
      ensures p !in clients ==> outbox == old(outbox)
    {
      ghost var before := outbox;
      if p in clients {
        var pollClients := clients[p];
        var rest := pollClients;
        while rest != {}
          invariant rest <= pollClients
          invariant |outbox| >= |before| && outbox[..|before|] == before
          invariant FanOut(outbox[|before|..], OpenMembers(p) - rest, m)
          decreases rest
        {
          var c :| c in rest;
          ghost var sent := outbox[|before|..];
          if c in readyState && readyState[c] == Open {
            outbox := outbox + [Delivery(c, m)];
            assert outbox[|before|..] == sent + [Delivery(c, m)];
            assert Recipients(sent + [Delivery(c, m)]) == Recipients(sent) + [c];
          }
          rest := rest - {c};
        }
      }
    }

    /**
     * `publishUpdate`: one message on the channel, delivered to this
     * process's subscriber, which broadcasts it to the poll's connections.
     */
    method Publish(p: PollId, m: Message)
      modifies this`channel, this`outbox
      ensures channel == old(channel) + [Publication(p, m)]
      ensures |outbox| >= |old(outbox)| && outbox[..|old(outbox)|] == old(outbox)
      ensures FanOut(outbox[|old(outbox)|..], OpenMembers(p), m)
    {
      channel := channel + [Publication(p, m)];
      BroadcastLocal(p, m);
    }

    // ---------------------------------------------------------------- tallies

    /**
     * `hGetAll` of the poll's hash followed by the `Number(...)` copy into
     * a fresh object `{}`: every field but `__proto__`, whose assignment
     * is swallowed by the prototype setter; empty when the hash is absent.
     */
    method ReadVotes(p: PollId) returns (numeric: Snapshot)
      ensures numeric.Keys == SnapshotOf(votes, p).Keys - {ProtoKey}
      ensures forall k :: k in numeric ==> numeric[k] == Count(SnapshotOf(votes, p), k)
      ensures numeric == Visible(SnapshotOf(votes, p))
    {
      var raw := if p in votes then votes[p] else map[];
      numeric := map[];
      var rest := raw.Keys;
      while rest != {}
        invariant rest <= raw.Keys
        invariant numeric.Keys == raw.Keys - rest - {ProtoKey}
        invariant forall k :: k in numeric ==> numeric[k] == raw[k]
        decreases rest
      {
        var k :| k in rest;
        if k != ProtoKey {
          numeric := numeric[k := raw[k]];
        }
        rest := rest - {k};
      }
    }

    /**
     * `updateVoteCount(pollId, option)`: HINCRBY the option's field by one
     * and return the poll's whole snapshot after the increment.  The option
     * is not checked against the poll's options.
     */
    method UpdateVoteCount(p: PollId, o: OptionName) returns (updated: Snapshot)
      modifies this`votes
      ensures votes == Apply(old(votes), VotePayload(p, o))
      ensures updated == Visible(votes[p])
    {
      votes := votes[p := Increment(SnapshotOf(votes, p), o)];
      updated := ReadVotes(p);
    }

    // ---------------------------------------------------------------- handlers

    /** `POST /api/polls`: store a new ACTIVE poll under a generated id. */
    method CreatePoll(id: PollId, question: string, options: seq<OptionName>, now: int)
      requires Valid()
      modifies this`polls
      ensures Valid()
      ensures polls == old(polls)[id := Poll(question, options, Active, now)]
    {
      polls := polls[id := Poll(question, options, Active, now)];
    }

    /** `GET /api/polls/:pollId`: the metadata, the snapshot and its total. */
    method ReadPoll(p: PollId) returns (r: Result<PollView, ApiError>)
      ensures r.Failure? <==> p !in polls
      ensures r.Failure? ==> r.error == NotFound
      ensures r.Success? ==>
        r.value == PollView(polls[p], Visible(SnapshotOf(votes, p)), Total(Visible(SnapshotOf(votes, p))))
    {
      if p !in polls {
        return Failure(NotFound);
      }
      var poll := polls[p];
      var pollVotes := ReadVotes(p);
      var total := SumVotes(pollVotes);
      return Success(PollView(poll, pollVotes, total));
    }

    /**
     * `POST /api/polls/:pollId/vote`: on an ACTIVE poll, append one
     * `{pollId, option}` entry to the stream; a missing or closed poll is
     * refused with "Poll closed" and nothing is appended.
     */
    method Vote(p: PollId, option: OptionName) returns (r: Result<(), ApiError>)
      requires Valid()
      modifies this`stream
      ensures Valid()
      ensures r.Success? <==> p in polls && polls[p].status == Active
      ensures r.Failure? ==> r.error == PollClosed && stream == old(stream)
      ensures r.Success? ==> stream == old(stream) + [VotePayload(p, option)]
    {
      if p !in polls || polls[p].status != Active {
        return Failure(PollClosed);
      }
      ghost var before := stream;
      stream := stream + [VotePayload(p, option)];
      assert Pick(stream, applied) == Pick(before, applied);
      return Success(());
    }

    /**
     * `POST /api/polls/:pollId/release`: mark the poll CLOSED, whatever its
     * status was, save it, then read its snapshot and publish
     * RESULTS_RELEASED.  The handler's Redis calls can reject (`fault`):
     * the status read or the save failing leaves everything as it was,
     * while the read of the hash or the publish failing leaves the poll
     * saved CLOSED with nothing published.  Either way no reply is sent;
     * only the Redis state and the sockets' writes are described, not what
     * the unhandled rejection does to the process afterwards.
     */
    method Release(p: PollId, fault: ReleaseFault) returns (r: Result<(), ApiError>)
      requires Valid()
      modifies this`polls, this`channel, this`outbox
      ensures Valid()
      ensures fault == FailBeforeSave ==>
        r == Failure(Unanswered) && polls == old(polls) && channel == old(channel) && outbox == old(outbox)
      ensures fault != FailBeforeSave && p !in old(polls) ==>
        r == Failure(NotFound) && polls == old(polls) && channel == old(channel) && outbox == old(outbox)
      ensures fault != FailBeforeSave && p in old(polls) ==>
        polls == old(polls)[p := old(polls)[p].(status := PollStatus.Closed)]
      ensures fault == FailAfterSave && p in old(polls) ==>
        r == Failure(Unanswered) && channel == old(channel) && outbox == old(outbox)
      ensures fault == ReleaseCompletes && p in old(polls) ==>
        && r == Success(())
        && channel == old(channel) + [Publication(p, ResultsReleased(Visible(SnapshotOf(votes, p))))]
        && |outbox| >= |old(outbox)| && outbox[..|old(outbox)|] == old(outbox)
        && FanOut(outbox[|old(outbox)|..], OpenMembers(p), ResultsReleased(Visible(SnapshotOf(votes, p))))
    {
      if fault == FailBeforeSave {
        return Failure(Unanswered);
      }
      if p !in polls {
        return Failure(NotFound);
      }
      var poll := polls[p];
      poll := poll.(status := PollStatus.Closed);
      polls := polls[p := poll];
      if fault == FailAfterSave {
        return Failure(Unanswered);
      }
      var snapshot := ReadVotes(p);
      ghost var before := channel;
      Publish(p, ResultsReleased(snapshot));
      forall i | i in acked
        ensures Announced(channel, i)
      {
        AnnouncedGrows(before, [Publication(p, ResultsReleased(snapshot))], i);
      }
      return Success(());
    }

    // ---------------------------------------------------------------- consumer

    /**
     * XREADGROUP with id `>` and COUNT 1: the next entry never delivered to
     * the group, now added to its pending list, or nothing when every entry
     * has been delivered (the BLOCK timeout's empty response).  Pending
     * entries are never handed out again.
     */
    method ReadGroup() returns (next: Option<nat>)
      requires Valid()
      modifies this`lastDelivered, this`pending
      ensures Valid()
      ensures old(lastDelivered) == |stream| ==>
        next == None && lastDelivered == old(lastDelivered) && pending == old(pending)
      ensures old(lastDelivered) < |stream| ==>
        && next == Some(old(lastDelivered))
        && lastDelivered == old(lastDelivered) + 1
        && pending == old(pending) + {old(lastDelivered)}
      ensures next.Some? ==> next.value !in old(pending) && next.value !in old(acked)
    {
      if lastDelivered == |stream| {
        return None;
      }
      next := Some(lastDelivered);
      pending := pending + {lastDelivered};
      lastDelivered := lastDelivered + 1;
    }

    /** XACK: move a pending entry to the acknowledged ones. */
    method Ack(i: nat)
      requires Valid()
      requires i in pending && i in applied && Announced(channel, i)
      modifies this`pending, this`acked
      ensures Valid()
      ensures pending == old(pending) - {i} && acked == old(acked) + {i}
    {
      pending := pending - {i};
      acked := acked + {i};
    }

    /**
     * The entry's payload goes through `updateVoteCount`; the ghost record
     * of applied entries grows by this one.
     */
    method ApplyEntry(i: nat) returns (updated: Snapshot)
      requires Valid()
      requires i < lastDelivered && Below(applied, i)
      modifies this`votes, this`applied
      ensures Valid()
      ensures votes == Apply(old(votes), stream[i]) && applied == old(applied) + [i]
      ensures updated == Visible(votes[stream[i].pollId])
    {
      ApplyKeeps(stream, lastDelivered, pending, acked, applied, channel, votes, i);
      updated := UpdateVoteCount(stream[i].pollId, stream[i].option);
      applied := applied + [i];
    }

    /**
     * Apply entry `i`, then read the poll's new snapshot back, total it and
     * publish it as the entry's VOTE_EVENT; returns the event sent.
     */
    method ApplyAndAnnounce(i: nat, now: int) returns (event: Message)
      requires Valid()
      requires i < lastDelivered && Below(applied, i)
      modifies this`votes, this`applied, this`channel, this`outbox
      ensures Valid()
      ensures votes == Apply(old(votes), stream[i]) && applied == old(applied) + [i]
      ensures event == VoteEvent(Metadata(i, now), stream[i], Total(Visible(votes[stream[i].pollId])), Visible(votes[stream[i].pollId]))
      ensures channel == old(channel) + [Publication(stream[i].pollId, event)]
      ensures |outbox| >= |old(outbox)| && outbox[..|old(outbox)|] == old(outbox)
      ensures FanOut(outbox[|old(outbox)|..], OpenMembers(stream[i].pollId), event)
      ensures Announced(channel, i)
    {
      var updated := ApplyEntry(i);
      var total := SumVotes(updated);
      event := VoteEvent(Metadata(i, now), stream[i], total, updated);
      ghost var published := channel;
      Publish(stream[i].pollId, event);
      forall j | j in acked
        ensures Announced(channel, j)
      {
        AnnouncedGrows(published, [Publication(stream[i].pollId, event)], j);
      }
      assert channel[|published|].data.metadata.id == i;
    }

    /**
     * The rest of a turn that got past the increment: publish, and
     * acknowledge unless the XACK failed (`fault == FailBeforeAck`).
     */
    method CompleteEntry(i: nat, fault: Fault, now: int)
      requires Valid()
      requires i < lastDelivered && i in pending && Below(applied, i)
      requires fault == FailBeforeAck || fault == NoFailure
      modifies this`votes, this`pending, this`acked, this`channel, this`outbox, this`applied
      ensures Valid()
      ensures EntryEffect(old(Current()), Current(), i, stream[i], fault, now, OpenMembers(stream[i].pollId))
      ensures fault == NoFailure ==> pending == old(pending) - {i} && acked == old(acked) + {i}
      ensures fault != NoFailure ==> pending == old(pending) && acked == old(acked)
    {
      ghost var targets := OpenMembers(stream[i].pollId);
      var _ := ApplyAndAnnounce(i, now);
      assert OpenMembers(stream[i].pollId) == targets;
      if fault == NoFailure {
        ghost var announced := Current();
        Ack(i);
        assert Current() == announced;
      }
    }

    /**
     * The rest of a turn once entry `i` has been read: apply it, publish
     * its VOTE_EVENT, acknowledge it, stopping where `fault` says the turn
     * failed.  Only a turn that got through the publish acknowledges.
     */
    method HandleEntry(i: nat, fault: Fault, now: int) returns (outcome: StepOutcome)
      requires Valid()
      requires i < lastDelivered && i in pending && Below(applied, i)
      modifies this`votes, this`pending, this`acked, this`channel, this`outbox, this`applied
      ensures Valid()
      ensures EntryEffect(old(Current()), Current(), i, stream[i], fault, now, OpenMembers(stream[i].pollId))
      ensures outcome == (if fault == NoFailure then Processed(i) else Failed(i))
      ensures fault == NoFailure ==> pending == old(pending) - {i} && acked == old(acked) + {i}
      ensures fault != NoFailure ==> pending == old(pending) && acked == old(acked)
    {
      match fault {
        case FailBeforeIncrement =>
          outcome := Failed(i);
        case FailBeforePublish =>
          var _ := ApplyEntry(i);
          outcome := Failed(i);
        case FailBeforeAck =>
          CompleteEntry(i, fault, now);
          outcome := Failed(i);
        case NoFailure =>
          CompleteEntry(i, fault, now);
          outcome := Processed(i);
      }
    }

    /**
     * One turn of the stream consumer's loop: read one never-delivered
     * entry, apply its vote, publish a VOTE_EVENT with the new snapshot and
     * its total, and only then acknowledge the entry.  A failure part way
     * (`fault`) ends the turn there and leaves the entry pending; the loop
     * is restarted and never reads that entry again.
     */
    method ConsumerStep(fault: Fault, now: int) returns (outcome: StepOutcome)
      requires Valid()
      modifies this`votes, this`lastDelivered, this`pending, this`acked, this`channel, this`outbox, this`applied
      ensures Valid()
      ensures old(lastDelivered) == |stream| ==>
        && outcome == Idle
        && lastDelivered == old(lastDelivered) && pending == old(pending) && acked == old(acked)
        && old(Current()) == Current()
      ensures old(lastDelivered) < |stream| ==>
        && lastDelivered == old(lastDelivered) + 1
        && EntryEffect(old(Current()), Current(), old(lastDelivered), stream[old(lastDelivered)], fault, now,
                       OpenMembers(stream[old(lastDelivered)].pollId))
        && outcome == (if fault == NoFailure then Processed(old(lastDelivered)) else Failed(old(lastDelivered)))
        && (if fault == NoFailure
            then pending == old(pending) && acked == old(acked) + {old(lastDelivered)}
            else pending == old(pending) + {old(lastDelivered)} && acked == old(acked))
    {
      ghost var before := Current();
      var next := ReadGroup();
      assert Current() == before;
      if next.None? {
        return Idle;
      }
      outcome := HandleEntry(next.value, fault, now);
    }
  }
}
