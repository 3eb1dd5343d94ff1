/**
 * Whole runs of one server process, from an empty Redis, stated as the
 * results a client would see.
 */
module Scenarios {
  import opened Results
  import opened Tally
  import opened Aggregate
  import opened Messages
  import opened Registry
  import opened Server

  /** A fan-out to a single connection is exactly one write to it. */
  lemma FanOutSingle(sent: seq<Delivery>, c: ConnId, m: Message)
    requires FanOut(sent, {c}, m)
    ensures sent == [Delivery(c, m)]
  {
    var r := Recipients(sent);
    assert c in r;
    forall k | 0 <= k < |sent|
      ensures sent[k].conn == c
    {
      assert r[k] in r;
    }
    assert sent[0].conn == c && sent[|sent| - 1].conn == c;
    assert sent[0] == Delivery(c, m);
  }

  /** A fresh server with one poll `p`, nobody's votes yet, and one viewer of `p`. */
  method OnePoll(now: int) returns (server: VoteServer)
    ensures fresh(server) && server.Valid()
    ensures server.polls == map["p" := Poll("Lunch?", ["Pizza", "Tacos"], Active, now)]
    ensures server.votes == map[] && server.outbox == []
    ensures server.clients == map["p" := {1}] && server.readyState == map[1 := Open]
  {
    server := new VoteServer();
    server.CreatePoll("p", "Lunch?", ["Pizza", "Tacos"], now);
    var empty: map<PollId, set<ConnId>> := map[];
    assert Members(empty, "p") + {1} == {1};
    var _ := server.Connect(1, Some("p"));
  }

  /**
   * The same, plus a socket that came without a poll id (connection 2,
   * terminated): `p` still has exactly one OPEN viewer.
   */
  method OneViewer(now: int) returns (server: VoteServer)
    ensures fresh(server) && server.Valid()
    ensures server.polls == map["p" := Poll("Lunch?", ["Pizza", "Tacos"], Active, now)]
    ensures server.votes == map[] && server.outbox == []
    ensures server.OpenMembers("p") == {1}
  {
    server := OnePoll(now);
    var _ := server.Connect(2, None);
    assert server.readyState == map[1 := Open, 2 := Closing];
  }

  /**
   * Releasing a poll nobody voted on sends `{}` to its one OPEN viewer
   * only, not to a socket that came without a poll id.  Releasing again
   * keeps the poll CLOSED and sends the results again.
   */
  method EmptyReleaseRun(now: int) returns (sent: seq<Delivery>, status: PollStatus)
    ensures sent == [Delivery(1, ResultsReleased(map[])), Delivery(1, ResultsReleased(map[]))]
    ensures status == PollStatus.Closed
  {
    var server := OneViewer(now);
    var _ := server.Release("p", ReleaseCompletes);
    assert server.outbox[0..] == server.outbox;
    FanOutSingle(server.outbox, 1, ResultsReleased(map[]));
    var first := server.outbox;
    var _ := server.Release("p", ReleaseCompletes);
    FanOutSingle(server.outbox[|first|..], 1, ResultsReleased(map[]));
    sent := server.outbox;
    status := server.polls["p"].status;
  }

  /** The votes Tacos, Pizza, Tacos on poll `p`, none consumed yet. */
  method ThreeVotes(now: int) returns (server: VoteServer)
    ensures fresh(server) && server.Valid()
    ensures server.polls == map["p" := Poll("Lunch?", ["Pizza", "Tacos"], Active, now)]
    ensures server.stream == [VotePayload("p", "Tacos"), VotePayload("p", "Pizza"), VotePayload("p", "Tacos")]
    ensures server.lastDelivered == 0 && server.applied == [] && server.pending == {} && server.acked == {}
  {
    server := new VoteServer();
    server.CreatePoll("p", "Lunch?", ["Pizza", "Tacos"], now);
    var _ := server.Vote("p", "Tacos");
    var _ := server.Vote("p", "Pizza");
    var _ := server.Vote("p", "Tacos");
  }

  /**
   * A consumer turn on a stream with undelivered entries takes the next
   * one; only a turn without failure acknowledges it.
   */
  method Turn(server: VoteServer, fault: Fault, now: int) returns (outcome: StepOutcome)
    requires server.Valid() && server.lastDelivered < |server.stream|
    modifies server
    ensures server.Valid() && server.stream == old(server.stream) && server.polls == old(server.polls)
    ensures server.lastDelivered == old(server.lastDelivered) + 1
    ensures fault != FailBeforeIncrement ==> server.applied == old(server.applied) + [old(server.lastDelivered)]
    ensures outcome == (if fault == NoFailure then Processed(old(server.lastDelivered)) else Failed(old(server.lastDelivered)))
    ensures fault == NoFailure ==> server.pending == old(server.pending) && server.acked == old(server.acked) + {old(server.lastDelivered)}
    ensures fault != NoFailure ==> server.pending == old(server.pending) + {old(server.lastDelivered)} && server.acked == old(server.acked)
  {
    outcome := server.ConsumerStep(fault, now);
  }

  /** A consumer turn that succeeds applies the next undelivered entry. */
  method ConsumeNext(server: VoteServer, now: int)
    requires server.Valid() && server.lastDelivered < |server.stream|
    modifies server
    ensures server.Valid() && server.stream == old(server.stream) && server.polls == old(server.polls)
    ensures server.lastDelivered == old(server.lastDelivered) + 1
    ensures server.applied == old(server.applied) + [old(server.lastDelivered)]
  {
    var _ := Turn(server, NoFailure, now);
  }

  /** Three consumer turns that all succeed apply the first three entries in order. */
  method ConsumeThree(server: VoteServer, now: int)
    requires server.Valid() && |server.stream| == 3 && server.lastDelivered == 0 && server.applied == []
    modifies server
    ensures server.Valid() && server.stream == old(server.stream) && server.polls == old(server.polls)
    ensures server.applied == [0, 1, 2]
  {
    ConsumeNext(server, now);
    ConsumeNext(server, now);
    ConsumeNext(server, now);
  }

  /** The three votes, each consumed in turn, counted in the poll's hash. */
  method Counted(now: int) returns (server: VoteServer)
    ensures fresh(server) && server.Valid()
    ensures server.polls == map["p" := Poll("Lunch?", ["Pizza", "Tacos"], Active, now)]
    ensures SnapshotOf(server.votes, "p") == map["Pizza" := 1, "Tacos" := 2]
  {
    server := ThreeVotes(now);
    ConsumeThree(server, now);
    assert Pick(server.stream, server.applied) == server.stream;
    PizzaTacos("p");
  }

  /** Neither option name is the one a plain object drops. */
  lemma PizzaTacosVisible()
    ensures Visible(map["Pizza" := 1, "Tacos" := 2]) == map["Pizza" := 1, "Tacos" := 2]
  {
    assert "Pizza" != ProtoKey && "Tacos" != ProtoKey;
  }

  /** The counted poll, then released. */
  method Released(now: int) returns (server: VoteServer)
    ensures fresh(server) && server.Valid()
    ensures server.polls == map["p" := Poll("Lunch?", ["Pizza", "Tacos"], PollStatus.Closed, now)]
    ensures Visible(SnapshotOf(server.votes, "p")) == map["Pizza" := 1, "Tacos" := 2]
  {
    server := Counted(now);
    PizzaTacosVisible();
    ghost var counted := server.votes;
    var _ := server.Release("p", ReleaseCompletes);
    assert server.votes == counted;
  }

  /**
   * Votes Tacos, Pizza, Tacos, each consumed in turn, then a release: the
   * poll reads back CLOSED with `{Pizza: 1, Tacos: 2}` and a total of 3,
   * and a further vote is refused.
   */
  method PizzaTacosRun(now: int) returns (view: Result<PollView, ApiError>, late: Result<(), ApiError>)
    ensures view == Success(PollView(Poll("Lunch?", ["Pizza", "Tacos"], PollStatus.Closed, now),
                                     map["Pizza" := 1, "Tacos" := 2], 3))
    ensures late == Failure(PollClosed)
  {
    var server := Released(now);
    PizzaTacos("p");
    view := server.ReadPoll("p");
    late := server.Vote("p", "Pizza");
  }

  /**
   * A turn whose XACK fails leaves entry 0 pending; the next turn reads
   * entry 1, not entry 0 again, and entry 0 stays pending for good.
   */
  method LostAckRun(now: int) returns (first: StepOutcome, second: StepOutcome, pending: set<nat>, acked: set<nat>)
    ensures first == Failed(0) && second == Processed(1)
    ensures pending == {0} && acked == {1}
  {
    var server := ThreeVotes(now);
    first := Turn(server, FailBeforeAck, now);
    second := Turn(server, NoFailure, now);
    pending := server.pending;
    acked := server.acked;
  }

  /**
   * A release whose hash read or publish fails after the save: the poll
   * is CLOSED, so votes are refused, yet its viewer never hears of it.
   */
  method PartialReleaseRun(now: int) returns (r: Result<(), ApiError>, sent: seq<Delivery>, late: Result<(), ApiError>)
    ensures r == Failure(Unanswered) && sent == [] && late == Failure(PollClosed)
  {
    var server := OneViewer(now);
    r := server.Release("p", FailAfterSave);
    sent := server.outbox;
    late := server.Vote("p", "Pizza");
  }

  /**
   * A vote for an option named `__proto__` is counted in the hash, yet
   * every snapshot a client receives leaves it out, with a total of 0.
   */
  lemma ProtoVoteUnseen(p: PollId)
    ensures SnapshotOf(TallyAll([VotePayload(p, ProtoKey)]), p) == map[ProtoKey := 1]
    ensures Visible(SnapshotOf(TallyAll([VotePayload(p, ProtoKey)]), p)) == map[]
    ensures Total(map[ProtoKey := 1]) == 1 && Total(map[]) == 0
  {
    TallyAllSnoc([], VotePayload(p, ProtoKey));
    assert [] + [VotePayload(p, ProtoKey)] == [VotePayload(p, ProtoKey)];
    TotalRemove(map[ProtoKey := 1], ProtoKey);
    assert map[ProtoKey := 1] - {ProtoKey} == map[];
  }
}
