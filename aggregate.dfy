/**
 * What the stream consumer makes of the vote entries it has applied:
 * every poll's hash after a sequence of `updateVoteCount` calls, and how
 * those hashes relate to the entries themselves.
 */
module Aggregate {
  import opened Tally

  type PollId = string

  /** The payload of one stream entry, `{pollId, option}`. */
  datatype VotePayload = VotePayload(pollId: PollId, option: OptionName)

  /** `hGetAll` of a poll's hash: the empty snapshot when the hash is absent. */
  function SnapshotOf(tallies: map<PollId, Snapshot>, p: PollId): Snapshot
  {
    if p in tallies then tallies[p] else map[]
  }

  /** The effect of one `updateVoteCount(v.pollId, v.option)` on all hashes. */
  function Apply(tallies: map<PollId, Snapshot>, v: VotePayload): (r: map<PollId, Snapshot>)
    ensures r.Keys == tallies.Keys + {v.pollId}
    ensures r[v.pollId] == Increment(SnapshotOf(tallies, v.pollId), v.option)
    ensures forall q :: q in tallies && q != v.pollId ==> r[q] == tallies[q]
  {
    tallies[v.pollId := Increment(SnapshotOf(tallies, v.pollId), v.option)]
  }

  /** The hashes after applying `es` in order, starting from no hashes at all. */
  function TallyAll(es: seq<VotePayload>): map<PollId, Snapshot>
  {
    if es == [] then map[] else Apply(TallyAll(es[..|es| - 1]), es[|es| - 1])
  }

  /** How many of `es` are exactly the vote `v`. */
  function Occurrences(es: seq<VotePayload>, v: VotePayload): nat
  {
    if es == [] then 0
    else Occurrences(es[..|es| - 1], v) + (if es[|es| - 1] == v then 1 else 0)
  }

  /** How many of `es` are votes on poll `p`, whatever the option. */
  function VotesFor(es: seq<VotePayload>, p: PollId): nat
  {
    if es == [] then 0
    else VotesFor(es[..|es| - 1], p) + (if es[|es| - 1].pollId == p then 1 else 0)
  }

  lemma TallyAllSnoc(es: seq<VotePayload>, v: VotePayload)
    ensures TallyAll(es + [v]) == Apply(TallyAll(es), v)
  {
    assert (es + [v])[..|es|] == es;
  }

  /** Every counter equals the number of applied votes for that option. */
  lemma {:induction false} TallyCount(es: seq<VotePayload>, p: PollId, o: OptionName)
    ensures Count(SnapshotOf(TallyAll(es), p), o) == Occurrences(es, VotePayload(p, o))
  {
    if es != [] {
      var init, v := es[..|es| - 1], es[|es| - 1];
      TallyCount(init, p, o);
      assert es == init + [v];
      TallyAllSnoc(init, v);
    }
  }

  /**
   * An option appears in a poll's snapshot exactly when it received at
   * least one vote: options nobody voted for are absent, not zero.
   */
  lemma {:induction false} TallyKeys(es: seq<VotePayload>, p: PollId, o: OptionName)
    ensures o in SnapshotOf(TallyAll(es), p) <==> Occurrences(es, VotePayload(p, o)) > 0
  {
    if es != [] {
      var init, v := es[..|es| - 1], es[|es| - 1];
      TallyKeys(init, p, o);
      TallyCount(init, p, o);
      assert es == init + [v];
      TallyAllSnoc(init, v);
    }
  }

  /** A poll's hash exists exactly when some vote on it was applied. */
  lemma {:induction false} TallyPolls(es: seq<VotePayload>, p: PollId)
    ensures p in TallyAll(es) <==> VotesFor(es, p) > 0
  {
    if es != [] {
      var init, v := es[..|es| - 1], es[|es| - 1];
      TallyPolls(init, p);
      assert es == init + [v];
      TallyAllSnoc(init, v);
    }
  }

  /** A poll's total equals the number of applied votes on that poll. */
  lemma {:induction false} TallyTotal(es: seq<VotePayload>, p: PollId)
    ensures Total(SnapshotOf(TallyAll(es), p)) == VotesFor(es, p)
  {
    if es != [] {
      var init, v := es[..|es| - 1], es[|es| - 1];
      TallyTotal(init, p);
      assert es == init + [v];
      TallyAllSnoc(init, v);
      if v.pollId == p {
        TotalIncrement(SnapshotOf(TallyAll(init), p), v.option);
      }
    }
  }

  /**
   * Votes `Tacos, Pizza, Tacos` on one poll leave `{Pizza: 1, Tacos: 2}`
   * with a total of 3.
   */
  lemma PizzaTacos(p: PollId)
    ensures SnapshotOf(TallyAll([VotePayload(p, "Tacos"), VotePayload(p, "Pizza"), VotePayload(p, "Tacos")]), p)
            == map["Pizza" := 1, "Tacos" := 2]
    ensures Total(map["Pizza" := 1, "Tacos" := 2]) == 3
  {
    var es := [VotePayload(p, "Tacos"), VotePayload(p, "Pizza"), VotePayload(p, "Tacos")];
    TallyAllSnoc([], es[0]);
    TallyAllSnoc(es[..1], es[1]);
    TallyAllSnoc(es[..2], es[2]);
    assert es[..1] + [es[1]] == es[..2];
    assert es[..2] + [es[2]] == es;
    TallyTotal(es, p);
    assert es[..1][..0] == [];
    assert es[..2][..1] == es[..1];
    assert VotesFor(es[..1], p) == 1;
    assert VotesFor(es[..2], p) == 2;
  }
}
