/**
 * One poll's vote counts, as kept in the Redis hash `poll:<id>:votes`:
 * a field per option that has been voted for at least once.  An option
 * nobody voted for has no field at all, so it reads as 0 but is absent
 * from the snapshot.
 */
module Tally {

  type OptionName = string

  /** The numeric view of one poll's hash: option -> number of votes. */
  type Snapshot = map<OptionName, nat>

  /** The count of `o`, reading an absent field as 0 (HINCRBY's view). */
  function Count(s: Snapshot, o: OptionName): nat
  {
    if o in s then s[o] else 0
  }

  /** HINCRBY field 1: raise `o` by one, creating the field at 1. */
  function Increment(s: Snapshot, o: OptionName): (r: Snapshot)
    ensures r.Keys == s.Keys + {o}
    ensures r[o] == Count(s, o) + 1
    ensures forall k :: k in s && k != o ==> r[k] == s[k]
  {
    s[o := Count(s, o) + 1]
  }

  ghost function PickKey(s: Snapshot): (k: OptionName)
    requires s.Keys != {}
    ensures k in s
  {
    var k :| k in s; k
  }

  /** The total number of votes in a snapshot: the sum of its counts. */
  ghost function Total(s: Snapshot): nat
    decreases s.Keys
  {
    if s.Keys == {} then 0
    else
      var k := PickKey(s);
      s[k] + Total(s - {k})
  }

  /** The sum does not depend on which key is taken out first. */
  lemma {:induction false} TotalRemove(s: Snapshot, k: OptionName)
    requires k in s
    ensures Total(s) == s[k] + Total(s - {k})
    decreases s.Keys
  {
    var j := PickKey(s);
    if j != k {
      TotalRemove(s - {j}, k);
      TotalRemove(s - {k}, j);
      assert s - {j} - {k} == s - {k} - {j};
    }
  }

  /**
   * The one field name a plain JavaScript object `{}` cannot take by
   * assignment: `obj["__proto__"] = n` calls the prototype setter, which
   * ignores a number, so no own field is created.
   */
  const ProtoKey: OptionName := "__proto__"

  /**
   * A snapshot as it ends up after being copied field by field into a
   * plain object `{}`: every field but `__proto__`, with its value.
   */
  function Visible(s: Snapshot): Snapshot
  {
    s - {ProtoKey}
  }

  /**
   * The total of the copied snapshot falls short of the hash's total by
   * exactly the count of the `__proto__` field.
   */
  lemma VisibleTotal(s: Snapshot)
    ensures Total(Visible(s)) + Count(s, ProtoKey) == Total(s)
  {
    if ProtoKey in s {
      TotalRemove(s, ProtoKey);
    } else {
      assert Visible(s) == s;
    }
  }

  /** One increment adds exactly one vote to the total. */
  lemma TotalIncrement(s: Snapshot, o: OptionName)
    ensures Total(Increment(s, o)) == Total(s) + 1
  {
    var r := Increment(s, o);
    TotalRemove(r, o);
    assert r - {o} == s - {o};
    if o in s {
      TotalRemove(s, o);
    } else {
      assert s - {o} == s;
    }
  }

  /**
   * `Object.values(votes).reduce((a, b) => a + b, 0)`: the total of a
   * snapshot, accumulated one option at a time.
   */
  method SumVotes(votes: Snapshot) returns (total: nat)
    ensures total == Total(votes)
  {
    total := 0;
    var rest := votes;
    while rest.Keys != {}
      invariant total + Total(rest) == Total(votes)
      decreases rest.Keys
    {
      var k :| k in rest;
      TotalRemove(rest, k);
      total := total + rest[k];
      rest := rest - {k};
    }
  }
}
