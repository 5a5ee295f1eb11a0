/**
  Entries of the replicated log and the facts about entry sequences that both
  the protocol argument and the compacted log need.
 */
module RaftTypes {
  import opened Wrappers

  /** Node identifiers, for instance "node-0". */
  type Id = string

  /** Kinds of store command; Other stands for any operation name the store does not know. */
  datatype Op = Set | Delete | Incr | Other

  datatype Command = Command(op: Op, key: string, value: string)

  /** Member id to advertised address. */
  type Members = map<Id, string>

  /** What an entry carries: the leader's empty no-op, a store command, or a whole configuration. */
  datatype Payload = Noop | Normal(command: Command) | Config(members: Members)

  datatype Entry = Entry(term: nat, index: nat, payload: Payload)

  datatype Role = Follower | Candidate | Leader

  /** Term of the last entry, 0 for the empty log. */
  function LastTermOf(es: seq<Entry>): nat {
    if |es| == 0 then 0 else es[|es| - 1].term
  }

  /** The vote rule of section 5.4.1 of the extended Raft paper: is `mine` at least as up to date as `theirs`? */
  predicate UpToDate(mineTerm: nat, mineIndex: nat, theirTerm: nat, theirIndex: nat) {
    mineTerm > theirTerm || (mineTerm == theirTerm && mineIndex >= theirIndex)
  }

  /** `a` and `b` both have `n` entries and agree on them. */
  predicate Agree(a: seq<Entry>, b: seq<Entry>, n: nat) {
    n <= |a| && n <= |b| && a[..n] == b[..n]
  }

  /** The entries occupy the indices `first`, `first + 1`, and so on. */
  predicate Contiguous(es: seq<Entry>, first: nat) {
    forall k | 0 <= k < |es| :: es[k].index == first + k
  }

  /** More than half of `ids`. */
  predicate IsQuorum(q: set<Id>, ids: set<Id>) {
    q <= ids && |q| >= |ids| / 2 + 1
  }

  /** Two majorities of one set share a member. */
  lemma QuorumsMeet(q1: set<Id>, q2: set<Id>, ids: set<Id>) returns (common: Id)
    requires IsQuorum(q1, ids) && IsQuorum(q2, ids)
    ensures common in q1 && common in q2
  {
    SubsetSize(q1 + q2, ids);
    assert |q1 + q2| == |q1| + |q2| - |q1 * q2|;
    assert q1 * q2 != {};
    common :| common in q1 * q2;
  }

  lemma SubsetSize<T>(a: set<T>, b: set<T>)
    requires a <= b
    ensures |a| <= |b|
  {
    assert |b| == |a| + |b - a| by { assert a + (b - a) == b; }
  }
}
