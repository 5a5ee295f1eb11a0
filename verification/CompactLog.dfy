/**
  The replicated log with its compacted prefix, as a value: what the queries of
  the log answer and what its updates make of it.
 */
module CompactLog {
  import opened Wrappers
  import opened RaftTypes

  /** Entries up to `snapIndex` are gone; of them only the term of the last is known. */
  datatype RLog = RLog(snapIndex: nat, snapTerm: nat, entries: seq<Entry>) {

    predicate Valid() {
      Contiguous(entries, snapIndex + 1)
    }

    function LastIndex(): nat {
      if |entries| == 0 then snapIndex else entries[|entries| - 1].index
    }

    function LastTerm(): nat {
      if |entries| == 0 then snapTerm else entries[|entries| - 1].term
    }

    function At(index: nat): Option<Entry>
      requires Valid()
    {
      if index <= snapIndex || index > LastIndex() then None else Some(entries[index - snapIndex - 1])
    }

    /** The boundary has the snapshot's term; an index outside the log has term 0. */
    function TermAt(index: nat): nat
      requires Valid()
    {
      if index == snapIndex then snapTerm
      else match At(index)
        case Some(e) => e.term
        case None => 0
    }

    /** Entries from `index` on; an index inside the compacted prefix stands for the first entry kept. */
    function From(index: nat): seq<Entry>
      requires Valid()
    {
      var i := if index <= snapIndex then snapIndex + 1 else index;
      if i > LastIndex() then [] else entries[i - snapIndex - 1..]
    }

    function LatestConfig(): (c: Option<Entry>)
      ensures c.Some? ==> c.value in entries && c.value.payload.Config?
    {
      LastConfig(entries)
    }

    function Append(e: Entry): RLog {
      this.(entries := entries + [e])
    }

    /** Entries from `index` on are dropped; the compacted prefix stays. */
    function TruncateFrom(index: nat): RLog
      requires Valid()
    {
      var i := if index <= snapIndex then snapIndex + 1 else index;
      if i > LastIndex() then this else this.(entries := entries[..i - snapIndex - 1])
    }

    /** Entries up to `index` are dropped; `term` is the term of the entry at `index`. */
    function CompactTo(index: nat, term: nat): RLog
      requires Valid()
    {
      if index <= snapIndex then this
      else RLog(index, term, if index >= LastIndex() then [] else entries[index - snapIndex..])
    }
  }

  /** The last configuration entry. */
  function LastConfig(es: seq<Entry>): (c: Option<Entry>)
    ensures c.Some? ==> c.value in es && c.value.payload.Config?
  {
    if |es| == 0 then None
    else if es[|es| - 1].payload.Config? then Some(es[|es| - 1])
    else LastConfig(es[..|es| - 1])
  }

  /** An entry from the leader: skip it when covered or present, cut a conflicting tail, append. */
  function MergeOne(l: RLog, e: Entry): (r: RLog)
    requires l.Valid() && e.index <= l.LastIndex() + 1
    ensures r.Valid() && r.snapIndex == l.snapIndex && r.snapTerm == l.snapTerm
    ensures r.LastIndex() >= e.index || r == l
  {
    if e.index <= l.snapIndex then l
    else if e.index <= l.LastIndex() && l.TermAt(e.index) == e.term then l
    else if e.index <= l.LastIndex() then l.TruncateFrom(e.index).Append(e)
    else l.Append(e)
  }

  /** Consecutive entries that a log can take in, because they start no later than its end. */
  predicate Fits(l: RLog, es: seq<Entry>) {
    |es| > 0 ==> es[0].index <= l.LastIndex() + 1 && Contiguous(es, es[0].index)
  }

  /** The append handler's loop: the entries in turn. */
  function Merge(l: RLog, es: seq<Entry>): (r: RLog)
    requires l.Valid() && Fits(l, es)
    ensures r.Valid() && r.snapIndex == l.snapIndex && r.snapTerm == l.snapTerm
    ensures |es| > 0 ==> r.LastIndex() >= es[|es| - 1].index
  {
    if |es| == 0 then l
    else
      var init := es[..|es| - 1];
      MergeOne(Merge(l, init), es[|es| - 1])
  }

  /** Wherever the logs have an entry of the same term they agree up to it. */
  ghost predicate Matches(a: seq<Entry>, b: seq<Entry>) {
    forall k | 0 <= k < |a| && k < |b| && a[k].term == b[k].term :: Agree(a, b, k + 1)
  }

  /**
    The loop against the leader's log: a log without compacted prefix that agrees
    with the leader's before the entries, and wherever it has an entry of the same
    term, ends up agreeing up to the last entry. It is cut only at a conflict.
   */
  lemma {:induction false} MergeFollows(l: RLog, es: seq<Entry>, leader: seq<Entry>, prev: nat)
    requires l.Valid() && l.snapIndex == 0 && Fits(l, es) && Contiguous(leader, 1)
    requires Agree(l.entries, leader, prev)
    requires prev + |es| <= |leader| && es == leader[prev..prev + |es|]
    requires Matches(l.entries, leader)
    ensures var r := Merge(l, es);
            && Agree(r.entries, leader, prev + |es|)
            && (r == l || (|r.entries| == prev + |es| && !(r.entries <= l.entries)))
  {
    hide MergeOne, Merge, Matches, Agree, Fits, RLog.Valid;
    MergeStep(l, es);
    if |es| > 0 {
      var init, n := es[..|es| - 1], prev + |es| - 1;
      assert init == leader[prev..n];
      MergeFollows(l, init, leader, prev);
      assert es[|es| - 1] == leader[n];
      MergeFollowsOne(l, Merge(l, init), leader, n);
    }
  }

  lemma MergeStep(l: RLog, es: seq<Entry>)
    requires l.Valid() && Fits(l, es)
    ensures |es| == 0 ==> Merge(l, es) == l
    ensures |es| > 0 ==>
              var init, e := es[..|es| - 1], es[|es| - 1];
              Fits(l, init) && e.index <= Merge(l, init).LastIndex() + 1 && Merge(l, es) == MergeOne(Merge(l, init), e)
  {
    hide MergeOne;
  }

  lemma MergeFollowsOne(l: RLog, m: RLog, leader: seq<Entry>, n: nat)
    requires l.Valid() && l.snapIndex == 0 && Contiguous(leader, 1) && n < |leader|
    requires m.Valid() && m.snapIndex == 0 && m.snapTerm == l.snapTerm
    requires Agree(m.entries, leader, n) && (m == l || (|m.entries| == n && !(m.entries <= l.entries)))
    requires Matches(l.entries, leader)
    ensures leader[n].index <= m.LastIndex() + 1
    ensures var r := MergeOne(m, leader[n]);
            && Agree(r.entries, leader, n + 1)
            && (r == l || (|r.entries| == n + 1 && !(r.entries <= l.entries)))
  {
  }
}
