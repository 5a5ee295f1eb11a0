/**
  That the apply loop gets on: from every state of every run, a node left to itself
  finishes whatever it holds, the lock, a snapshot, an entry, and applies all that it
  has committed; and each call that waits for a committed entry is answered.
 */
module ApplyDrains {
  import opened Wrappers
  import opened RaftTypes
  import opened CompactLog
  import opened StoreSpec
  import opened ApplyLoop
  import opened ApplyRuns

  /** The node holds nothing and has applied all that it has committed. */
  predicate Idle(n: Node) {
    n.busy.Free? && n.taken == None && n.shot.NoShot? && n.lastApplied == n.commit
  }

  /** What the node does next of itself: what it holds first, then the next entry. */
  function Own(n: Node): Action {
    match n.busy
    case Saved(_, _) => CompactLog
    case Compacted(_) => CutWal
    case Received(_) => Restore
    case Restored(_) => Shorten
    case Shortened(_) => Reposition
    case Free =>
      match n.shot
      case Chosen(_, _) => ReadState
      case Read(_, _, _) => Save
      case NoShot =>
        match n.taken
        case Some(t) => if t.result == None then Apply else Finish
        case None => Take
  }

  // ---- It ends ----

  function ShotRank(n: Node): nat {
    match n.shot case NoShot => 0 case Read(_, _, _) => 1 case Chosen(_, _) => 2
  }

  function BusyRank(n: Node): nat {
    match n.busy
    case Free => 0 case Compacted(_) => 1 case Saved(_, _) => 2
    case Shortened(_) => 1 case Restored(_) => 2 case Received(_) => 3
  }

  function TakenRank(n: Node): nat {
    if n.taken == None then 0 else if n.taken.value.result == None then 2 else 1
  }

  /** Committed entries not yet in hand. */
  function Ahead(n: Node): nat {
    var position := if n.taken.Some? && n.taken.value.index > n.lastApplied then n.taken.value.index else n.lastApplied;
    if position <= n.commit then n.commit - position else 0
  }

  lemma OwnEnabled(ledger: seq<Entry>, n: Node)
    requires NodeOk(ledger, n) && !Idle(n)
    ensures n.log.Valid() && Enabled(ledger, n, Own(n))
  {
    hide Fold, Live, Records, RLog.At, RLog.LastIndex, Calm;
  }

  /** Each such step leaves less to do. */
  lemma OwnLess(ledger: seq<Entry>, n: Node)
    requires NodeOk(ledger, n) && !Idle(n) && n.log.Valid() && Enabled(ledger, n, Own(n))
    ensures var m := Step(n, Own(n));
            || ShotRank(m) < ShotRank(n)
            || (ShotRank(m) == ShotRank(n) && BusyRank(m) < BusyRank(n))
            || (ShotRank(m) == ShotRank(n) && BusyRank(m) == BusyRank(n) && Ahead(m) < Ahead(n))
            || (ShotRank(m) == ShotRank(n) && BusyRank(m) == BusyRank(n) && Ahead(m) == Ahead(n) && TakenRank(m) < TakenRank(n))
  {
    hide Fold, Live, Records, RLog.At, RLog.LastIndex, RLog.CompactTo, RLog.TermAt, Calm, ApplyEntry, RLog.Valid, Holds;
  }

  // ---- Calls ----

  /** The call is answered, in hand, or waits for an entry that is committed. */
  ghost predicate Owed(n: Node, answers: map<nat, Answer>, c: nat) {
    || c in answers || (n.taken.Some? && n.taken.value.waiter == Some(c))
    || exists i | i in n.waiters :: i <= n.commit && n.waiters[i] == c
  }

  lemma OwnOwes(ledger: seq<Entry>, w: World, n: Node, c: nat)
    requires NodeOk(ledger, n) && !Idle(n) && n.log.Valid() && Enabled(ledger, n, Own(n)) && Owed(n, w.answers, c)
    ensures Owed(Step(n, Own(n)), Answered(w, n, Own(n)), c)
  {
    hide Fold, Live, Records, RLog.At, RLog.LastIndex, RLog.CompactTo, RLog.TermAt, Calm, ApplyEntry, RLog.Valid, Holds;
    if Own(n) == Take {
      TakeFinds(ledger, n);
      var m := Step(n, Take);
      if c !in w.answers {
        var i :| i in n.waiters && i <= n.commit && n.waiters[i] == c;
        if i != n.lastApplied + 1 {
          assert i in m.waiters && m.waiters[i] == c && i <= m.commit;
        }
      }
    }
  }

  lemma IdleOwesNothing(made: map<nat, Entry>, n: Node, answers: map<nat, Answer>, c: nat)
    requires Idle(n) && n.log.Valid() && WaitOk(made, n) && Owed(n, answers, c)
    ensures c in answers
  {
    hide RLog.Valid, RLog.At;
    forall i | i in n.waiters
      ensures i > n.commit
    {
      assert WaitsFor(made, n, i);
    }
  }

  // ---- Over runs ----

  /** The run `q` prolongs `r` by steps of node `id` itself, neither a crash nor a flush among them. */
  ghost predicate LeftTo(r: Run, q: Run, id: int) {
    && |r.worlds| <= |q.worlds| && |r.steps| <= |q.steps|
    && (forall i | 0 <= i < |r.worlds| :: q.worlds[i] == r.worlds[i]) && (forall i | 0 <= i < |r.steps| :: q.steps[i] == r.steps[i])
    && forall i | |r.steps| <= i < |q.steps| :: q.steps[i].0 == id && OfItself(q.steps[i].1)
  }

  predicate OfItself(a: Action) {
    || a.Take? || a.Apply? || a.Finish? || a.ReadState? || a.Save? || a.CompactLog? || a.CutWal?
    || a.Restore? || a.Shorten? || a.Reposition?
  }

  ghost function Last(ledger: seq<Entry>, r: Run): World
    requires IsRun(ledger, r)
  {
    r.worlds[|r.steps|]
  }

  lemma OneStep(ledger: seq<Entry>, r: Run, id: int) returns (q: Run)
    requires IsRun(ledger, r) && id in Last(ledger, r).nodes && !Idle(Last(ledger, r).nodes[id])
    ensures IsRun(ledger, q) && LeftTo(r, q, id) && id in Last(ledger, q).nodes
    ensures var w, n := Last(ledger, r), Last(ledger, r).nodes[id];
            && NodeOk(ledger, n) && n.log.Valid() && Enabled(ledger, n, Own(n)) && Last(ledger, q).nodes[id] == Step(n, Own(n))
            && Last(ledger, q).answers == Answered(w, n, Own(n))
  {
    hide NodeOk, Enabled, Step, RLog.Valid, Init, Idle;
    var w := Last(ledger, r);
    var n := w.nodes[id];
    RunOk(ledger, r, |r.steps|);
    OwnEnabled(ledger, n);
    var v := World(w.nodes[id := Step(n, Own(n))], w.sent, w.made, Answered(w, n, Own(n)));
    q := Run(r.worlds + [v], r.steps + [(id, Own(n))]);
    forall i | 0 <= i < |q.steps|
      ensures NextAt(ledger, q, i)
    {
      if i < |r.steps| {
        assert NextAt(ledger, r, i);
      }
    }
  }

  /**
    Left to itself, a node comes to hold nothing and to have applied all that it has
    committed, and every call that waited for a committed entry, or was in hand, is
    answered.
   */
  lemma {:induction false} Drains(ledger: seq<Entry>, r: Run, id: int) returns (q: Run)
    requires IsRun(ledger, r) && id in Last(ledger, r).nodes
    ensures IsRun(ledger, q) && LeftTo(r, q, id) && id in Last(ledger, q).nodes && Idle(Last(ledger, q).nodes[id])
    ensures forall c | Owed(Last(ledger, r).nodes[id], Last(ledger, r).answers, c) :: c in Last(ledger, q).answers
    decreases ShotRank(Last(ledger, r).nodes[id]), BusyRank(Last(ledger, r).nodes[id]), Ahead(Last(ledger, r).nodes[id]),
              TakenRank(Last(ledger, r).nodes[id])
  {
    hide IsRun, NodeOk, Enabled, Step, Idle, Owed, WaitOk, RLog.Valid, ShotRank, BusyRank, Ahead, TakenRank;
    var w := Last(ledger, r);
    var n := w.nodes[id];
    if Idle(n) {
      q := r;
      RunSize(ledger, r);
      CallsForever(ledger, r, |r.steps|);
      forall c | Owed(n, w.answers, c)
        ensures c in w.answers
      {
        IdleOwesNothing(w.made, n, w.answers, c);
      }
    } else {
      var e := OneStep(ledger, r, id);
      OwnLess(ledger, n);
      q := Drains(ledger, e, id);
      forall c | Owed(n, w.answers, c)
        ensures c in Last(ledger, q).answers
      {
        OwnOwes(ledger, w, n, c);
      }
    }
  }

  lemma RunSize(ledger: seq<Entry>, r: Run)
    requires IsRun(ledger, r)
    ensures |r.worlds| == |r.steps| + 1
  {
  }
}
