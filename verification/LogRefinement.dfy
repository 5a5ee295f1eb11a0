/**
  A compacted log against the log that was never compacted: the same updates keep
  the one a view of the other, so every query about an index from the boundary up
  has the same answer.
 */
module LogRefinement {
  import opened Wrappers
  import opened RaftTypes
  import opened CompactLog

  /** `l` is `full` with a prefix dropped, of which only the last term is known. */
  ghost predicate Views(l: RLog, full: seq<Entry>) {
    && Contiguous(full, 1)
    && l.snapIndex <= |full|
    && l.entries == full[l.snapIndex..]
    && l.snapTerm == LastTermOf(full[..l.snapIndex])
  }

  /** Term of an entry of the full log, 0 outside it. */
  function FullTerm(full: seq<Entry>, index: nat): nat {
    if 0 < index <= |full| then full[index - 1].term else 0
  }

  lemma ViewValid(l: RLog, full: seq<Entry>)
    requires Views(l, full)
    ensures l.Valid() && l.LastIndex() == |full|
  {
  }

  /** Every query from the boundary up has the answer of the full log. */
  lemma QueriesAgree(l: RLog, full: seq<Entry>, index: nat)
    requires Views(l, full) && l.Valid()
    ensures l.LastIndex() == |full| && l.LastTerm() == LastTermOf(full)
    ensures index > l.snapIndex ==> l.At(index) == if index <= |full| then Some(full[index - 1]) else None
    ensures index >= l.snapIndex ==> l.TermAt(index) == FullTerm(full, index)
    ensures index > l.snapIndex ==> l.From(index) == if index <= |full| then full[index - 1..] else []
  {
  }

  /** What happens to a log. A compaction takes the boundary's term from the log itself. */
  datatype Update = Append(term: nat, payload: Payload) | Truncate(index: nat) | Compact(index: nat)

  function Updated(l: RLog, u: Update): (r: RLog)
    requires l.Valid()
    ensures r.Valid()
  {
    match u
    case Append(t, p) => l.Append(Entry(t, l.LastIndex() + 1, p))
    case Truncate(i) => l.TruncateFrom(i)
    case Compact(i) => l.CompactTo(i, l.TermAt(i))
  }

  /** The full log is never compacted. */
  function FullUpdated(full: seq<Entry>, u: Update): seq<Entry> {
    match u
    case Append(t, p) => full + [Entry(t, |full| + 1, p)]
    case Truncate(i) => if 0 < i <= |full| then full[..i - 1] else full
    case Compact(_) => full
  }

  /** Cutting starts above the boundary, and compaction stays within the log. */
  predicate Allowed(l: RLog, u: Update) {
    match u
    case Append(_, _) => true
    case Truncate(i) => i > l.snapIndex
    case Compact(i) => i <= l.LastIndex()
  }

  lemma AppendKeepsView(l: RLog, full: seq<Entry>, e: Entry)
    requires Views(l, full) && e.index == |full| + 1
    ensures Views(l.Append(e), full + [e])
  {
  }

  lemma TruncateKeepsView(l: RLog, full: seq<Entry>, i: nat)
    requires Views(l, full) && l.Valid() && l.snapIndex < i <= |full|
    ensures Views(l.TruncateFrom(i), full[..i - 1])
  {
  }

  lemma CompactKeepsView(l: RLog, full: seq<Entry>, i: nat)
    requires Views(l, full) && l.Valid() && l.snapIndex < i <= |full|
    ensures Views(l.CompactTo(i, l.TermAt(i)), full)
  {
  }

  lemma UpdateKeepsView(l: RLog, full: seq<Entry>, u: Update)
    requires Views(l, full) && l.Valid() && Allowed(l, u)
    ensures Views(Updated(l, u), FullUpdated(full, u))
  {
    hide Views, RLog.Valid;
    ViewValid(l, full);
    match u
    case Append(t, p) => AppendKeepsView(l, full, Entry(t, |full| + 1, p));
    case Truncate(i) => if i <= |full| { TruncateKeepsView(l, full, i); }
    case Compact(i) => if i > l.snapIndex { CompactKeepsView(l, full, i); }
  }

  /** A cut above the boundary is the only kind that leaves a view of the cut full log. */
  lemma TruncateKeepsViewIff(l: RLog, full: seq<Entry>, i: nat)
    requires Views(l, full) && l.Valid() && 0 < i <= |full|
    ensures Views(l.TruncateFrom(i), full[..i - 1]) <==> i > l.snapIndex
  {
  }

  ghost predicate AllAllowed(l: RLog, us: seq<Update>)
    requires l.Valid()
    decreases |us|
  {
    |us| == 0 || (Allowed(l, us[0]) && AllAllowed(Updated(l, us[0]), us[1..]))
  }

  function AllUpdated(l: RLog, us: seq<Update>): (r: RLog)
    requires l.Valid()
    ensures r.Valid()
    decreases |us|
  {
    if |us| == 0 then l else AllUpdated(Updated(l, us[0]), us[1..])
  }

  function AllFullUpdated(full: seq<Entry>, us: seq<Update>): seq<Entry>
    decreases |us|
  {
    if |us| == 0 then full else AllFullUpdated(FullUpdated(full, us[0]), us[1..])
  }

  /** After any updates, among them any compactions, the compacted log is a view of the full one. */
  lemma {:induction false} CompactedRefinesFull(l: RLog, full: seq<Entry>, us: seq<Update>)
    requires Views(l, full) && l.Valid() && AllAllowed(l, us)
    ensures Views(AllUpdated(l, us), AllFullUpdated(full, us))
    decreases |us|
  {
    hide Views, Updated, FullUpdated, Allowed;
    if |us| > 0 {
      UpdateKeepsView(l, full, us[0]);
      CompactedRefinesFull(Updated(l, us[0]), FullUpdated(full, us[0]), us[1..]);
    }
  }
}
