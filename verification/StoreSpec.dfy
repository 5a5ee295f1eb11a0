/**
  The key-value state machine as a function of the entries applied to it.
 */
module StoreSpec {
  import opened Wrappers
  import opened RaftTypes
  import opened Decimal
  import opened LineFile

  /** The value a command returns: Incr the incremented number, everything else nothing. */
  datatype Result = Nil | Num(n: int)

  type Data = map<string, string>

  /** The map of the store and the largest log index it has applied. */
  datatype Store = Store(data: Data, applied: nat)

  const EMPTY: Store := Store(map[], 0)

  /** The number stored at a key; 0 when the key is absent or does not hold a 64-bit decimal. */
  function CurrentInt(data: Data, key: string): (n: int)
    ensures IsInt64(n)
  {
    if key !in data then 0
    else match ParseInt(data[key])
      case Some(n) => n
      case None => 0
  }

  function Execute(data: Data, c: Command): (Data, Result) {
    match c.op
    case Set => (data[c.key := c.value], Nil)
    case Delete => (data - {c.key}, Nil)
    case Incr =>
      var n := Successor(CurrentInt(data, c.key));
      (data[c.key := FormatInt(n)], Num(n))
    case Other => (data, Nil)
  }

  /** A command at log index `index`, or outside the log when `index` is 0; an index already applied is skipped. */
  function Apply(s: Store, index: nat, c: Command): (Store, Result) {
    if index != 0 && index <= s.applied then
      (s, if c.op == Incr then Num(CurrentInt(s.data, c.key)) else Nil)
    else
      var (data, r) := Execute(s.data, c);
      (Store(data, if index > s.applied then index else s.applied), r)
  }

  /** Only store commands reach the state machine; no-ops and configurations do not. */
  function ApplyEntry(s: Store, e: Entry): (Store, Result) {
    if e.payload.Normal? then Apply(s, e.index, e.payload.command) else (s, Nil)
  }

  // ---- The reference: every store command of a log, once, in order ----

  function Fold(es: seq<Entry>): Data {
    if |es| == 0 then map[]
    else
      var d := Fold(es[..|es| - 1]);
      var e := es[|es| - 1];
      if e.payload.Normal? then Execute(d, e.payload.command).0 else d
  }

  /** The last Set or Delete of a key: what it left there. */
  function LastWrite(es: seq<Entry>, key: string): Option<string> {
    if |es| == 0 then None
    else
      var e := es[|es| - 1];
      if e.payload.Normal? && e.payload.command.key == key && e.payload.command.op == Set then Some(e.payload.command.value)
      else if e.payload.Normal? && e.payload.command.key == key && e.payload.command.op == Delete then None
      else LastWrite(es[..|es| - 1], key)
  }

  /** A key that is never counted up holds what was last written to it, and commands on other keys do not matter. */
  lemma {:induction false} HoldsLastWrite(es: seq<Entry>, key: string)
    requires forall e | e in es && e.payload.Normal? && e.payload.command.key == key :: e.payload.command.op != Incr
    ensures LastWrite(es, key) == if key in Fold(es) then Some(Fold(es)[key]) else None
  {
    hide CurrentInt, FormatInt;
    if |es| > 0 {
      var init, e := es[..|es| - 1], es[|es| - 1];
      assert e in es;
      HoldsLastWrite(init, key);
    }
  }

  /** Index of the last store command among entries numbered from 1. */
  function LastNormal(es: seq<Entry>): (k: nat)
    ensures k <= |es|
  {
    if |es| == 0 then 0
    else if es[|es| - 1].payload.Normal? then |es|
    else LastNormal(es[..|es| - 1])
  }

  function StoreAfter(es: seq<Entry>): Store {
    Store(Fold(es), LastNormal(es))
  }

  /** The result of the `i`-th entry of a log. */
  function ResultAt(es: seq<Entry>, i: nat): Result
    requires 0 < i <= |es|
  {
    ApplyEntry(StoreAfter(es[..i - 1]), es[i - 1]).1
  }

  // ---- The write-ahead log ----

  /** A command as it was applied; the index is 0 for a command from outside the log. */
  datatype WalRecord = WalRecord(index: nat, command: Command)

  /** Replaying a record; those a snapshot at `snapIndex` covers are left out. */
  function ReplayOne(s: Store, snapIndex: nat, r: WalRecord): Store {
    if r.index != 0 && r.index <= snapIndex then s
    else Store(Execute(s.data, r.command).0, if r.index > s.applied then r.index else s.applied)
  }

  function Replay(s: Store, snapIndex: nat, rs: seq<WalRecord>): Store {
    if |rs| == 0 then s else ReplayOne(Replay(s, snapIndex, rs[..|rs| - 1]), snapIndex, rs[|rs| - 1])
  }

  /** The store that a snapshot and a write-ahead log amount to. */
  function Reopened(file: seq<Line<WalRecord>>, snapIndex: nat, snapData: Data): Store {
    Replay(Store(snapData, snapIndex), snapIndex, Readable(file))
  }
}
