/**
  The store as the program runs it: a map changed in place, with a write-ahead log
  that can bring it back.
 */
module KvStore {
  import opened Wrappers
  import opened RaftTypes
  import opened LineFile
  import opened Decimal
  import Spec = StoreSpec

  class Wal {
    var file: seq<Line<Spec.WalRecord>>

    constructor (lines: seq<Line<Spec.WalRecord>>)
      ensures file == lines
    {
      file := lines;
    }

    /**
      The record is on disk when Append returns: a clean file gives it back behind all
      records before it, also if the next write is torn. Behind a torn line it is lost.
     */
    method Append(index: nat, c: Command)
      modifies this
      ensures Readable(file) == if Clean(old(file)) then Readable(old(file)) + [Spec.WalRecord(index, c)] else Readable(old(file))
      ensures Clean(old(file)) ==> Clean(file) && Readable(file + [Garbled]) == Readable(file)
      ensures file == Written(old(file), [Spec.WalRecord(index, c)])
    {
      hide Readable, Written, Clean;
      WrittenIsReadIffClean(file, [Spec.WalRecord(index, c)]);
      if Clean(file) {
        ReadWritten(file, [Spec.WalRecord(index, c)]);
      }
      file := Written(file, [Spec.WalRecord(index, c)]);
    }

    method Truncate()
      modifies this
      ensures file == []
    {
      file := [];
    }
  }

  class KvStore {
    var data: Spec.Data
    var applied: nat
    const wal: Wal?

    ghost function View(): Spec.Store
      reads this
    {
      Spec.Store(data, applied)
    }

    /** With a snapshot of `snapData` at `snapIndex`, opening the files again gives the store in memory. */
    ghost predicate Durable(snapIndex: nat, snapData: Spec.Data)
      reads this, wal
    {
      wal != null && Clean(wal.file) && Spec.Reopened(wal.file, snapIndex, snapData) == View() && snapIndex <= applied
    }

    /** A store without write-ahead log. */
    constructor Empty()
      ensures View() == Spec.EMPTY && wal == null
    {
      data, applied, wal := map[], 0, null;
    }

    /** OpenStoreAt: the snapshot, then record by record what lies behind it, up to a torn one. */
    constructor OpenAt(lines: seq<Line<Spec.WalRecord>>, snapIndex: nat, snapData: Spec.Data)
      ensures View() == Spec.Reopened(lines, snapIndex, snapData)
      ensures wal != null && fresh(wal) && wal.file == lines
    {
      data, applied := snapData, snapIndex;
      wal := new Wal(lines);
      new;
      var k := 0;
      ReadStart(lines);
      while k < |lines| && lines[k].Record?
        invariant k <= |lines| && ReadUpTo(lines, k)
        invariant View() == Spec.Replay(Spec.Store(snapData, snapIndex), snapIndex, Readable(lines[..k]))
        invariant wal.file == lines
        modifies this
      {
        ReadNext(lines, k);
        ReplayLast(Spec.Store(snapData, snapIndex), snapIndex, Readable(lines[..k]), lines[k].value);
        var r := lines[k].value;
        if r.index == 0 || r.index > snapIndex {
          var _ := ApplyLocked(r.command);
          if r.index > applied {
            applied := r.index;
          }
        }
        k := k + 1;
      }
      ReadEnd(lines, k);
    }

    /** The number stored at a key, 0 if there is none. */
    method CurrentInt(key: string) returns (n: int)
      ensures n == Spec.CurrentInt(data, key)
    {
      if key !in data {
        return 0;
      }
      var parsed := ParseInt(data[key]);
      return if parsed.None? then 0 else parsed.value;
    }

    method ApplyLocked(c: Command) returns (r: Spec.Result)
      modifies this`data
      ensures (data, r) == Spec.Execute(old(data), c)
    {
      r := Spec.Nil;
      match c.op
      case Set => data := data[c.key := c.value];
      case Delete => data := data - {c.key};
      case Incr =>
        var n := CurrentInt(c.key);
        n := Successor(n);
        data := data[c.key := FormatInt(n)];
        r := Spec.Num(n);
      case Other =>
    }

    /** An entry already applied is skipped; any other is applied and then written to the write-ahead log. */
    method Apply(index: nat, c: Command) returns (r: Spec.Result)
      modifies this, wal
      ensures (View(), r) == Spec.Apply(old(View()), index, c)
      ensures wal != null ==> wal.file == if index != 0 && index <= old(applied) then old(wal.file)
                                          else Written(old(wal.file), [Spec.WalRecord(index, c)])
      ensures forall i, d | old(Durable(i, d)) :: Durable(i, d)
    {
      ghost var was := View();
      forall i, d | Durable(i, d)
        ensures Spec.Reopened(if index != 0 && index <= was.applied then wal.file else Written(wal.file, [Spec.WalRecord(index, c)]), i, d)
                == Spec.Apply(was, index, c).0
        ensures Clean(Written(wal.file, [Spec.WalRecord(index, c)]))
      {
        ApplyDurable(wal.file, was, i, d, index, c);
        ReadWritten(wal.file, [Spec.WalRecord(index, c)]);
      }
      if index != 0 && index <= applied {
        if c.op == Incr {
          var n := CurrentInt(c.key);
          return Spec.Num(n);
        }
        return Spec.Nil;
      }
      r := ApplyLocked(c);
      if wal != null {
        wal.Append(index, c);
      }
      if index > applied {
        applied := index;
      }
    }

    method Snapshot() returns (d: Spec.Data)
      ensures d == View().data
    {
      return data;
    }

    /** A snapshot takes the place of everything. */
    method Restore(index: nat, d: Spec.Data)
      modifies this, wal
      ensures View() == Spec.Store(d, index) && (wal != null ==> wal.file == [] && Durable(index, d))
    {
      data, applied := d, index;
      if wal != null {
        wal.Truncate();
      }
    }

    /** A snapshot at `index` is safe; the write-ahead log may go, unless the store is past it. */
    method Compacted(index: nat)
      modifies wal
      ensures View() == old(View())
      ensures wal != null ==> wal.file == if index < applied then old(wal.file) else []
    {
      if wal == null || index < applied {
        return;
      }
      wal.Truncate();
    }
  }

  lemma ReplayLast(s: Spec.Store, snapIndex: nat, rs: seq<Spec.WalRecord>, r: Spec.WalRecord)
    ensures Spec.Replay(s, snapIndex, rs + [r]) == Spec.ReplayOne(Spec.Replay(s, snapIndex, rs), snapIndex, r)
  {
  }

  /** Whatever is applied, opening the files again gives the store in memory; also if the write was followed by a torn one. */
  lemma ApplyDurable(file: seq<Line<Spec.WalRecord>>, s: Spec.Store, snapIndex: nat, snapData: Spec.Data, index: nat, c: Command)
    requires Clean(file) && Spec.Reopened(file, snapIndex, snapData) == s && snapIndex <= s.applied
    ensures var left := if index != 0 && index <= s.applied then file else Written(file, [Spec.WalRecord(index, c)]);
            && Clean(left)
            && Spec.Reopened(left, snapIndex, snapData) == Spec.Apply(s, index, c).0
            && Spec.Reopened(left + [Garbled], snapIndex, snapData) == Spec.Apply(s, index, c).0
  {
    hide Spec.Execute, Readable, Written, Spec.Replay;
    ReadWritten(file, [Spec.WalRecord(index, c)]);
    ReadWritten<Spec.WalRecord>(file, []);
    NothingWritten(file);
    ReplayLast(Spec.Store(snapData, snapIndex), snapIndex, Readable(file), Spec.WalRecord(index, c));
    assert Readable(file) + [] == Readable(file);
  }

  lemma NothingWritten(file: seq<Line<Spec.WalRecord>>)
    ensures Written(file, []) == file
  {
  }
}
