/**
  The durable log: the object whose methods change the entries in memory and the
  lines of its file, and what the file gives back when it is opened, also after a
  crash in the middle of a change.
 */
module RaftLog {
  import opened Wrappers
  import opened RaftTypes
  import opened CompactLog
  import opened LineFile

  /** The entries past a snapshot boundary. */
  function After(es: seq<Entry>, boundary: nat): (r: seq<Entry>)
    ensures forall e | e in r :: e in es && e.index > boundary
  {
    if |es| == 0 then []
    else After(es[..|es| - 1], boundary) + if es[|es| - 1].index > boundary then [es[|es| - 1]] else []
  }

  /** The log that a file and a snapshot boundary amount to. */
  function Opened(file: seq<Line<Entry>>, snapIndex: nat, snapTerm: nat): RLog {
    RLog(snapIndex, snapTerm, After(Readable(file), snapIndex))
  }

  class Log {
    var snapIndex: nat
    var snapTerm: nat
    var entries: seq<Entry>
    var file: seq<Line<Entry>>

    ghost function View(): RLog
      reads this
    {
      RLog(snapIndex, snapTerm, entries)
    }

    ghost predicate Valid()
      reads this
    {
      View().Valid()
    }

    /** Opening the file gives the log in memory. */
    ghost predicate Durable()
      reads this
    {
      Clean(file) && Opened(file, snapIndex, snapTerm) == View()
    }

    /** OpenLog: lines up to a torn one are read, those the snapshot covers are skipped. */
    constructor Open(lines: seq<Line<Entry>>, boundary: nat, term: nat)
      ensures View() == Opened(lines, boundary, term) && file == lines
    {
      hide Readable, After;
      var kept, k := [], 0;
      ReadStart(lines);
      assert After([], boundary) == [] by { AllAfter([], boundary); }
      while k < |lines| && lines[k].Record?
        invariant k <= |lines| && ReadUpTo(lines, k) && kept == After(Readable(lines[..k]), boundary)
      {
        AfterNext(lines, k, boundary);
        if lines[k].value.index > boundary {
          kept := kept + [lines[k].value];
        }
        k := k + 1;
      }
      ReadEnd(lines, k);
      snapIndex, snapTerm, entries, file := boundary, term, kept, lines;
    }

    method LastIndex() returns (index: nat)
      ensures index == View().LastIndex()
    {
      if |entries| == 0 {
        index := snapIndex;
      } else {
        index := entries[|entries| - 1].index;
      }
    }

    method LastTerm() returns (term: nat)
      ensures term == View().LastTerm()
    {
      if |entries| == 0 {
        term := snapTerm;
      } else {
        term := entries[|entries| - 1].term;
      }
    }

    method At(index: nat) returns (e: Option<Entry>)
      requires Valid()
      ensures e == View().At(index)
    {
      var last := LastIndex();
      if index <= snapIndex || index > last {
        return None;
      }
      return Some(entries[index - snapIndex - 1]);
    }

    method TermAt(index: nat) returns (term: nat)
      requires Valid()
      ensures term == View().TermAt(index)
    {
      if index == snapIndex {
        return snapTerm;
      }
      var e := At(index);
      return if e.None? then 0 else e.value.term;
    }

    method From(index: nat) returns (es: seq<Entry>)
      requires Valid()
      ensures es == View().From(index)
    {
      var i := if index <= snapIndex then snapIndex + 1 else index;
      var last := LastIndex();
      if i > last {
        return [];
      }
      return entries[i - snapIndex - 1..];
    }

    /** Scans from the newest entry. */
    method LatestConfig() returns (c: Option<Entry>)
      ensures c == View().LatestConfig()
    {
      var i := |entries|;
      assert entries[..i] == entries;
      while i > 0
        invariant 0 <= i <= |entries| && LastConfig(entries) == LastConfig(entries[..i])
      {
        i := i - 1;
        assert entries[..i + 1][..i] == entries[..i];
        if entries[i].payload.Config? {
          return Some(entries[i]);
        }
      }
      return None;
    }

    /** The records are written to the end of the file before the entries are taken in. */
    method Append(es: seq<Entry>)
      requires Valid()
      modifies this
      ensures View() == old(View()).(entries := old(entries) + es) && file == Written(old(file), es)
      ensures old(Durable()) && Contiguous(es, old(View()).LastIndex() + 1) ==> Valid() && Durable()
    {
      if |es| == 0 {
        return;
      }
      hide Readable, After, Written, Clean, Contiguous;
      ghost var was, l := file, View();
      file := Written(file, es);
      entries := entries + es;
      if Clean(was) && After(Readable(was), snapIndex) == old(entries) && Contiguous(es, old(View()).LastIndex() + 1) {
        AppendedPast(l, es);
        ReadAppended(was, es, snapIndex);
      }
    }

    method TruncateFrom(index: nat)
      requires Valid()
      modifies this
      ensures View() == old(View()).TruncateFrom(index) && Valid()
      ensures (View() == old(View()) && file == old(file)) || Durable()
    {
      var i := if index <= snapIndex then snapIndex + 1 else index;
      var last := LastIndex();
      if i > last {
        return;
      }
      entries := entries[..i - snapIndex - 1];
      Rewrite();
    }

    method CompactTo(index: nat, term: nat)
      requires Valid()
      modifies this
      ensures View() == old(View()).CompactTo(index, term) && Valid()
      ensures (View() == old(View()) && file == old(file)) || Durable()
    {
      if index <= snapIndex {
        return;
      }
      var last := LastIndex();
      CompactValid(View(), index, term);
      if index >= last {
        entries := [];
      } else {
        entries := entries[index - snapIndex..];
      }
      snapIndex := index;
      snapTerm := term;
      Rewrite();
    }

    /** A new file takes the place of the old one at once. */
    method Rewrite()
      requires Valid()
      modifies this
      ensures View() == old(View()) && file == Lines(entries) && Durable()
    {
      var tmp: seq<Line<Entry>>, k := [], 0;
      while k < |entries|
        invariant 0 <= k <= |entries| && tmp == Lines(entries)[..k] && View() == old(View())
      {
        tmp := tmp + [Record(entries[k])];
        k := k + 1;
      }
      file := tmp;
      assert file == Lines(entries);
      ReadLines(entries);
      AllAfter(entries, snapIndex);
    }
  }

  lemma CompactValid(l: RLog, index: nat, term: nat)
    requires l.Valid()
    ensures l.CompactTo(index, term).Valid()
  {
  }

  // ---- Reading what was written ----

  lemma AfterNext(lines: seq<Line<Entry>>, k: nat, boundary: nat)
    requires k < |lines| && lines[k].Record? && ReadUpTo(lines, k)
    ensures ReadUpTo(lines, k + 1)
    ensures After(Readable(lines[..k + 1]), boundary)
            == After(Readable(lines[..k]), boundary) + if lines[k].value.index > boundary then [lines[k].value] else []
  {
    ReadNext(lines, k);
    var es := Readable(lines[..k + 1]);
    assert es[..|es| - 1] == Readable(lines[..k]);
  }

  lemma {:induction false} AllAfter(es: seq<Entry>, boundary: nat)
    requires forall e | e in es :: e.index > boundary
    ensures After(es, boundary) == es
  {
    if |es| > 0 {
      var init, e := es[..|es| - 1], es[|es| - 1];
      AllAfter(init, boundary);
      assert e in es && es == init + [e];
    }
  }

  lemma {:induction false} AfterJoined(a: seq<Entry>, b: seq<Entry>, boundary: nat)
    ensures After(a + b, boundary) == After(a, boundary) + After(b, boundary)
  {
    hide After;
    AfterLast(b, boundary);
    if |b| == 0 {
      assert a + b == a;
    } else {
      var init := b[..|b| - 1];
      AfterLast(a + b, boundary);
      AfterJoined(a, init, boundary);
      assert (a + b)[..|a + b| - 1] == a + init;
    }
  }

  lemma AfterLast(es: seq<Entry>, boundary: nat)
    ensures |es| == 0 ==> After(es, boundary) == []
    ensures |es| > 0 ==>
              After(es, boundary) == After(es[..|es| - 1], boundary) + if es[|es| - 1].index > boundary then [es[|es| - 1]] else []
  {
  }

  /** Entries that follow a log's last lie past its boundary. */
  lemma AppendedPast(l: RLog, es: seq<Entry>)
    requires l.Valid() && Contiguous(es, l.LastIndex() + 1)
    ensures Contiguous(l.entries + es, l.snapIndex + 1) && forall e | e in es :: e.index > l.snapIndex
  {
  }

  lemma ReadAppended(file: seq<Line<Entry>>, es: seq<Entry>, boundary: nat)
    requires Clean(file) && forall e | e in es :: e.index > boundary
    ensures Clean(Written(file, es))
    ensures After(Readable(Written(file, es)), boundary) == After(Readable(file), boundary) + es
    ensures After(Readable(Written(file, es) + [Garbled]), boundary) == After(Readable(file), boundary) + es
  {
    hide Readable, After, Written;
    ReadWritten(file, es);
    AfterJoined(Readable(file), es, boundary);
    AllAfter(es, boundary);
  }

  // ---- Crashes ----

  lemma {:induction false} AfterTwice(es: seq<Entry>, low: nat, high: nat)
    requires low <= high
    ensures After(After(es, low), high) == After(es, high)
  {
    if |es| > 0 {
      AfterTwice(es[..|es| - 1], low, high);
      var e := es[|es| - 1];
      assert After([e], high) == if e.index > high then [e] else [];
      AfterJoined(After(es[..|es| - 1], low), if e.index > low then [e] else [], high);
    }
  }

  /** Entries numbered from `first`: those past `boundary` are a tail. */
  lemma {:induction false} AfterContiguous(es: seq<Entry>, first: nat, boundary: nat)
    requires Contiguous(es, first) && first <= boundary + 1
    ensures After(es, boundary) == Tail(es, boundary + 1 - first)
  {
    if |es| > 0 {
      var init, e, n := es[..|es| - 1], es[|es| - 1], boundary + 1 - first;
      AfterContiguous(init, first, boundary);
      assert e.index == first + |es| - 1;
      assert n < |es| ==> Tail(init, n) + [e] == Tail(es, n);
    }
  }

  lemma LogContiguous(l: RLog)
    requires l.Valid()
    ensures Contiguous(l.entries, l.snapIndex + 1)
  {
  }

  lemma LogEnd(l: RLog)
    requires l.Valid()
    ensures l.LastIndex() == l.snapIndex + |l.entries|
  {
  }

  /** All but the first `n` entries. */
  function Tail(es: seq<Entry>, n: nat): seq<Entry> {
    if n >= |es| then [] else es[n..]
  }

  /**
    A crash after a snapshot was saved and before the log was rewritten: the old
    file, opened with the new boundary, gives the log that CompactTo would have left.
   */
  lemma SnapshotThenCrash(file: seq<Line<Entry>>, l: RLog, index: nat, term: nat)
    requires l.Valid() && Opened(file, l.snapIndex, l.snapTerm) == l && l.snapIndex < index
    ensures Opened(file, index, term) == l.CompactTo(index, term)
  {
    hide After, Readable, RLog.Valid;
    AfterTwice(Readable(file), l.snapIndex, index);
    assert After(l.entries, index) == Tail(l.entries, index - l.snapIndex) by {
      LogContiguous(l);
      AfterContiguous(l.entries, l.snapIndex + 1, index);
    }
    LogEnd(l);
  }

  /** A crash while entries were being appended: those wholly written are kept, the torn one is not. */
  lemma AppendThenCrash(file: seq<Line<Entry>>, l: RLog, es: seq<Entry>, whole: nat, torn: bool)
    requires Clean(file) && Opened(file, l.snapIndex, l.snapTerm) == l && whole <= |es|
    requires forall e | e in es :: e.index > l.snapIndex
    ensures var left := Written(file, es[..whole]) + if torn then [Garbled] else [];
            Opened(left, l.snapIndex, l.snapTerm) == l.(entries := l.entries + es[..whole])
  {
    hide Readable, After, Written;
    assert forall e | e in es[..whole] :: e in es;
    ReadAppended(file, es[..whole], l.snapIndex);
    assert Written(file, es[..whole]) + [] == Written(file, es[..whole]);
  }
}
