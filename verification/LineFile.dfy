/**
  An append-only file of records, one a line. A crash may leave a torn last line;
  reading stops at the first line that does not decode, and a file is reopened for
  appending without cutting a torn line off.
 */
module LineFile {

  /** A line of the file: a record, or bytes that do not decode. */
  datatype Line<+T> = Record(value: T) | Garbled

  /** The records up to the first line that does not decode. */
  function Readable<T>(file: seq<Line<T>>): seq<T> {
    if |file| == 0 || file[0].Garbled? then [] else [file[0].value] + Readable(file[1..])
  }

  predicate Clean<T>(file: seq<Line<T>>) {
    forall k | 0 <= k < |file| :: file[k].Record?
  }

  function Lines<T>(rs: seq<T>): (file: seq<Line<T>>)
    ensures |file| == |rs| && Clean(file)
    ensures forall k | 0 <= k < |rs| :: file[k] == Record(rs[k])
  {
    seq(|rs|, k requires 0 <= k < |rs| => Record(rs[k]))
  }

  /** Records written after a torn line without line end become part of that line up to the first line end. */
  function Written<T>(file: seq<Line<T>>, rs: seq<T>): seq<Line<T>> {
    if |rs| > 0 && |file| > 0 && file[|file| - 1].Garbled? then file + Lines(rs[1..]) else file + Lines(rs)
  }

  /** Reading runs through a clean beginning and stops in any other. */
  lemma {:induction false} ReadJoined<T>(a: seq<Line<T>>, b: seq<Line<T>>)
    ensures |Readable(a)| <= |a| && (|Readable(a)| == |a| <==> Clean(a))
    ensures Readable(a + b) == if Clean(a) then Readable(a) + Readable(b) else Readable(a)
  {
    hide Readable, Clean;
    ReadHead(a);
    ReadHead(a + b);
    CleanTail(a);
    if |a| == 0 {
      assert a + b == b;
    } else {
      var rest := a[1..];
      assert (a + b)[1..] == rest + b;
      if a[0].Record? {
        ReadJoined(rest, b);
        assert [a[0].value] + (Readable(rest) + Readable(b)) == [a[0].value] + Readable(rest) + Readable(b);
      }
    }
  }

  /** One step of reading. */
  lemma ReadHead<T>(a: seq<Line<T>>)
    ensures Readable(a) == if |a| == 0 || a[0].Garbled? then [] else [a[0].value] + Readable(a[1..])
  {
  }

  lemma CleanTail<T>(a: seq<Line<T>>)
    ensures |a| == 0 ==> Clean(a)
    ensures |a| > 0 ==> (Clean(a) <==> a[0].Record? && Clean(a[1..]))
  {
    if |a| > 0 && Clean(a[1..]) && a[0].Record? {
      forall k | 0 <= k < |a|
        ensures a[k].Record?
      {
        assert k > 0 ==> a[1..][k - 1].Record?;
      }
    }
  }

  lemma {:induction false} ReadLines<T>(rs: seq<T>)
    ensures Readable(Lines(rs)) == rs
  {
    if |rs| > 0 {
      ReadLines(rs[1..]);
      assert Lines(rs)[1..] == Lines(rs[1..]);
    }
  }

  lemma ReadGarbled<T>()
    ensures Readable<T>([Garbled]) == [] && Readable<T>([]) == []
  {
  }

  // ---- Reading line by line ----

  /** The first `k` lines are records, and reading the file is reading them and then the rest. */
  predicate ReadUpTo<T(==)>(lines: seq<Line<T>>, k: nat) {
    && k <= |lines| && |Readable(lines[..k])| == k
    && Readable(lines) == Readable(lines[..k]) + Readable(lines[k..])
  }

  lemma ReadStart<T>(lines: seq<Line<T>>)
    ensures ReadUpTo(lines, 0) && Readable(lines[..0]) == []
  {
  }

  lemma ReadNext<T>(lines: seq<Line<T>>, k: nat)
    requires k < |lines| && lines[k].Record? && ReadUpTo(lines, k)
    ensures ReadUpTo(lines, k + 1) && Readable(lines[..k + 1]) == Readable(lines[..k]) + [lines[k].value]
  {
    ReadJoined(lines[..k], [lines[k]]);
    assert lines[..k + 1] == lines[..k] + [lines[k]];
    assert lines[k..][1..] == lines[k + 1..];
  }

  lemma ReadEnd<T>(lines: seq<Line<T>>, k: nat)
    requires ReadUpTo(lines, k) && (k == |lines| || lines[k].Garbled?)
    ensures Readable(lines) == Readable(lines[..k])
  {
  }

  /** What was written to a clean file is read back, also with a torn line behind it. */
  lemma ReadWritten<T>(file: seq<Line<T>>, rs: seq<T>)
    requires Clean(file)
    ensures Clean(Written(file, rs))
    ensures Readable(Written(file, rs)) == Readable(file) + rs
    ensures Readable(Written(file, rs) + [Garbled]) == Readable(file) + rs
  {
    hide Readable;
    assert Written(file, rs) == file + Lines(rs);
    ReadJoined(file, Lines(rs));
    ReadLines(rs);
    ReadJoined(Written(file, rs), [Garbled]);
    ReadGarbled<T>();
  }

  /** Records appended behind a torn line are lost: they are read back if and only if there was no such line. */
  lemma WrittenIsReadIffClean<T>(file: seq<Line<T>>, rs: seq<T>)
    requires |rs| > 0
    ensures Readable(Written(file, rs)) == Readable(file) + rs <==> Clean(file)
    ensures !Clean(file) ==> Readable(Written(file, rs)) == Readable(file)
  {
    hide Readable;
    if Clean(file) {
      ReadWritten(file, rs);
    } else {
      ReadJoined(file, Lines(rs));
      ReadJoined(file, Lines(rs[1..]));
      assert |Readable(file) + rs| > |Readable(file)|;
    }
  }
}
