/**
  What a counter holds after a log, and what an Incr in the log returns.
 */
module Counters {
  import opened Wrappers
  import opened RaftTypes
  import opened StoreSpec
  import opened Decimal

  // ---- Keys written by Incr only ----

  /** A command of this entry on `key` is an Incr. */
  predicate Harmless(e: Entry, key: string) {
    e.payload.Normal? && e.payload.command.key == key ==> e.payload.command.op == Incr
  }

  predicate Tame(es: seq<Entry>, key: string) {
    forall e | e in es :: Harmless(e, key)
  }

  lemma AppendTame(es: seq<Entry>, e: Entry, key: string)
    requires Tame(es, key) && Harmless(e, key)
    ensures Tame(es + [e], key)
  {
  }

  predicate IsIncr(e: Entry, key: string) {
    e.payload.Normal? && e.payload.command.op == Incr && e.payload.command.key == key
  }

  /** How many entries are an Incr of `key`. */
  function CountIncr(es: seq<Entry>, key: string): (n: nat)
    ensures n <= |es|
  {
    if |es| == 0 then 0
    else
      var e := es[|es| - 1];
      CountIncr(es[..|es| - 1], key) + if IsIncr(e, key) then 1 else 0
  }

  /** The counter is the number of Incr commands. */
  lemma {:induction false} CounterCounts(es: seq<Entry>, key: string)
    requires Tame(es, key) && |es| <= INT64_MAX
    ensures CurrentInt(Fold(es), key) == CountIncr(es, key)
  {
    hide FormatInt, ParseInt;
    if |es| > 0 {
      var init, e := es[..|es| - 1], es[|es| - 1];
      CounterCounts(init, key);
      assert Harmless(e, key);
      ParseFormat(CountIncr(init, key) + 1);
    }
  }

  lemma {:induction false} CountGrows(es: seq<Entry>, m: nat, n: nat, key: string)
    requires m <= n <= |es|
    ensures CountIncr(es[..m], key) <= CountIncr(es[..n], key)
  {
    if m < n {
      CountGrows(es, m, n - 1, key);
      assert es[..n][..n - 1] == es[..n - 1];
    }
  }

  /** The `i`-th entry, an Incr of the counter, returns how many there are up to it. */
  lemma IncrReturns(es: seq<Entry>, i: nat, key: string)
    requires Tame(es, key) && |es| <= INT64_MAX && Contiguous(es, 1)
    requires 0 < i <= |es| && IsIncr(es[i - 1], key)
    ensures ResultAt(es, i) == Num(CountIncr(es[..i], key))
    ensures CountIncr(es[..i], key) == CountIncr(es[..i - 1], key) + 1
  {
    hide FormatInt, ParseInt;
    assert es[..i][..i - 1] == es[..i - 1];
    CounterCounts(es[..i - 1], key);
  }

  /** Two logs that agree up to `m`: the count at `m` is less than the count at a later Incr `n`. */
  lemma CountsDiffer(a: seq<Entry>, b: seq<Entry>, m: nat, n: nat, key: string)
    requires 0 < m <= n <= |b| && Agree(a, b, m)
    requires CountIncr(b[..n], key) == CountIncr(b[..n - 1], key) + 1
    ensures m < n ==> CountIncr(a[..m], key) < CountIncr(b[..n], key)
    ensures m == n ==> a[m - 1] == b[n - 1]
  {
    if m < n {
      CountGrows(b, m, n - 1, key);
    }
    assert a[m - 1] == a[..m][m - 1] && b[m - 1] == b[..m][m - 1];
  }

  /** The count stays the same over a stretch of the log exactly if no Incr lies in it. */
  lemma {:induction false} EqualCountsIff(es: seq<Entry>, m: nat, n: nat, key: string)
    requires m <= n <= |es|
    ensures CountIncr(es[..m], key) == CountIncr(es[..n], key) <==> forall j | m <= j < n :: !IsIncr(es[j], key)
  {
    if m < n {
      EqualCountsIff(es, m, n - 1, key);
      CountGrows(es, m, n - 1, key);
      assert es[..n][..n - 1] == es[..n - 1];
    }
  }

  // ---- Any key ----

  /** What a stretch of the log makes of the number at a key: it adds to it, or replaces it. */
  datatype Change = Added(count: nat) | Became(number: int)

  function Between(es: seq<Entry>, key: string): Change {
    if |es| == 0 then Added(0)
    else
      var c, e := Between(es[..|es| - 1], key), es[|es| - 1];
      if !(e.payload.Normal? && e.payload.command.key == key) then c
      else match e.payload.command.op
        case Set => Became(match ParseInt(e.payload.command.value) case Some(n) => n case None => 0)
        case Delete => Became(0)
        case Incr => if c.Added? then Added(c.count + 1) else Became(Successor(c.number))
        case Other => c
  }

  lemma {:induction false} BetweenBound(es: seq<Entry>, key: string)
    ensures Between(es, key).Added? ==> Between(es, key).count <= |es|
  {
    hide ParseInt;
    if |es| > 0 {
      BetweenBound(es[..|es| - 1], key);
    }
  }

  /** The `count`-th successor in 64-bit arithmetic. */
  function Plus(n: int, count: nat): int {
    if count == 0 then n else Successor(Plus(n, count - 1))
  }

  const TWO_64: nat := 0x1_0000_0000_0000_0000

  /** It takes a whole round of 64 bits to come back. */
  lemma {:induction false} PlusMoves(n: int, count: nat)
    requires IsInt64(n) && count < TWO_64
    ensures Plus(n, count) == if n + count <= INT64_MAX then n + count else n + count - TWO_64
  {
    if count > 0 {
      PlusMoves(n, count - 1);
    }
  }

  lemma {:induction false} NumberAfter(a: seq<Entry>, b: seq<Entry>, key: string)
    ensures CurrentInt(Fold(a + b), key) ==
            match Between(b, key)
            case Added(count) => Plus(CurrentInt(Fold(a), key), count)
            case Became(n) => n
  {
    if |b| == 0 {
      assert a + b == a;
    } else {
      NumberAfter(a, b[..|b| - 1], key);
      assert (a + b)[..|a + b| - 1] == a + b[..|b| - 1];
      if b[|b| - 1].payload.Normal? {
        NumberNext(Fold(a + b[..|b| - 1]), b[|b| - 1], key);
      }
    }
  }

  /** What one entry makes of the number at a key. */
  lemma NumberNext(data: Data, e: Entry, key: string)
    requires e.payload.Normal?
    ensures var c := e.payload.command;
            CurrentInt(Execute(data, c).0, key) ==
            if c.key != key || c.op == Other then CurrentInt(data, key)
            else match c.op
              case Set => (match ParseInt(c.value) case Some(n) => n case None => 0)
              case Delete => 0
              case Incr => Successor(CurrentInt(data, key))
              case Other => CurrentInt(data, key)
  {
    hide FormatInt, ParseInt;
    ParseFormat(Successor(CurrentInt(data, key)));
  }

  /** The commands on the key in a stretch leave its number: they add nothing, or end up with the same number. */
  predicate Restores(es: seq<Entry>, key: string, number: int) {
    match Between(es, key)
    case Added(count) => count == 0
    case Became(n) => n == number
  }

  lemma NumberKeptIff(es: seq<Entry>, m: nat, n: nat, key: string)
    requires m <= n <= |es| < TWO_64
    ensures CurrentInt(Fold(es[..n]), key) == CurrentInt(Fold(es[..m]), key)
            <==> Restores(es[m..n], key, CurrentInt(Fold(es[..m]), key))
  {
    hide FormatInt, ParseInt, Fold, Between, CurrentInt;
    assert es[..n] == es[..m] + es[m..n];
    NumberAfter(es[..m], es[m..n], key);
    BetweenBound(es[m..n], key);
    if Between(es[m..n], key).Added? {
      PlusMoves(CurrentInt(Fold(es[..m]), key), Between(es[m..n], key).count);
    }
  }
}
