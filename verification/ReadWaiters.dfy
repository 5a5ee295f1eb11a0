/**
  ReadIndex's own loops: counting the peers that confirm the leadership, and waking
  the calls whose index has been applied.
 */
module ReadWaiters {

  /** A call that waits for the apply index to reach `index`, on its own channel. */
  datatype ApplyWaiter = ApplyWaiter(index: nat, call: nat)

  // ---- Counting confirmations ----

  /** What one wait for a peer's answer brings: it confirms, it does not, or the time is over. */
  datatype Answer = Yes | No | Expired

  /** How many of the answers confirm. */
  function Confirmed(answers: seq<Answer>): (n: nat)
    ensures n <= |answers|
  {
    if |answers| == 0 then 0 else Confirmed(answers[..|answers| - 1]) + if answers[|answers| - 1].Yes? then 1 else 0
  }

  lemma {:induction false} ConfirmedGrows(answers: seq<Answer>, j: nat, k: nat)
    requires j <= k <= |answers|
    ensures Confirmed(answers[..j]) <= Confirmed(answers[..k])
    decreases k - j
  {
    if j < k {
      assert answers[..k][..k - 1] == answers[..k - 1];
      ConfirmedGrows(answers, j, k - 1);
    }
  }

  /** Enough answers confirm before the time is over. */
  ghost predicate ConfirmedInTime(answers: seq<Answer>, need: int) {
    exists k | 0 <= k <= |answers| :: Expired !in answers[..k] && Confirmed(answers[..k]) >= need
  }

  /** With time over after `k` answers, and too few among them, the answers behind do not count. */
  lemma TooFew(answers: seq<Answer>, need: int, k: nat)
    requires k <= |answers| && Confirmed(answers[..k]) < need && (k < |answers| ==> answers[k].Expired?)
    ensures !ConfirmedInTime(answers, need)
  {
    forall j | k < j <= |answers|
      ensures Expired in answers[..j]
    {
      assert answers[..j][k] == Expired;
    }
    forall j | 0 <= j <= k
      ensures Confirmed(answers[..j]) < need
    {
      ConfirmedGrows(answers, j, k);
    }
  }

  /** Waits for one peer after the other; a majority of the cluster needs `need` of them beside the leader. */
  method ConfirmLeadership(answers: seq<Answer>, need: int) returns (confirmed: bool)
    ensures confirmed <==> ConfirmedInTime(answers, need)
  {
    if need <= 0 {
      assert Confirmed(answers[..0]) >= need && Expired !in answers[..0];
      return true;
    }
    var got, k := 0, 0;
    while k < |answers|
      invariant 0 <= k <= |answers| && Expired !in answers[..k]
      invariant got == Confirmed(answers[..k]) && got < need
    {
      if answers[k].Expired? {
        TooFew(answers, need, k);
        return false;
      }
      assert answers[..k + 1][..k] == answers[..k] && answers[..k + 1] == answers[..k] + [answers[k]];
      if answers[k].Yes? {
        got := got + 1;
        if got >= need {
          return true;
        }
      }
      k := k + 1;
    }
    TooFew(answers, need, k);
    return false;
  }

  // ---- Waking ----

  /** Those that go on waiting, in their order. */
  function Kept(ws: seq<ApplyWaiter>, applied: nat): (r: seq<ApplyWaiter>)
    ensures |r| <= |ws|
  {
    if |ws| == 0 then []
    else Kept(ws[..|ws| - 1], applied) + if ws[|ws| - 1].index <= applied then [] else [ws[|ws| - 1]]
  }

  /** The calls that are woken, in their order. */
  function Woken(ws: seq<ApplyWaiter>, applied: nat): seq<nat> {
    if |ws| == 0 then []
    else Woken(ws[..|ws| - 1], applied) + if ws[|ws| - 1].index <= applied then [ws[|ws| - 1].call] else []
  }

  /** The waiting list is filtered within its own array: what is kept is written behind what is read. */
  method NotifyApplyWaiters(a: array<ApplyWaiter>, len: nat, applied: nat) returns (kept: nat, woken: seq<nat>)
    requires len <= a.Length
    modifies a
    ensures kept <= len && a[..kept] == Kept(old(a[..len]), applied)
    ensures woken == Woken(old(a[..len]), applied)
  {
    hide Kept, Woken;
    kept, woken := 0, [];
    ghost var was := a[..len];
    var k := 0;
    KeptNext(was, 0, applied);
    while k < len
      invariant kept <= k <= len && forall i | k <= i < len :: a[i] == was[i]
      invariant a[..kept] == Kept(was[..k], applied) && woken == Woken(was[..k], applied)
    {
      KeptNext(was, k, applied);
      var w := a[k];
      if w.index <= applied {
        woken := woken + [w.call];
      } else {
        a[kept] := w;
        kept := kept + 1;
        assert a[..kept] == Kept(was[..k], applied) + [w];
      }
      k := k + 1;
    }
    assert was[..k] == was;
  }

  lemma KeptNext(ws: seq<ApplyWaiter>, k: nat, applied: nat)
    requires k <= |ws|
    ensures k == 0 ==> Kept(ws[..k], applied) == [] && Woken(ws[..k], applied) == []
    ensures k < |ws| && ws[k].index <= applied ==>
              Kept(ws[..k + 1], applied) == Kept(ws[..k], applied) && Woken(ws[..k + 1], applied) == Woken(ws[..k], applied) + [ws[k].call]
    ensures k < |ws| && ws[k].index > applied ==>
              Kept(ws[..k + 1], applied) == Kept(ws[..k], applied) + [ws[k]] && Woken(ws[..k + 1], applied) == Woken(ws[..k], applied)
  {
    if k < |ws| {
      assert ws[..k + 1][..k] == ws[..k];
    }
  }

  /** A waiting call is woken or kept, never both, never lost, so no channel is closed twice. */
  lemma {:induction false} WokenOnce(ws: seq<ApplyWaiter>, applied: nat)
    ensures multiset(Woken(ws, applied)) + multiset(Calls(Kept(ws, applied))) == multiset(Calls(ws))
  {
    hide Woken, Kept, Calls;
    if |ws| > 0 {
      var init, w := ws[..|ws| - 1], ws[|ws| - 1];
      WokenOnce(init, applied);
      LastWaiter(ws, applied);
      OneMore(Woken(init, applied), Calls(Kept(init, applied)), Calls(init), w.call);
    } else {
      NoWaiter(applied);
    }
  }

  lemma NoWaiter(applied: nat)
    ensures Woken([], applied) == [] && Calls([]) == [] && Kept([], applied) == []
  {
  }

  lemma LastWaiter(ws: seq<ApplyWaiter>, applied: nat)
    requires |ws| > 0
    ensures var init, w := ws[..|ws| - 1], ws[|ws| - 1];
            && Calls(ws) == Calls(init) + [w.call]
            && Woken(ws, applied) == Woken(init, applied) + (if w.index <= applied then [w.call] else [])
            && Calls(Kept(ws, applied)) == Calls(Kept(init, applied)) + (if w.index <= applied then [] else [w.call])
  {
    var kept := Kept(ws[..|ws| - 1], applied);
    CallsAdd(kept, ws[|ws| - 1]);
    assert kept + [] == kept && Calls(kept) + [] == Calls(kept);
  }

  lemma OneMore(a: seq<nat>, b: seq<nat>, c: seq<nat>, x: nat)
    requires multiset(a) + multiset(b) == multiset(c)
    ensures multiset(a + [x]) + multiset(b) == multiset(c + [x]) && multiset(a) + multiset(b + [x]) == multiset(c + [x])
    ensures a + [] == a && b + [] == b
  {
  }

  /** Exactly those whose index is applied are woken. */
  lemma {:induction false} WokenApplied(ws: seq<ApplyWaiter>, applied: nat)
    ensures forall w | w in Kept(ws, applied) :: w.index > applied && w in ws
    ensures forall w | w in ws && w.index <= applied :: w.call in Woken(ws, applied)
  {
    if |ws| > 0 {
      WokenApplied(ws[..|ws| - 1], applied);
    }
  }

  function Calls(ws: seq<ApplyWaiter>): seq<nat> {
    if |ws| == 0 then [] else Calls(ws[..|ws| - 1]) + [ws[|ws| - 1].call]
  }

  lemma CallsAdd(ws: seq<ApplyWaiter>, w: ApplyWaiter)
    ensures Calls(ws + [w]) == Calls(ws) + [w.call]
  {
  }
}
