/** The home page's own rules in src/pages/Home.tsx: the active-task filter,
    the per-button offer countdowns and the rank icon. Its task completion and
    wallet connection are the handlers of the `Airdrop` module. */
module Home {
  import opened Wrappers
  import Seqs
  import Airdrop

  /** `task.isActive !== false`: an absent flag counts as active. */
  predicate Shown(t: Airdrop.AirdropTask) { t.isActive != Some(false) }

  /** The tasks kept after loading. */
  function ActiveTasks(tasks: seq<Airdrop.AirdropTask>): (r: seq<Airdrop.AirdropTask>)
    ensures forall i :: 0 <= i < |r| ==> r[i].isActive.None? || r[i].isActive == Some(true)
    ensures forall i :: 0 <= i < |tasks| && tasks[i].isActive.None? ==> tasks[i] in r
    ensures forall i :: 0 <= i < |tasks| && tasks[i].isActive == Some(true) ==> tasks[i] in r
    ensures Seqs.IsSubsequence(r, tasks)
  {
    var r := Seqs.Filter(Shown, tasks);
    assert forall i :: 0 <= i < |r| ==> r[i].isActive.None? || r[i].isActive == Some(true) by {
      forall i | 0 <= i < |r| ensures r[i].isActive.None? || r[i].isActive == Some(true) {
        assert Shown(r[i]);
        if r[i].isActive.Some? {
          assert r[i].isActive.value != false;
        }
      }
    }
    r
  }

  /** The four offer buttons. */
  const OfferCount: nat := 4
  /** Seconds a button stays disabled after a click. */
  const Cooldown: int := 30

  /** The countdown update of `handleSmartOfferClick`: copy the array, then
      restart slot `idx`. */
  method OfferClick(prev: array<int>, idx: nat) returns (updated: array<int>)
    requires idx < prev.Length
    ensures fresh(updated)
    ensures updated[..] == prev[..][idx := Cooldown]
  {
    updated := new int[prev.Length];
    var i := 0;
    while i < prev.Length
      invariant 0 <= i <= prev.Length
      invariant forall j :: 0 <= j < i ==> updated[j] == prev[j]
    {
      updated[i] := prev[i];
      i := i + 1;
    }
    updated[idx] := Cooldown;
  }

  /** One second of the interval: positive slots drop by one, the rest are 0. */
  function Tick(s: seq<int>): (r: seq<int>)
    ensures |r| == |s|
    ensures forall i :: 0 <= i < |s| ==> r[i] == if s[i] > 0 then s[i] - 1 else 0
    ensures forall i :: 0 <= i < |s| ==> r[i] >= 0
  {
    seq(|s|, i requires 0 <= i < |s| => if s[i] > 0 then s[i] - 1 else 0)
  }

  function Ticks(s: seq<int>, n: nat): (r: seq<int>)
    ensures |r| == |s|
    decreases n
  {
    if n == 0 then s else Ticks(Tick(s), n - 1)
  }

  /** A button is clickable when its countdown is 0; the handler is not called otherwise. */
  predicate OfferClickable(s: seq<int>, i: nat)
    requires i < |s|
  {
    s[i] == 0
  }

  /** After `k` ticks a slot that started at `v >= 0` reads `max(v - k, 0)`, and
      the other slots do the same independently. */
  lemma {:induction false} TicksCount(s: seq<int>, n: nat, i: nat)
    requires i < |s| && s[i] >= 0
    ensures Ticks(s, n)[i] == if s[i] >= n then s[i] - n else 0
    decreases n
  {
    if n > 0 {
      TicksCount(Tick(s), n - 1, i);
    }
  }

  /** A clicked button stays disabled for exactly 30 ticks. */
  lemma CooldownLasts(s: seq<int>, idx: nat, k: nat)
    requires idx < |s|
    ensures k < Cooldown ==> !OfferClickable(Ticks(s[idx := Cooldown], k), idx)
    ensures k >= Cooldown ==> OfferClickable(Ticks(s[idx := Cooldown], k), idx)
  {
    TicksCount(s[idx := Cooldown], k, idx);
  }

  datatype RankIcon = FirstMedal | SecondMedal | ThirdMedal | Trophy | Star

  /** `getRankIcon(rank)`. */
  function GetRankIcon(rank: int): (r: RankIcon)
    ensures rank == 1 <==> r == FirstMedal
    ensures rank == 2 <==> r == SecondMedal
    ensures rank == 3 <==> r == ThirdMedal
    ensures r == Trophy <==> rank <= 10 && rank != 1 && rank != 2 && rank != 3
    ensures r == Star <==> rank > 10
  {
    if rank == 1 then FirstMedal
    else if rank == 2 then SecondMedal
    else if rank == 3 then ThirdMedal
    else if rank <= 10 then Trophy
    else Star
  }

  predicate Pending(t: Airdrop.AirdropTask) { !t.completed }

  /** The badge of tasks left: `tasks.filter(task => !task.completed).length`. */
  function RemainingCount(tasks: seq<Airdrop.AirdropTask>): (n: nat)
    ensures n <= |tasks|
    ensures n == |tasks| - Airdrop.CompletedCount(tasks)
  {
    Seqs.FilterComplement(Airdrop.IsCompleted, Pending, tasks);
    |Seqs.Filter(Pending, tasks)|
  }

  /** The progress counter and the badge add up to the number of tasks. */
  lemma CountsAddUp(tasks: seq<Airdrop.AirdropTask>)
    ensures Airdrop.CompletedCount(tasks) + RemainingCount(tasks) == |tasks|
  {
    Seqs.FilterComplement(Airdrop.IsCompleted, Pending, tasks);
  }
}
