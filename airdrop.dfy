/** The airdrop task list and balance, as src/Airdrop/components/AirdropModal.tsx
    updates them; src/pages/Home.tsx has the same two handlers over the same
    state. React state setters become functions from the old state to the new. */
module Airdrop {
  import opened Wrappers
  import Seqs

  datatype AirdropTask = AirdropTask(
    id: int,
    title: string,
    description: string,
    reward: int,
    completed: bool,
    kind: string,
    difficulty: string,
    category: string,
    timeLimit: Option<string>,
    isActive: Option<bool>,
    requirements: Option<seq<string>>,
    externalUrl: Option<string>)

  datatype State = State(tasks: seq<AirdropTask>, balance: int, walletConnected: bool, walletAddress: string)

  /** The `map` of both handlers: the tasks with id `id` become completed. */
  function MarkCompleted(tasks: seq<AirdropTask>, id: int): (r: seq<AirdropTask>)
    ensures |r| == |tasks|
    ensures forall i :: 0 <= i < |r| ==>
              r[i] == if tasks[i].id == id then tasks[i].(completed := true) else tasks[i]
  {
    seq(|tasks|, i requires 0 <= i < |tasks| => if tasks[i].id == id then tasks[i].(completed := true) else tasks[i])
  }

  /** The reward `find` yields for an id in the list as it was before the update, or 0. */
  function RewardOf(tasks: seq<AirdropTask>, id: int): (r: int)
    ensures (forall i :: 0 <= i < |tasks| ==> tasks[i].id != id) ==> r == 0
    ensures (exists i :: 0 <= i < |tasks| && tasks[i].id == id) ==>
              exists i :: 0 <= i < |tasks| && tasks[i].id == id && r == tasks[i].reward
                          && forall j :: 0 <= j < i ==> tasks[j].id != id
  {
    var t := Seqs.Find((t: AirdropTask) => t.id == id, tasks);
    if t.Some? then t.value.reward else 0
  }

  /** `handleTaskComplete(taskId)`. Nothing stops completing a task twice. */
  function CompleteTask(s: State, id: int): (r: State)
    ensures r.tasks == MarkCompleted(s.tasks, id)
    ensures r.balance == s.balance + RewardOf(s.tasks, id)
    ensures r.walletConnected == s.walletConnected && r.walletAddress == s.walletAddress
  {
    s.(tasks := MarkCompleted(s.tasks, id), balance := s.balance + RewardOf(s.tasks, id))
  }

  /** The id of the "connect wallet" task and its bonus. */
  const WalletTaskId: int := 7
  const WalletBonus: int := 200
  const DemoAddress: string := "UQBx...7k9m"

  /** `connectWallet()`. */
  function ConnectWallet(s: State): (r: State)
    ensures r.walletConnected && r.walletAddress == DemoAddress
    ensures r.tasks == MarkCompleted(s.tasks, WalletTaskId)
    ensures r.balance == s.balance + WalletBonus
  {
    State(MarkCompleted(s.tasks, WalletTaskId), s.balance + WalletBonus, true, DemoAddress)
  }

  predicate IsCompleted(t: AirdropTask) { t.completed }

  /** The completed counter: `tasks.filter(task => task.completed).length`. */
  function CompletedCount(tasks: seq<AirdropTask>): (n: nat)
    ensures n <= |tasks|
    ensures n == |Seqs.Filter(IsCompleted, tasks)|
  {
    |Seqs.Filter(IsCompleted, tasks)|
  }

  /** Completing a task never lowers the completed count. */
  lemma {:induction false} CompletionMonotone(tasks: seq<AirdropTask>, id: int)
    ensures CompletedCount(tasks) <= CompletedCount(MarkCompleted(tasks, id))
  {
    if tasks != [] {
      var marked := MarkCompleted(tasks, id);
      CompletionMonotone(tasks[1..], id);
      assert marked[1..] == MarkCompleted(tasks[1..], id);
      assert IsCompleted(tasks[0]) ==> IsCompleted(marked[0]);
    }
  }

  /** Completing the same id again changes the list no further. */
  lemma CompletionIdempotent(tasks: seq<AirdropTask>, id: int)
    ensures MarkCompleted(MarkCompleted(tasks, id), id) == MarkCompleted(tasks, id)
  {
  }

  /** Completing tasks leaves the ids in place, so the reward a later completion
      finds is the same; two completions of a present id pay its reward twice. */
  lemma {:induction false} RepeatedCompletionPaysTwice(s: State, id: int)
    ensures RewardOf(MarkCompleted(s.tasks, id), id) == RewardOf(s.tasks, id)
    ensures CompleteTask(CompleteTask(s, id), id).balance == s.balance + 2 * RewardOf(s.tasks, id)
  {
    RewardAfterMark(s.tasks, id, id);
  }

  lemma {:induction false} RewardAfterMark(tasks: seq<AirdropTask>, marked: int, id: int)
    ensures RewardOf(MarkCompleted(tasks, marked), id) == RewardOf(tasks, id)
  {
    if tasks != [] {
      RewardAfterMark(tasks[1..], marked, id);
      assert MarkCompleted(tasks, marked)[1..] == MarkCompleted(tasks[1..], marked);
    }
  }

  /** Connecting the wallet twice pays the bonus twice. */
  lemma ConnectTwice(s: State)
    ensures ConnectWallet(ConnectWallet(s)).balance == s.balance + 2 * WalletBonus
  {
  }
}
