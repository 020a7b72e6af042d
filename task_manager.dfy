/** The admin task list of src/admin/components/TaskManager.tsx: the filter
    effect, the create guard, duplication, the totals and the parsing of the
    requirements box. */
module TaskManager {
  import opened Wrappers
  import Seqs
  import Text

  datatype AdminTask = AdminTask(
    id: int,
    title: string,
    description: string,
    reward: int,
    completed: bool,
    kind: string,
    difficulty: string,
    category: string,
    timeLimit: Option<string>,
    isActive: bool,
    createdAt: string,
    updatedAt: string,
    completionCount: int,
    maxCompletions: Option<int>,
    requirements: Option<seq<string>>,
    externalUrl: Option<string>)

  datatype StatusFilter = AllStatuses | ActiveOnly | InactiveOnly | CompletedOnly
  datatype DifficultyFilter = AnyDifficulty | OnlyDifficulty(difficulty: string)

  /** The lowercased term occurs in the lowercased title, description or category. */
  predicate MatchesSearch(t: AdminTask, term: string) {
    var needle := Text.ToLower(term);
    Text.Contains(Text.ToLower(t.title), needle)
    || Text.Contains(Text.ToLower(t.description), needle)
    || Text.Contains(Text.ToLower(t.category), needle)
  }

  predicate MatchesStatus(t: AdminTask, f: StatusFilter) {
    match f
    case AllStatuses => true
    case ActiveOnly => t.isActive
    case InactiveOnly => !t.isActive
    case CompletedOnly => t.completed
  }

  predicate MatchesDifficulty(t: AdminTask, f: DifficultyFilter) {
    f.AnyDifficulty? || t.difficulty == f.difficulty
  }

  /** What the filter effect keeps. */
  predicate Keep(t: AdminTask, term: string, status: StatusFilter, difficulty: DifficultyFilter) {
    MatchesSearch(t, term) && MatchesStatus(t, status) && MatchesDifficulty(t, difficulty)
  }

  function SearchStage(term: string): AdminTask -> bool { t => MatchesSearch(t, term) }
  function StatusStage(f: StatusFilter): AdminTask -> bool { t => MatchesStatus(t, f) }
  function DifficultyStage(f: DifficultyFilter): AdminTask -> bool { t => MatchesDifficulty(t, f) }
  function KeepAll(term: string, status: StatusFilter, difficulty: DifficultyFilter): AdminTask -> bool {
    t => Keep(t, term, status, difficulty)
  }

  /** An empty search term matches every task. */
  lemma EmptySearchMatches(t: AdminTask)
    ensures MatchesSearch(t, "")
  {
    assert Text.ToLower("") == "";
    Text.ContainsTrivial(Text.ToLower(t.title));
  }

  /** A stage the effect skips would have kept everything. */
  lemma SkippedStages(s: seq<AdminTask>)
    ensures Seqs.Filter(SearchStage(""), s) == s
    ensures Seqs.Filter(StatusStage(AllStatuses), s) == s
    ensures Seqs.Filter(DifficultyStage(AnyDifficulty), s) == s
  {
    forall i | 0 <= i < |s| ensures SearchStage("")(s[i]) { EmptySearchMatches(s[i]); }
    Seqs.FilterAll(SearchStage(""), s);
    Seqs.FilterAll(StatusStage(AllStatuses), s);
    Seqs.FilterAll(DifficultyStage(AnyDifficulty), s);
  }

  /** The three stages in a row keep what all three criteria together keep. */
  lemma {:induction false} StagesCompose(tasks: seq<AdminTask>, term: string, status: StatusFilter,
                                         difficulty: DifficultyFilter)
    ensures Seqs.Filter(DifficultyStage(difficulty),
              Seqs.Filter(StatusStage(status), Seqs.Filter(SearchStage(term), tasks)))
            == Seqs.Filter(KeepAll(term, status, difficulty), tasks)
  {
    if tasks != [] {
      StagesCompose(tasks[1..], term, status, difficulty);
    }
  }

  /** The filter effect: `filtered` starts as the whole list and each active
      criterion narrows it. The result is exactly the tasks meeting every
      criterion, in their original order. */
  method FilterTasks(tasks: seq<AdminTask>, term: string, status: StatusFilter, difficulty: DifficultyFilter)
    returns (filtered: seq<AdminTask>)
    ensures filtered == Seqs.Filter(KeepAll(term, status, difficulty), tasks)
    ensures Seqs.IsSubsequence(filtered, tasks)
    ensures forall i :: 0 <= i < |filtered| ==> Keep(filtered[i], term, status, difficulty)
    ensures forall i :: 0 <= i < |tasks| && Keep(tasks[i], term, status, difficulty) ==> tasks[i] in filtered
  {
    filtered := tasks;
    if term != "" {
      filtered := Seqs.Filter(SearchStage(term), filtered);
    } else {
      SkippedStages(tasks);
    }
    ghost var afterSearch := filtered;
    assert afterSearch == Seqs.Filter(SearchStage(term), tasks);
    if status != AllStatuses {
      filtered := Seqs.Filter(StatusStage(status), filtered);
    } else {
      SkippedStages(afterSearch);
    }
    ghost var afterStatus := filtered;
    assert afterStatus == Seqs.Filter(StatusStage(status), afterSearch);
    if difficulty.OnlyDifficulty? {
      filtered := Seqs.Filter(DifficultyStage(difficulty), filtered);
    } else {
      SkippedStages(afterStatus);
    }
    assert filtered == Seqs.Filter(DifficultyStage(difficulty), afterStatus);
    StagesCompose(tasks, term, status, difficulty);
    KeptExactly(tasks, term, status, difficulty);
  }

  /** What the composed filter keeps, stated on the criteria themselves. */
  lemma KeptExactly(tasks: seq<AdminTask>, term: string, status: StatusFilter, difficulty: DifficultyFilter)
    ensures var r := Seqs.Filter(KeepAll(term, status, difficulty), tasks);
      && (forall i :: 0 <= i < |r| ==> Keep(r[i], term, status, difficulty))
      && (forall i :: 0 <= i < |tasks| && Keep(tasks[i], term, status, difficulty) ==> tasks[i] in r)
  {
    var r := Seqs.Filter(KeepAll(term, status, difficulty), tasks);
    forall i | 0 <= i < |r| ensures Keep(r[i], term, status, difficulty) {
      assert KeepAll(term, status, difficulty)(r[i]);
    }
    forall i | 0 <= i < |tasks| && Keep(tasks[i], term, status, difficulty) ensures tasks[i] in r {
      assert KeepAll(term, status, difficulty)(tasks[i]);
    }
  }

  /** JavaScript truthiness of an optional number and an optional string. */
  predicate TruthyNumber(x: Option<int>) { x.Some? && x.value != 0 }
  predicate TruthyText(x: Option<string>) { x.Some? && x.value != "" }

  /** The guard of `handleCreateTask`: title, description and reward must all be truthy. */
  predicate CanCreate(title: Option<string>, description: Option<string>, reward: Option<int>)
    ensures CanCreate(title, description, reward) <==>
              title.Some? && title.value != "" && description.Some? && description.value != ""
              && reward.Some? && reward.value != 0
  {
    TruthyText(title) && TruthyText(description) && TruthyNumber(reward)
  }

  /** A task worth 0 cannot be created, whatever its title and description. */
  lemma ZeroRewardRefused(title: Option<string>, description: Option<string>)
    ensures !CanCreate(title, description, Some(0))
    ensures !CanCreate(title, description, None)
  {
  }

  /** `handleDuplicateTask(task)`: `Date.now()` and the ISO time are parameters. */
  function DuplicateTask(tasks: seq<AdminTask>, task: AdminTask, nowMillis: int, nowIso: string)
    : (r: seq<AdminTask>)
    ensures |r| == |tasks| + 1 && r[..|tasks|] == tasks
    ensures r[|tasks|] == task.(id := nowMillis, title := task.title + " (Copy)",
                                createdAt := nowIso, updatedAt := nowIso, completionCount := 0)
  {
    tasks + [task.(id := nowMillis, title := task.title + " (Copy)",
                   createdAt := nowIso, updatedAt := nowIso, completionCount := 0)]
  }

  /** `tasks.reduce((sum, t) => sum + t.completionCount, 0)`. */
  function TotalCompletions(tasks: seq<AdminTask>): (r: int)
    ensures (forall i :: 0 <= i < |tasks| ==> tasks[i].completionCount >= 0) ==> r >= 0
    ensures (forall i :: 0 <= i < |tasks| ==> tasks[i].completionCount == 0) ==> r == 0
  {
    if tasks == [] then 0 else TotalCompletions(tasks[..|tasks| - 1]) + tasks[|tasks| - 1].completionCount
  }

  /** `tasks.reduce((sum, t) => sum + t.reward * t.completionCount, 0)`. */
  function TotalRewards(tasks: seq<AdminTask>): (r: int)
    ensures (forall i :: 0 <= i < |tasks| ==> tasks[i].reward >= 0 && tasks[i].completionCount >= 0) ==> r >= 0
    ensures (forall i :: 0 <= i < |tasks| ==> tasks[i].completionCount == 0) ==> r == 0
  {
    if tasks == [] then 0
    else TotalRewards(tasks[..|tasks| - 1]) + tasks[|tasks| - 1].reward * tasks[|tasks| - 1].completionCount
  }

  /** Both totals add up over concatenation. */
  lemma {:induction false} TotalsAppend(a: seq<AdminTask>, b: seq<AdminTask>)
    ensures TotalCompletions(a + b) == TotalCompletions(a) + TotalCompletions(b)
    ensures TotalRewards(a + b) == TotalRewards(a) + TotalRewards(b)
    decreases |b|
  {
    if b != [] {
      assert (a + b)[..|a + b| - 1] == a + b[..|b| - 1];
      TotalsAppend(a, b[..|b| - 1]);
    } else {
      assert a + b == a;
    }
  }

  /** A duplicate starts at 0 completions, so neither total moves. */
  lemma DuplicateKeepsTotals(tasks: seq<AdminTask>, task: AdminTask, nowMillis: int, nowIso: string)
    ensures TotalCompletions(DuplicateTask(tasks, task, nowMillis, nowIso)) == TotalCompletions(tasks)
    ensures TotalRewards(DuplicateTask(tasks, task, nowMillis, nowIso)) == TotalRewards(tasks)
  {
    var r := DuplicateTask(tasks, task, nowMillis, nowIso);
    assert r[..|r| - 1] == tasks;
  }

  predicate NotBlank(line: string) { !Text.IsBlank(line) }

  /** The requirements box: `text.split('\n').filter(r => r.trim())`. Lines are
      kept as typed, untrimmed. */
  function ParseRequirements(text: string): (r: seq<string>)
    ensures forall i :: 0 <= i < |r| ==> !Text.IsBlank(r[i]) && '\n' !in r[i]
    ensures forall i :: 0 <= i < |r| ==> r[i] in Text.Split(text, '\n')
    ensures forall i :: 0 <= i < |Text.Split(text, '\n')| && !Text.IsBlank(Text.Split(text, '\n')[i]) ==>
              Text.Split(text, '\n')[i] in r
    ensures Seqs.IsSubsequence(r, Text.Split(text, '\n'))
  {
    Seqs.Filter(NotBlank, Text.Split(text, '\n'))
  }

  /** The box shows `requirements.join('\n')`; reading it back gives the same
      requirements, provided each is non-blank and holds no line break. */
  lemma RequirementsRoundTrip(reqs: seq<string>)
    requires forall i :: 0 <= i < |reqs| ==> !Text.IsBlank(reqs[i]) && '\n' !in reqs[i]
    ensures ParseRequirements(Text.Join(reqs, '\n')) == reqs
  {
    if reqs == [] {
      assert Text.Split("", '\n') == [""];
      assert Text.IsBlank("");
    } else {
      Text.SplitJoin(reqs, '\n');
      Seqs.FilterAll(NotBlank, reqs);
    }
  }
}
