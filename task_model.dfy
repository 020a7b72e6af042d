/** The task document of server/src/models/Task.ts: its fields and schema
    bounds and the `completionPercentage` and `isAvailable` members. */
module TaskModel {
  import opened Wrappers
  import Arith

  datatype TaskType = Daily | Weekly | OneTime | ReferralTask | SocialMedia
  datatype Difficulty = Easy | Medium | Hard
  /** A requirement; its `value` is a mixed-type field, modelled as text. */
  datatype Requirement = Requirement(kind: string, value: string)

  datatype Task = Task(
    title: string,
    description: string,
    kind: TaskType,
    reward: int,
    requirements: seq<Requirement>,
    isActive: bool,
    maxCompletions: Option<int>,
    currentCompletions: int,
    startDate: Option<int>,
    endDate: Option<int>,
    category: string,
    difficulty: Difficulty,
    estimatedTime: int,
    createdAt: int,
    updatedAt: int)

  /** The schema's length and numeric bounds. */
  predicate SchemaValid(t: Task) {
    |t.title| <= 100 && |t.description| <= 500 && t.reward >= 0
    && (t.maxCompletions.Some? ==> t.maxCompletions.value >= 1)
    && t.currentCompletions >= 0 && t.estimatedTime >= 1
  }

  /** A task created with only its required fields: the defaults apply. */
  function NewTask(title: string, description: string, kind: TaskType, reward: int,
                   category: string, now: int): (t: Task)
    ensures t.isActive && t.currentCompletions == 0 && t.maxCompletions.None?
    ensures t.difficulty == Easy && t.estimatedTime == 5 && t.requirements == []
    ensures |title| <= 100 && |description| <= 500 && reward >= 0 ==> SchemaValid(t)
  {
    Task(title, description, kind, reward, [], true, None, 0, None, None, category, Easy, 5, now, now)
  }

  /** `this.maxCompletions` is truthy: present and not zero. */
  predicate HasCap(t: Task) {
    t.maxCompletions.Some? && t.maxCompletions.value != 0
  }

  /** The completion cap is set and reached. */
  predicate CapReached(t: Task) {
    HasCap(t) && t.currentCompletions >= t.maxCompletions.value
  }

  /** `Math.round(x)`, that is `floor(x + 1/2)`, of the exact quotient `n / d`. */
  function RoundQuotient(n: int, d: int): int
    requires d != 0
  {
    (n as real / d as real + 0.5).Floor
  }

  /** On a positive divisor the rounding is integer arithmetic. */
  lemma RoundQuotientInt(n: int, d: int)
    requires d > 0
    ensures RoundQuotient(n, d) == (2 * n + d) / (2 * d)
  {
    var q := (2 * n + d) / (2 * d);
    var r := (2 * n + d) % (2 * d);
    QuotientSplit(n, d, q, r);
    FractionBelowOne(r, 2 * d);
  }

  lemma FractionBelowOne(r: int, m: int)
    requires 0 <= r < m
    ensures 0.0 <= r as real / m as real < 1.0
  {
    var f := r as real / m as real;
    assert f * m as real == r as real;
  }

  /** `n / d + 1/2` as a whole part `q` and a fraction `r / 2d`. */
  lemma QuotientSplit(n: int, d: int, q: int, r: int)
    requires d > 0 && 2 * n + d == 2 * d * q + r
    ensures n as real / d as real + 0.5 == q as real + r as real / (2 * d) as real
  {
    var nr, dr, qr, rr := n as real, d as real, q as real, r as real;
    var dd := 2.0 * dr;
    assert (nr / dr) * dr == nr;
    assert (rr / dd) * dd == rr;
    var lhs, rhs := nr / dr + 0.5, qr + rr / dd;
    assert lhs * dd == 2.0 * nr + dr;
    assert rhs * dd == qr * dd + rr;
    assert 2.0 * nr + dr == qr * dd + rr;
    assert (lhs - rhs) * dd == 0.0;
    assert lhs - rhs == ((lhs - rhs) * dd) / dd;
  }

  /** The `completionPercentage` virtual. */
  function CompletionPercentage(t: Task): (p: int)
    ensures !HasCap(t) ==> p == 0
    ensures HasCap(t) ==> p == RoundQuotient(t.currentCompletions * 100, t.maxCompletions.value)
  {
    if !HasCap(t) then 0
    else RoundQuotient(t.currentCompletions * 100, t.maxCompletions.value)
  }

  /** Within the schema the percentage is 0..100 while the cap is not overrun,
      100 exactly at the cap and 0 before the first completion. */
  lemma CompletionPercentageBounds(t: Task)
    requires SchemaValid(t) && HasCap(t)
    ensures t.currentCompletions <= t.maxCompletions.value ==> 0 <= CompletionPercentage(t) <= 100
    ensures t.currentCompletions == t.maxCompletions.value ==> CompletionPercentage(t) == 100
    ensures t.currentCompletions == 0 ==> CompletionPercentage(t) == 0
  {
    var c, m := t.currentCompletions, t.maxCompletions.value;
    RoundQuotientInt(c * 100, m);
    assert CompletionPercentage(t) == (200 * c + m) / (2 * m);
    if c <= m {
      Arith.DivBounds(200 * c + m, 2 * m, 100);
    }
    if c == m {
      Arith.DivExact(200 * c + m, 2 * m, 100, m);
    }
    if c == 0 {
      Arith.DivExact(200 * c + m, 2 * m, 0, m);
    }
  }

  /** The `isAvailable` method, with `new Date()` as the parameter `now`. */
  function IsAvailable(t: Task, now: int): (b: bool)
    ensures !t.isActive ==> !b
    ensures t.startDate.Some? && now < t.startDate.value ==> !b
    ensures t.endDate.Some? && now > t.endDate.value ==> !b
    ensures CapReached(t) ==> !b
    ensures b <==> t.isActive
                   && (t.startDate.None? || t.startDate.value <= now)
                   && (t.endDate.None? || now <= t.endDate.value)
                   && !CapReached(t)
  {
    if !t.isActive then false
    else if t.startDate.Some? && now < t.startDate.value then false
    else if t.endDate.Some? && now > t.endDate.value then false
    else if HasCap(t) && t.currentCompletions >= t.maxCompletions.value then false
    else true
  }
}
