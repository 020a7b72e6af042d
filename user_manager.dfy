/** The admin user list of src/admin/components/UserManager.tsx: filtering and
    in-place sorting, the per-user actions, pagination, risk bands and the
    "time ago" label. */
module UserManager {
  import opened Wrappers
  import Seqs
  import Sorting
  import Text

  datatype AccountStatus = Active | Suspended | Banned | Pending
  /** The list's own `role`: 'user', 'premium' or 'vip'. */
  datatype Plan = Regular | Premium | Vip

  /** A row of the list. `joinDate` and `lastActive` are the instants the ISO
      strings denote, in milliseconds. */
  datatype Member = Member(
    id: string,
    username: string,
    email: string,
    avatar: string,
    level: int,
    coins: int,
    totalEarned: int,
    referrals: int,
    tasksCompleted: int,
    status: AccountStatus,
    role: Plan,
    joinDate: int,
    lastActive: int,
    country: string,
    verified: bool,
    walletConnected: bool,
    walletAddress: Option<string>,
    withdrawalCount: int,
    totalWithdrawn: int,
    riskScore: int,
    notes: Option<string>)

  datatype StatusFilter = AnyStatus | OnlyStatus(status: AccountStatus)
  datatype PlanFilter = AnyPlan | OnlyPlan(role: Plan)
  datatype SortField = ByUsername | ByCoins | ByLevel | ByJoinDate | ByLastActive
  datatype SortOrder = Ascending | Descending

  /** The lowercased term occurs in the lowercased username, email or id. */
  predicate MatchesSearch(m: Member, term: string) {
    var needle := Text.ToLower(term);
    Text.Contains(Text.ToLower(m.username), needle)
    || Text.Contains(Text.ToLower(m.email), needle)
    || Text.Contains(Text.ToLower(m.id), needle)
  }

  predicate MatchesStatus(m: Member, f: StatusFilter) { f.AnyStatus? || m.status == f.status }
  predicate MatchesPlan(m: Member, f: PlanFilter) { f.AnyPlan? || m.role == f.role }

  /** What a listed member satisfies. */
  predicate Keep(m: Member, term: string, status: StatusFilter, role: PlanFilter) {
    MatchesSearch(m, term) && MatchesStatus(m, status) && MatchesPlan(m, role)
  }

  function SearchStage(term: string): Member -> bool { m => MatchesSearch(m, term) }
  function StatusStage(f: StatusFilter): Member -> bool { m => MatchesStatus(m, f) }
  function PlanStage(f: PlanFilter): Member -> bool { m => MatchesPlan(m, f) }
  function KeepAll(term: string, status: StatusFilter, role: PlanFilter): Member -> bool {
    m => Keep(m, term, status, role)
  }

  /** The value the comparator reads for `sortBy`; dates compare by `getTime()`. */
  function FieldKey(m: Member, field: SortField): Sorting.SortKey {
    match field
    case ByUsername => Sorting.TextKey(m.username)
    case ByCoins => Sorting.IntKey(m.coins)
    case ByLevel => Sorting.IntKey(m.level)
    case ByJoinDate => Sorting.IntKey(m.joinDate)
    case ByLastActive => Sorting.IntKey(m.lastActive)
  }

  function KeyOf(field: SortField): Member -> Sorting.SortKey { m => FieldKey(m, field) }

  /** What the list shows: the matching members, ordered by the chosen field. */
  function Listed(users: seq<Member>, term: string, status: StatusFilter, role: PlanFilter,
                  field: SortField, order: SortOrder): seq<Member>
  {
    Sorting.SortBy(Seqs.Filter(KeepAll(term, status, role), users), KeyOf(field), order == Descending)
  }

  /** The listing is a permutation of exactly the members meeting every
      criterion, ordered by the field in the chosen direction. */
  lemma ListedMeaning(users: seq<Member>, term: string, status: StatusFilter, role: PlanFilter,
                      field: SortField, order: SortOrder)
    ensures var r := Listed(users, term, status, role, field, order);
      && Sorting.Sorted(r, KeyOf(field), order == Descending)
      && multiset(r) == multiset(Seqs.Filter(KeepAll(term, status, role), users))
      && (forall i :: 0 <= i < |r| ==> Keep(r[i], term, status, role))
      && (forall i :: 0 <= i < |users| && Keep(users[i], term, status, role) ==> users[i] in r)
  {
    var kept := Seqs.Filter(KeepAll(term, status, role), users);
    var r := Listed(users, term, status, role, field, order);
    Sorting.SortBySorted(kept, KeyOf(field), order == Descending);
    forall i | 0 <= i < |r| ensures Keep(r[i], term, status, role) {
      assert r[i] in multiset(kept);
      var k :| 0 <= k < |kept| && kept[k] == r[i];
      assert KeepAll(term, status, role)(kept[k]);
    }
    forall i | 0 <= i < |users| && Keep(users[i], term, status, role) ensures users[i] in r {
      assert KeepAll(term, status, role)(users[i]);
      assert users[i] in multiset(kept);
    }
  }

  /** A stage the function skips would have kept everything. */
  lemma SkippedStages(s: seq<Member>)
    ensures Seqs.Filter(SearchStage(""), s) == s
    ensures Seqs.Filter(StatusStage(AnyStatus), s) == s
    ensures Seqs.Filter(PlanStage(AnyPlan), s) == s
  {
    forall i | 0 <= i < |s| ensures SearchStage("")(s[i]) {
      assert Text.ToLower("") == "";
      Text.ContainsTrivial(Text.ToLower(s[i].username));
    }
    Seqs.FilterAll(SearchStage(""), s);
    Seqs.FilterAll(StatusStage(AnyStatus), s);
    Seqs.FilterAll(PlanStage(AnyPlan), s);
  }

  /** The three stages in a row keep what the three criteria together keep. */
  lemma {:induction false} StagesCompose(s: seq<Member>, term: string, status: StatusFilter, role: PlanFilter)
    ensures Seqs.Filter(PlanStage(role), Seqs.Filter(StatusStage(status), Seqs.Filter(SearchStage(term), s)))
            == Seqs.Filter(KeepAll(term, status, role), s)
  {
    if s != [] {
      StagesCompose(s[1..], term, status, role);
    }
  }

  /** `Array.prototype.filter`: a new array. */
  method FilterArray<T>(a: array<T>, p: T -> bool) returns (b: array<T>)
    ensures fresh(b) && b[..] == Seqs.Filter(p, a[..])
  {
    var s := Seqs.Filter(p, a[..]);
    b := new T[|s|](i requires 0 <= i < |s| => s[i]);
  }

  /** `Array.prototype.sort` with a key comparator: the array is reordered in
      place. The order of equal keys is the model's (see Sorting). */
  method SortInPlace<T>(a: array<T>, key: T -> Sorting.SortKey, desc: bool)
    modifies a
    ensures a[..] == Sorting.SortBy(old(a[..]), key, desc)
  {
    var sorted := Sorting.SortBy(a[..], key, desc);
    for i := 0 to a.Length
      invariant forall j :: 0 <= j < i ==> a[j] == sorted[j]
    {
      a[i] := sorted[i];
    }
    assert a[..] == sorted;
  }

  /** The component's state. `filteredUsers` may be the very array `users`. */
  class Manager {
    var users: array<Member>
    var filteredUsers: array<Member>
    var searchTerm: string
    var statusFilter: StatusFilter
    var roleFilter: PlanFilter
    var sortBy: SortField
    var sortOrder: SortOrder
    var currentPage: int

    /** The state after `loadUsers`, before the filter effect runs. */
    constructor Load(loaded: seq<Member>)
      ensures fresh(users) && users[..] == loaded && filteredUsers[..] == []
      ensures searchTerm == "" && statusFilter == AnyStatus && roleFilter == AnyPlan
      ensures sortBy == ByJoinDate && sortOrder == Descending && currentPage == 1
    {
      users := new Member[|loaded|](i requires 0 <= i < |loaded| => loaded[i]);
      filteredUsers := new Member[0];
      searchTerm, statusFilter, roleFilter := "", AnyStatus, AnyPlan;
      sortBy, sortOrder, currentPage := ByJoinDate, Descending, 1;
    }

    predicate NoFilter()
      reads this
    {
      searchTerm == "" && statusFilter == AnyStatus && roleFilter == AnyPlan
    }

    /** `filterAndSortUsers`. The filters build new arrays; the sort then works
        in place, so when no filter applies it reorders `users` itself. */
    method FilterAndSortUsers()
      modifies this, users
      ensures users == old(users)
      ensures filteredUsers[..] == Listed(old(users[..]), searchTerm, statusFilter, roleFilter, sortBy, sortOrder)
      ensures currentPage == 1
      ensures NoFilter() ==> filteredUsers == users
      ensures !NoFilter() ==> fresh(filteredUsers) && users[..] == old(users[..])
      ensures searchTerm == old(searchTerm) && statusFilter == old(statusFilter) && roleFilter == old(roleFilter)
      ensures sortBy == old(sortBy) && sortOrder == old(sortOrder)
    {
      ghost var before := users[..];
      var filtered := ApplyFilters(users, searchTerm, statusFilter, roleFilter);
      SortInPlace(filtered, KeyOf(sortBy), sortOrder == Descending);
      assert filtered[..] == Listed(before, searchTerm, statusFilter, roleFilter, sortBy, sortOrder);
      if !NoFilter() {
        // the sort reordered a fresh copy
        assert users[..] == before;
      }
      filteredUsers := filtered;
      currentPage := 1;
    }
  }

  /** The three filter steps of `filterAndSortUsers`: each active criterion
      replaces `filtered` by a filtered copy; with none active the same array
      comes back. */
  method ApplyFilters(users: array<Member>, term: string, status: StatusFilter, role: PlanFilter)
    returns (filtered: array<Member>)
    ensures filtered[..] == Seqs.Filter(KeepAll(term, status, role), users[..])
    ensures term == "" && status == AnyStatus && role == AnyPlan ==> filtered == users
    ensures !(term == "" && status == AnyStatus && role == AnyPlan) ==> fresh(filtered)
  {
    filtered := users;
    ghost var all := users[..];
    if term != "" {
      filtered := FilterArray(filtered, SearchStage(term));
    } else {
      SkippedStages(all);
    }
    ghost var afterSearch := filtered[..];
    assert afterSearch == Seqs.Filter(SearchStage(term), all);
    if status != AnyStatus {
      filtered := FilterArray(filtered, StatusStage(status));
    } else {
      SkippedStages(afterSearch);
    }
    ghost var afterStatus := filtered[..];
    assert afterStatus == Seqs.Filter(StatusStage(status), afterSearch);
    if role != AnyPlan {
      filtered := FilterArray(filtered, PlanStage(role));
    } else {
      SkippedStages(afterStatus);
    }
    assert filtered[..] == Seqs.Filter(PlanStage(role), afterStatus);
    StagesCompose(all, term, status, role);
  }

  datatype Action = Suspend | Ban | Activate | Verify | Delete

  /** What a non-delete action does to its target. */
  function Applied(m: Member, action: Action): (r: Member)
    ensures action == Suspend ==> r == m.(status := Suspended)
    ensures action == Ban ==> r == m.(status := Banned)
    ensures action == Activate ==> r == m.(status := Active)
    ensures action == Verify ==> r == m.(verified := true)
    ensures action == Delete ==> r == m
  {
    match action
    case Suspend => m.(status := Suspended)
    case Ban => m.(status := Banned)
    case Activate => m.(status := Active)
    case Verify => m.(verified := true)
    case Delete => m
  }

  predicate Differs(m: Member, userId: string) { m.id != userId }
  function Survivor(userId: string): Member -> bool { m => Differs(m, userId) }

  /** `handleUserAction`; `confirmed` is the answer to the delete dialog. */
  function UserAction(users: seq<Member>, userId: string, action: Action, confirmed: bool): (r: seq<Member>)
    ensures action == Delete && !confirmed ==> r == users
    ensures action == Delete && confirmed ==>
              && Seqs.IsSubsequence(r, users)
              && (forall i :: 0 <= i < |r| ==> r[i].id != userId)
              && (forall i :: 0 <= i < |users| && users[i].id != userId ==> users[i] in r)
    ensures action != Delete ==>
              |r| == |users|
              && forall i :: 0 <= i < |r| ==> r[i] == if users[i].id == userId then Applied(users[i], action) else users[i]
  {
    if action == Delete then
      if confirmed then
        var r := Seqs.Filter(Survivor(userId), users);
        assert forall i :: 0 <= i < |r| ==> Survivor(userId)(r[i]);
        assert forall i :: 0 <= i < |users| && users[i].id != userId ==> Survivor(userId)(users[i]);
        r
      else users
    else seq(|users|, i requires 0 <= i < |users| => if users[i].id == userId then Applied(users[i], action) else users[i])
  }

  /** Repeating an action changes nothing more. */
  lemma ActionIdempotent(users: seq<Member>, userId: string, action: Action, confirmed: bool)
    ensures var once := UserAction(users, userId, action, confirmed);
            UserAction(once, userId, action, confirmed) == once
  {
    var once := UserAction(users, userId, action, confirmed);
    if action == Delete && confirmed {
      Seqs.FilterAll(Survivor(userId), once);
    }
  }

  /** An action on one id never touches a member with another id. */
  lemma ActionTargetsOneId(users: seq<Member>, userId: string, action: Action, confirmed: bool, i: nat)
    requires i < |users| && users[i].id != userId
    ensures users[i] in UserAction(users, userId, action, confirmed)
  {
  }

  const UsersPerPage := 20

  function TotalPages(n: nat): (t: nat)
    ensures t * UsersPerPage >= n && (t == 0 || (t - 1) * UsersPerPage < n)
  {
    (n + UsersPerPage - 1) / UsersPerPage
  }

  /** The rows of the current page: `slice(page * 20 - 20, page * 20)`. */
  function CurrentUsers(filtered: seq<Member>, page: int): (r: seq<Member>)
    ensures |r| <= UsersPerPage
    ensures page >= 1 ==> forall i :: 0 <= i < |r| ==>
              (page - 1) * UsersPerPage + i < |filtered| && r[i] == filtered[(page - 1) * UsersPerPage + i]
  {
    Seqs.JsSlice(filtered, page * UsersPerPage - UsersPerPage, page * UsersPerPage)
  }

  /** Page `p` (from 1) holds positions `[(p-1)*20, p*20)` of the list; it is
      non-empty exactly when it is one of the `TotalPages` pages. */
  lemma PageContents(filtered: seq<Member>, page: int)
    requires page >= 1
    ensures var r := CurrentUsers(filtered, page);
      && |r| <= UsersPerPage
      && (forall i :: 0 <= i < |r| ==> r[i] == filtered[(page - 1) * UsersPerPage + i])
      && (r != [] <==> page <= TotalPages(|filtered|))
  {
    var t := TotalPages(|filtered|);
    if page <= t {
      assert (page - 1) * UsersPerPage <= (t - 1) * UsersPerPage;
    } else {
      assert t * UsersPerPage <= (page - 1) * UsersPerPage;
    }
  }

  /** `Math.max(1, currentPage - 1)`. */
  function Previous(page: int): (r: int)
    ensures r >= 1 && r >= page - 1 && (r == 1 || r == page - 1)
  {
    if page - 1 < 1 then 1 else page - 1
  }

  /** `Math.min(totalPages, currentPage + 1)`. */
  function Next(page: int, totalPages: int): (r: int)
    ensures r <= totalPages && r <= page + 1 && (r == totalPages || r == page + 1)
  {
    if page + 1 < totalPages then page + 1 else totalPages
  }

  /** The buttons keep the page among the existing pages; Previous stops at the
      first page and Next at the last. */
  lemma PagerStaysInRange(page: int, totalPages: int)
    requires 1 <= page <= totalPages
    ensures 1 <= Previous(page) <= totalPages && 1 <= Next(page, totalPages) <= totalPages
    ensures Previous(page) == (if page == 1 then 1 else page - 1)
    ensures Next(page, totalPages) == (if page == totalPages then page else page + 1)
  {
  }

  datatype RiskBand = Green | Yellow | Red

  function Band(score: int): (b: RiskBand)
    ensures b == Red <==> score >= 70
    ensures b == Yellow <==> 40 <= score < 70
    ensures b == Green <==> score < 40
  {
    if score >= 70 then Red else if score >= 40 then Yellow else Green
  }

  function BandRank(b: RiskBand): nat { match b case Green => 0 case Yellow => 1 case Red => 2 }

  /** A higher score never gets a milder band. */
  lemma BandMonotone(a: int, b: int)
    requires a <= b
    ensures BandRank(Band(a)) <= BandRank(Band(b))
  {
  }

  datatype TimeAgo = JustNow | HoursAgo(hours: nat) | DaysAgo(days: nat) | ShownAsDate

  const MillisPerHour := 3600000

  /** `formatTimeAgo` on the milliseconds elapsed. JavaScript divides in
      floating point; the model uses the exact quotient. */
  function AgoOf(elapsed: int): (r: TimeAgo)
    ensures r == JustNow <==> elapsed < MillisPerHour
    ensures r.HoursAgo? <==> MillisPerHour <= elapsed < 24 * MillisPerHour
    ensures r.DaysAgo? <==> 24 * MillisPerHour <= elapsed < 168 * MillisPerHour
    ensures r == ShownAsDate <==> elapsed >= 168 * MillisPerHour
    ensures r.HoursAgo? ==> r.hours * MillisPerHour <= elapsed < (r.hours + 1) * MillisPerHour
    ensures r.DaysAgo? ==> r.days * 24 * MillisPerHour <= elapsed < (r.days + 1) * 24 * MillisPerHour
  {
    if elapsed < MillisPerHour then JustNow
    else if elapsed < 24 * MillisPerHour then HoursAgo(elapsed / MillisPerHour)
    else if elapsed < 168 * MillisPerHour then DaysAgo(elapsed / (24 * MillisPerHour))
    else ShownAsDate
  }

  /** The text shown; a date is rendered by `toLocaleDateString`, which is not
      part of this model. */
  function AgoLabel(t: TimeAgo): (r: Option<string>)
    ensures r.None? <==> t == ShownAsDate
  {
    match t
    case JustNow => Some("Just now")
    case HoursAgo(h) => Some(Text.NatToString(h) + "h ago")
    case DaysAgo(d) => Some(Text.NatToString(d) + "d ago")
    case ShownAsDate => None
  }

  /** The text `formatTimeAgo` shows, from the milliseconds elapsed. */
  lemma AgoText(elapsed: int)
    ensures var l := AgoLabel(AgoOf(elapsed));
            && (elapsed < MillisPerHour ==> l == Some("Just now"))
            && (MillisPerHour <= elapsed < 24 * MillisPerHour ==>
                  l == Some(Text.NatToString(elapsed / MillisPerHour) + "h ago"))
            && (24 * MillisPerHour <= elapsed < 168 * MillisPerHour ==>
                  l == Some(Text.NatToString(elapsed / (24 * MillisPerHour)) + "d ago"))
            && (elapsed >= 168 * MillisPerHour ==> l.None?)
  {
  }
}
