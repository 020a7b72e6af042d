/** The user handlers of server/src/controllers/user.controller.ts: paged
    listing, lookups by id, admin update and delete, the caller's own profile
    and the leaderboard. */
module UserController {
  import opened Wrappers
  import opened UserModel
  import Store
  import Paging
  import Sorting
  import Seqs

  type Json = map<string, Value>

  /** `getAllUsers`: a window of the collection, each user without its password. */
  function ListUsers(all: seq<User>, page: Paging.QueryNumber, limit: Paging.QueryNumber)
    : (r: Result<Paging.Listing<Json>, Store.Failure>)
    ensures r.Failure? <==> Paging.ParseQuery(page, limit).skip < 0
    ensures r.Success? ==> r.value.total == |all|
    ensures r.Success? ==>
              var q := Paging.ParseQuery(page, limit);
              && r.value.items == Seqs.Slice(Seqs.Map(PublicJSON, all), q.skip, q.skip + Paging.PageSize(q.limit))
              && r.value.page == q.page && r.value.limit == q.limit
    ensures r.Success? ==> forall i :: 0 <= i < |r.value.items| ==> "password" !in r.value.items[i]
  {
    Paging.Window(Seqs.Map(PublicJSON, all), Paging.ParseQuery(page, limit))
  }

  /** `getUserById`. */
  function GetUserById(users: map<nat, User>, id: nat): (r: Result<Json, Store.Failure>)
    ensures id !in users <==> r == Failure(Store.Reply(404, "User not found"))
    ensures r.Success? ==> id in users && r.value == PublicJSON(users[id]) && "password" !in r.value
  {
    if id !in users then Failure(Store.Reply(404, "User not found")) else Success(PublicJSON(users[id]))
  }

  /** `getProfile`: the caller's own document; no id at all finds nothing. */
  function GetProfile(users: map<nat, User>, userId: Option<nat>): (r: Result<Json, Store.Failure>)
    ensures userId.None? ==> r == Failure(Store.Reply(404, "User not found"))
    ensures userId.Some? ==> r == GetUserById(users, userId.value)
  {
    if userId.None? then Failure(Store.Reply(404, "User not found")) else GetUserById(users, userId.value)
  }

  /** `deleteUser`. */
  method DeleteUser(db: Store.Database, id: nat) returns (r: Result<(), Store.Failure>)
    requires db.Valid()
    modifies db
    ensures db.Valid()
    ensures db.tasks == old(db.tasks) && db.payments == old(db.payments) && db.nextId == old(db.nextId)
    ensures id !in old(db.users) <==> r == Failure(Store.Reply(404, "User not found"))
    ensures id !in old(db.users) ==> db.users == old(db.users)
    ensures r.Success? ==> db.users == old(db.users) - {id}
    ensures Store.DriftKept(old(db.users), db.users)
    ensures Store.Balanced(old(db.users)) ==> Store.Balanced(db.users)
  {
    if id !in db.users {
      return Failure(Store.Reply(404, "User not found"));
    }
    db.users := db.users - {id};
    r := Success(());
  }

  /** The string, number and boolean paths of the user schema that an update
      body may set. Strict mode drops every other key. */
  const StringPaths: set<string> := {"email", "password", "username", "firstName", "lastName",
                                     "telegramUsername", "walletAddress", "role", "referralCode"}
  const NumberPaths: set<string> := {"balance", "totalEarned", "totalWithdrawn", "referralCount", "loginStreak"}
  const BooleanPaths: set<string> := {"isVerified", "isActive"}

  /** The paths whose change moves a user's drift. */
  const LedgerPaths: set<string> := {"balance", "totalEarned", "totalWithdrawn"}

  /** The cast of the update: each schema path the body names holds a JSON
      value of that path's type. */
  predicate Casts(body: Json) {
    forall k :: k in body ==>
      && (k in StringPaths ==> body[k].Str?)
      && (k in NumberPaths ==> body[k].Int?)
      && (k in BooleanPaths ==> body[k].Bool?)
  }

  /** The update validators of one path on its value: `min: 0` on the numbers,
      the role enum, `required` with the length bounds on the strings. */
  predicate PathValid(k: string, v: Value) {
    if k in NumberPaths then v.Int? && v.n >= 0
    else if k == "role" then v.Str? && ParseRole(v.s).Some?
    else if k == "password" then v.Str? && |v.s| >= 6
    else if k == "username" then v.Str? && 3 <= |v.s| <= 30
    else if k == "firstName" || k == "lastName" then v.Str? && |v.s| <= 50
    else if k == "email" || k == "referralCode" then v.Str? && v.s != ""
    else true
  }

  /** Update validators run only on the paths the body names. */
  predicate UpdateValid(body: Json) {
    forall k :: k in body ==> PathValid(k, body[k])
  }

  function StringAt(body: Json, k: string, d: string): string {
    if k in body && body[k].Str? then body[k].s else d
  }

  function OptionalAt(body: Json, k: string, d: Option<string>): Option<string> {
    if k in body && body[k].Str? then Some(body[k].s) else d
  }

  function NumberAt(body: Json, k: string, d: int): int {
    if k in body && body[k].Int? then body[k].n else d
  }

  function BooleanAt(body: Json, k: string, d: bool): bool {
    if k in body && body[k].Bool? then body[k].b else d
  }

  function RoleAt(body: Json, d: Role): Role {
    if "role" in body && body["role"].Str? && ParseRole(body["role"].s).Some?
    then ParseRole(body["role"].s).value else d
  }

  /** The document after the `$set` of the body's values. No save hook runs on
      `findByIdAndUpdate`, so a password in the body is stored as sent. */
  function ApplyUpdate(u: User, body: Json): (v: User)
    ensures "password" in body && body["password"].Str? ==> v.password == body["password"].s
    ensures "password" !in body ==> v.password == u.password
    ensures v.createdAt == u.createdAt && v.updatedAt == u.updatedAt
    ensures v.referredBy == u.referredBy && v.lastLogin == u.lastLogin
  {
    u.(email := StringAt(body, "email", u.email),
       password := StringAt(body, "password", u.password),
       username := StringAt(body, "username", u.username),
       firstName := OptionalAt(body, "firstName", u.firstName),
       lastName := OptionalAt(body, "lastName", u.lastName),
       telegramUsername := OptionalAt(body, "telegramUsername", u.telegramUsername),
       walletAddress := OptionalAt(body, "walletAddress", u.walletAddress),
       role := RoleAt(body, u.role),
       isVerified := BooleanAt(body, "isVerified", u.isVerified),
       isActive := BooleanAt(body, "isActive", u.isActive),
       balance := NumberAt(body, "balance", u.balance),
       totalEarned := NumberAt(body, "totalEarned", u.totalEarned),
       totalWithdrawn := NumberAt(body, "totalWithdrawn", u.totalWithdrawn),
       referralCode := StringAt(body, "referralCode", u.referralCode),
       referralCount := NumberAt(body, "referralCount", u.referralCount),
       loginStreak := NumberAt(body, "loginStreak", u.loginStreak))
  }

  /** A body naming no schema path changes nothing. */
  lemma UpdateOfNoPath(u: User, body: Json)
    requires forall k :: k in body ==> k !in StringPaths && k !in NumberPaths && k !in BooleanPaths
    ensures ApplyUpdate(u, body) == u
  {
  }

  /** A body that casts and passes its validators keeps a schema-valid user schema-valid. */
  lemma UpdateKeepsSchema(u: User, body: Json)
    requires Casts(body) && UpdateValid(body) && SchemaValid(u)
    ensures SchemaValid(ApplyUpdate(u, body))
  {
    forall k | k in NumberPaths && k in body
      ensures body[k].n >= 0
    {
      assert PathValid(k, body[k]);
    }
  }

  /** A body naming no ledger path keeps the drift. */
  lemma UpdateKeepsDrift(u: User, body: Json)
    requires forall k :: k in body ==> k !in LedgerPaths
    ensures Drift(ApplyUpdate(u, body)) == Drift(u)
  {
  }

  /** Sending the same body twice is sending it once. */
  lemma UpdateIdempotent(u: User, body: Json)
    ensures ApplyUpdate(ApplyUpdate(u, body), body) == ApplyUpdate(u, body)
  {
  }

  /** The validators refuse an empty email and a negative balance, and the cast
      refuses a non-numeric balance, whatever the stored users. */
  lemma UpdateRefusals()
    ensures !UpdateValid(map["email" := Str("")])
    ensures !UpdateValid(map["referralCode" := Str("")])
    ensures Casts(map["balance" := Int(-1)]) && !UpdateValid(map["balance" := Int(-1)])
    ensures !Casts(map["balance" := Str("abc")])
  {
    var email, code := map["email" := Str("")], map["referralCode" := Str("")];
    assert "email" in email && !PathValid("email", email["email"]);
    assert "referralCode" in code && !PathValid("referralCode", code["referralCode"]);
    assert PathValid("balance", Int(-1)) == false;
    assert "balance" in map["balance" := Str("abc")];
  }

  /** `updateUser`: `findByIdAndUpdate(id, body, { new: true, runValidators: true })`.
      The update is cast and validated before the query is sent, so a body
      that fails either throws whether or not the id names a user. */
  method UpdateUser(db: Store.Database, id: nat, body: Json, now: int)
    returns (r: Result<Json, Store.Failure>)
    requires db.Valid()
    modifies db
    ensures db.Valid()
    ensures db.tasks == old(db.tasks) && db.payments == old(db.payments) && db.nextId == old(db.nextId)
    ensures !Casts(body) ==> r == Failure(Store.Thrown("Cast failed"))
    ensures Casts(body) && !UpdateValid(body) ==> r == Failure(Store.Thrown("Validation failed"))
    ensures Casts(body) && UpdateValid(body) && id !in old(db.users) ==>
              r == Failure(Store.Reply(404, "User not found"))
    ensures Casts(body) && UpdateValid(body) && id in old(db.users)
            && !Store.FitsIndexes(old(db.users), id, Stamped(ApplyUpdate(old(db.users)[id], body), now)) ==>
              r == Failure(Store.Thrown("duplicate key"))
    ensures r.Failure? ==> db.users == old(db.users)
    ensures r.Success? <==>
              Casts(body) && UpdateValid(body) && id in old(db.users)
              && Store.FitsIndexes(old(db.users), id, Stamped(ApplyUpdate(old(db.users)[id], body), now))
    ensures r.Success? ==>
              id in old(db.users)
              && db.users == old(db.users)[id := Stamped(ApplyUpdate(old(db.users)[id], body), now)]
              && r.value == PublicJSON(db.users[id])
    ensures (forall k :: k in body ==> k !in LedgerPaths) ==> Store.DriftKept(old(db.users), db.users)
  {
    if !Casts(body) {
      return Failure(Store.Thrown("Cast failed"));
    }
    if !UpdateValid(body) {
      return Failure(Store.Thrown("Validation failed"));
    }
    if id !in db.users {
      return Failure(Store.Reply(404, "User not found"));
    }
    var u := Stamped(ApplyUpdate(db.users[id], body), now);
    if !Store.FitsIndexes(db.users, id, u) {
      return Failure(Store.Thrown("duplicate key"));
    }
    UpdateKeepsSchema(db.users[id], body);
    if forall k :: k in body ==> k !in LedgerPaths {
      UpdateKeepsDrift(db.users[id], body);
      Store.WriteDrift(db.users, id, u);
    }
    Store.WriteUser(db.users, db.tasks, db.payments, db.nextId, id, u);
    db.users := db.users[id := u];
    r := Success(PublicJSON(u));
  }

  /** The document after `updateProfile`'s assignments: each of the four fields
      takes the body's value only when that value is truthy. */
  function ProfileEdit(u: User, username: Option<string>, email: Option<string>,
                       telegramUsername: Option<string>, walletAddress: Option<string>): (v: User)
    ensures v.balance == u.balance && v.totalEarned == u.totalEarned
    ensures v.totalWithdrawn == u.totalWithdrawn && v.role == u.role
    ensures v.username == (if Present(username) then username.value else u.username)
    ensures v.email == (if Present(email) then email.value else u.email)
    ensures v.telegramUsername == (if Present(telegramUsername) then telegramUsername else u.telegramUsername)
    ensures v.walletAddress == (if Present(walletAddress) then walletAddress else u.walletAddress)
    ensures v == u.(username := v.username, email := v.email,
                    telegramUsername := v.telegramUsername, walletAddress := v.walletAddress)
    ensures !Present(username) && !Present(email) && !Present(telegramUsername) && !Present(walletAddress) ==> v == u
  {
    var u1 := if Present(username) then u.(username := username.value) else u;
    var u2 := if Present(email) then u1.(email := email.value) else u1;
    var u3 := if Present(telegramUsername) then u2.(telegramUsername := telegramUsername) else u2;
    if Present(walletAddress) then u3.(walletAddress := walletAddress) else u3
  }

  /** The profile fields are outside the schema bounds and the ledger. */
  lemma ProfileEditKeepsLedger(u: User, username: Option<string>, email: Option<string>,
                               telegramUsername: Option<string>, walletAddress: Option<string>)
    ensures var v := ProfileEdit(u, username, email, telegramUsername, walletAddress);
            SchemaValid(v) == SchemaValid(u) && Drift(v) == Drift(u)
  {
  }

  /** `updateProfile`: the fields are assigned one by one on the loaded
      document, which is then saved. */
  method UpdateProfile(db: Store.Database, userId: Option<nat>, username: Option<string>, email: Option<string>,
                       telegramUsername: Option<string>, walletAddress: Option<string>, now: int)
    returns (r: Result<Json, Store.Failure>)
    requires db.Valid()
    modifies db
    ensures db.Valid()
    ensures db.tasks == old(db.tasks) && db.payments == old(db.payments) && db.nextId == old(db.nextId)
    ensures userId.None? || userId.value !in old(db.users) ==> r == Failure(Store.Reply(404, "User not found"))
    ensures userId.Some? && userId.value in old(db.users) ==>
              var id := userId.value;
              var edited := Stamped(ProfileEdit(old(db.users)[id], username, email, telegramUsername, walletAddress), now);
              (r.Failure? <==> !Store.FitsIndexes(old(db.users), id, edited))
              && (r.Failure? ==> r == Failure(Store.Thrown("duplicate key")))
    ensures r.Failure? ==> db.users == old(db.users)
    ensures r.Success? ==>
              var id := userId.value;
              && id in old(db.users)
              && db.users == old(db.users)[id :=
                   Stamped(ProfileEdit(old(db.users)[id], username, email, telegramUsername, walletAddress), now)]
              && r.value == PublicJSON(db.users[id])
    ensures Store.DriftKept(old(db.users), db.users)
    ensures Store.Balanced(old(db.users)) ==> Store.Balanced(db.users)
  {
    if userId.None? || userId.value !in db.users {
      return Failure(Store.Reply(404, "User not found"));
    }
    var id := userId.value;
    var u := db.users[id];
    var doc := new UserDoc.Load(u);
    EditDocument(doc, username, email, telegramUsername, walletAddress);
    doc.Resave(now);
    var saved := doc.user;
    ProfileEditKeepsLedger(u, username, email, telegramUsername, walletAddress);
    r := WriteProfile(db, id, saved);
  }

  /** The write of the saved profile, which the unique indexes on username and
      email may refuse. */
  method WriteProfile(db: Store.Database, id: nat, saved: User) returns (r: Result<Json, Store.Failure>)
    requires db.Valid() && id in db.users
    requires SchemaValid(saved) && Drift(saved) == Drift(db.users[id])
    modifies db
    ensures db.Valid()
    ensures db.tasks == old(db.tasks) && db.payments == old(db.payments) && db.nextId == old(db.nextId)
    ensures r.Failure? <==> !Store.FitsIndexes(old(db.users), id, saved)
    ensures r.Failure? ==> r == Failure(Store.Thrown("duplicate key")) && db.users == old(db.users)
    ensures r.Success? ==> db.users == old(db.users)[id := saved] && r.value == PublicJSON(saved)
    ensures Store.DriftKept(old(db.users), db.users)
    ensures Store.Balanced(old(db.users)) ==> Store.Balanced(db.users)
  {
    if !Store.FitsIndexes(db.users, id, saved) {
      // the unique index on username or email refuses the write
      return Failure(Store.Thrown("duplicate key"));
    }
    Store.WriteUser(db.users, db.tasks, db.payments, db.nextId, id, saved);
    Store.WriteDrift(db.users, id, saved);
    db.users := db.users[id := saved];
    r := Success(PublicJSON(saved));
  }

  /** The four guarded assignments of `updateProfile` on the loaded document. */
  method EditDocument(doc: UserDoc, username: Option<string>, email: Option<string>,
                      telegramUsername: Option<string>, walletAddress: Option<string>)
    modifies doc
    ensures doc.user == ProfileEdit(old(doc.user), username, email, telegramUsername, walletAddress)
    ensures doc.isNew == old(doc.isNew) && doc.passwordModified == old(doc.passwordModified)
  {
    if Present(username) { doc.user := doc.user.(username := username.value); }
    if Present(email) { doc.user := doc.user.(email := email.value); }
    if Present(telegramUsername) { doc.user := doc.user.(telegramUsername := telegramUsername); }
    if Present(walletAddress) { doc.user := doc.user.(walletAddress := walletAddress); }
  }

  /** A leaderboard row: the selected fields and the `_id` a projection always keeps. */
  datatype Entry = Entry(id: nat, username: string, totalEarned: int, totalWithdrawn: int,
                         balance: int, createdAt: int)

  function Project(d: (nat, User)): (e: Entry)
    ensures e.id == d.0 && e.username == d.1.username && e.totalEarned == d.1.totalEarned
    ensures e.totalWithdrawn == d.1.totalWithdrawn && e.balance == d.1.balance && e.createdAt == d.1.createdAt
  {
    Entry(d.0, d.1.username, d.1.totalEarned, d.1.totalWithdrawn, d.1.balance, d.1.createdAt)
  }

  function EarnedKey(d: (nat, User)): Sorting.SortKey {
    Sorting.IntKey(d.1.totalEarned)
  }

  /** `e` is the projection of one of the documents. */
  ghost predicate RowOf(e: Entry, docs: seq<(nat, User)>) {
    exists k :: 0 <= k < |docs| && e == Project(docs[k])
  }

  /** The whole collection as leaderboard rows, by `totalEarned` descending:
      every document appears as a row exactly as often as it is in the collection. */
  function Ranked(docs: seq<(nat, User)>): (rows: seq<Entry>)
    ensures |rows| == |docs|
    ensures forall i, j :: 0 <= i < j < |rows| ==> rows[i].totalEarned >= rows[j].totalEarned
    ensures multiset(rows) == multiset(Seqs.Map(Project, docs))
    ensures forall i :: 0 <= i < |rows| ==> RowOf(rows[i], docs)
  {
    var sorted := Sorting.SortBy(docs, EarnedKey, true);
    Sorting.SortBySorted(docs, EarnedKey, true);
    Sorting.SortByMap(docs, EarnedKey, true, Project);
    var rows := Seqs.Map(Project, sorted);
    assert forall i, j :: 0 <= i < j < |rows| ==> Sorting.Precedes(EarnedKey(sorted[i]), EarnedKey(sorted[j]), true);
    EveryRowFromDocs(docs, sorted, rows);
    rows
  }

  lemma EveryRowFromDocs(docs: seq<(nat, User)>, sorted: seq<(nat, User)>, rows: seq<Entry>)
    requires multiset(sorted) == multiset(docs) && |rows| == |sorted|
    requires forall i :: 0 <= i < |rows| ==> rows[i] == Project(sorted[i])
    ensures forall i :: 0 <= i < |rows| ==> RowOf(rows[i], docs)
  {
    forall i | 0 <= i < |rows|
      ensures RowOf(rows[i], docs)
    {
      assert sorted[i] in multiset(sorted);
      assert sorted[i] in docs;
      var k :| 0 <= k < |docs| && docs[k] == sorted[i];
      assert rows[i] == Project(docs[k]);
      assert RowOf(rows[i], docs);
    }
  }

  /** `getLeaderboard`: sorted by `totalEarned` descending, then the page window,
      then the projection. Ties keep the model's insertion order. */
  function Leaderboard(docs: seq<(nat, User)>, page: Paging.QueryNumber, limit: Paging.QueryNumber)
    : (r: Result<Paging.Listing<Entry>, Store.Failure>)
    ensures r.Failure? <==> Paging.ParseQuery(page, limit).skip < 0
    ensures r.Success? ==>
              var q := Paging.ParseQuery(page, limit);
              && r.value.items == Seqs.Slice(Ranked(docs), q.skip, q.skip + Paging.PageSize(q.limit))
              && |r.value.items| <= Paging.PageSize(q.limit)
              && r.value.page == q.page && r.value.limit == q.limit && r.value.total == |docs|
  {
    Paging.Window(Ranked(docs), Paging.ParseQuery(page, limit))
  }

  /** A leaderboard page is ranked by `totalEarned` and made of projected documents. */
  lemma LeaderboardRanked(docs: seq<(nat, User)>, page: Paging.QueryNumber, limit: Paging.QueryNumber)
    ensures var r := Leaderboard(docs, page, limit);
            r.Success? ==>
              && (forall i, j :: 0 <= i < j < |r.value.items| ==>
                    r.value.items[i].totalEarned >= r.value.items[j].totalEarned)
              && (forall i :: 0 <= i < |r.value.items| ==> RowOf(r.value.items[i], docs))
  {
    var r := Leaderboard(docs, page, limit);
    if r.Success? {
      var q := Paging.ParseQuery(page, limit);
      RankedSlice(docs, q.skip, q.skip + Paging.PageSize(q.limit));
    }
  }

  /** Any slice of the ranking is ranked and made of projected documents. */
  lemma RankedSlice(docs: seq<(nat, User)>, start: nat, end: nat)
    ensures var items := Seqs.Slice(Ranked(docs), start, end);
            && (forall i, j :: 0 <= i < j < |items| ==> items[i].totalEarned >= items[j].totalEarned)
            && (forall i :: 0 <= i < |items| ==> RowOf(items[i], docs))
  {
    RankedWindow(docs, Ranked(docs), Seqs.Slice(Ranked(docs), start, end), start);
  }

  /** A run of consecutive ranked rows is still ranked and still made of the documents. */
  lemma RankedWindow(docs: seq<(nat, User)>, rows: seq<Entry>, items: seq<Entry>, skip: nat)
    requires forall i, j :: 0 <= i < j < |rows| ==> rows[i].totalEarned >= rows[j].totalEarned
    requires forall i :: 0 <= i < |rows| ==> RowOf(rows[i], docs)
    requires forall i :: 0 <= i < |items| ==> skip + i < |rows| && items[i] == rows[skip + i]
    ensures forall i, j :: 0 <= i < j < |items| ==> items[i].totalEarned >= items[j].totalEarned
    ensures forall i :: 0 <= i < |items| ==> RowOf(items[i], docs)
  {
    forall i, j | 0 <= i < j < |items| ensures items[i].totalEarned >= items[j].totalEarned {
      var x, y := items[i], items[j];
      assert x == rows[skip + i] && y == rows[skip + j];
    }
    forall i | 0 <= i < |items| ensures RowOf(items[i], docs) {
      var x := items[i];
      assert x == rows[skip + i];
    }
  }
}
