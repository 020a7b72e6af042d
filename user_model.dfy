/** The user document of server/src/models/User.ts: its fields and schema bounds,
    the two pre-save hooks (password hashing, referral code), the `fullName`
    virtual and the `toJSON` transform. */
module UserModel {
  import opened Wrappers

  datatype Role = UserRole | Admin | Moderator

  /** The stored spelling of a role. */
  function RoleName(r: Role): string {
    match r
    case UserRole => "user"
    case Admin => "admin"
    case Moderator => "moderator"
  }

  /** The role enum check: a string is accepted exactly when it spells a role. */
  function ParseRole(s: string): (r: Option<Role>)
    ensures r.Some? <==> s == "user" || s == "admin" || s == "moderator"
    ensures r.Some? ==> RoleName(r.value) == s
    ensures forall x: Role :: s == RoleName(x) ==> r == Some(x)
  {
    if s == "user" then Some(UserRole)
    else if s == "admin" then Some(Admin)
    else if s == "moderator" then Some(Moderator)
    else None
  }

  datatype User = User(
    email: string,
    password: string,
    username: string,
    firstName: Option<string>,
    lastName: Option<string>,
    telegramUsername: Option<string>,
    walletAddress: Option<string>,
    role: Role,
    isVerified: bool,
    isActive: bool,
    balance: int,
    totalEarned: int,
    totalWithdrawn: int,
    referralCode: string,
    referredBy: Option<nat>,
    referralCount: int,
    lastLogin: Option<int>,
    loginStreak: int,
    createdAt: int,
    updatedAt: int)

  /** The numeric bounds of the schema (`min: 0`). */
  predicate SchemaValid(u: User) {
    u.balance >= 0 && u.totalEarned >= 0 && u.totalWithdrawn >= 0
    && u.referralCount >= 0 && u.loginStreak >= 0
  }

  /** How far a user's balance is from totalEarned - totalWithdrawn. */
  function Drift(u: User): int {
    u.balance + u.totalWithdrawn - u.totalEarned
  }

  /** The user as saved at `now`: only `updatedAt` moves. */
  function Stamped(u: User, now: int): (r: User)
    ensures r.updatedAt == now && r == u.(updatedAt := r.updatedAt)
    ensures SchemaValid(r) == SchemaValid(u) && Drift(r) == Drift(u)
  {
    u.(updatedAt := now)
  }

  /** The user after its ledger fields move by the given amounts and the
      document is saved at `now`. */
  function LedgerMoved(u: User, dBalance: int, dEarned: int, dWithdrawn: int, now: int): (r: User)
    ensures r.balance == u.balance + dBalance && r.totalEarned == u.totalEarned + dEarned
    ensures r.totalWithdrawn == u.totalWithdrawn + dWithdrawn && r.updatedAt == now
    ensures Drift(r) == Drift(u) + dBalance + dWithdrawn - dEarned
    // nothing else changes
    ensures r == u.(balance := r.balance, totalEarned := r.totalEarned,
                    totalWithdrawn := r.totalWithdrawn, updatedAt := r.updatedAt)
  {
    u.(balance := u.balance + dBalance, totalEarned := u.totalEarned + dEarned,
       totalWithdrawn := u.totalWithdrawn + dWithdrawn, updatedAt := now)
  }

  /** A fresh document with every field the request does not give at its schema default. */
  function NewUser(email: string, password: string, username: string, now: int): (u: User)
    ensures u.role == UserRole && !u.isVerified && u.isActive
    ensures u.balance == 0 && u.totalEarned == 0 && u.totalWithdrawn == 0
    ensures u.referralCount == 0 && u.loginStreak == 0 && u.referralCode == ""
    ensures SchemaValid(u) && Drift(u) == 0
    ensures u.email == email && u.password == password && u.username == username
  {
    User(email, password, username, None, None, None, None, UserRole, false, true,
         0, 0, 0, "", None, 0, None, 0, now, now)
  }

  /** JavaScript truthiness of an optional string field. */
  predicate Present(s: Option<string>) { s.Some? && s.value != "" }

  /** The `fullName` virtual. */
  function FullName(u: User): (r: string)
    ensures Present(u.firstName) && Present(u.lastName) ==>
              r == u.firstName.value + " " + u.lastName.value
    ensures !(Present(u.firstName) && Present(u.lastName)) ==> r == u.username
  {
    if Present(u.firstName) && Present(u.lastName) then u.firstName.value + " " + u.lastName.value
    else u.username
  }

  /** The alphabet of referral codes. */
  const ReferralAlphabet: string := "ABCDEFGHIJKLMNOPQRSTUVWXYZ0123456789"

  /** Enough `Math.random()` results for one code, each in [0, 1). */
  predicate ValidDraws(draws: seq<real>) {
    |draws| >= 8 && forall i :: 0 <= i < |draws| ==> 0.0 <= draws[i] < 1.0
  }

  /** `Math.floor(r * chars.length)` for a draw `r` of `Math.random()`. */
  function PickIndex(r: real): (k: nat)
    requires 0.0 <= r < 1.0
    ensures k < |ReferralAlphabet|
  {
    (r * 36.0).Floor
  }

  /** The code the draws spell: the i-th character picked by the i-th draw. */
  function DrawnCode(draws: seq<real>): (code: string)
    requires ValidDraws(draws)
    ensures |code| == 8
    ensures forall i :: 0 <= i < |code| ==> code[i] in ReferralAlphabet
  {
    seq(8, i requires 0 <= i < 8 => ReferralAlphabet[PickIndex(draws[i])])
  }

  /** The loop of the referral hook: eight characters, the i-th chosen by the i-th draw. */
  method GenerateReferralCode(draws: seq<real>) returns (code: string)
    requires ValidDraws(draws)
    ensures |code| == 8
    ensures forall i :: 0 <= i < |code| ==> code[i] in ReferralAlphabet
    ensures forall i :: 0 <= i < 8 ==> code[i] == ReferralAlphabet[PickIndex(draws[i])]
    ensures code == DrawnCode(draws)
  {
    code := "";
    for i := 0 to 8
      invariant |code| == i
      invariant forall j :: 0 <= j < i ==> code[j] == ReferralAlphabet[PickIndex(draws[j])]
    {
      code := code + [ReferralAlphabet[PickIndex(draws[i])]];
    }
  }

  /** A JSON value of a serialised document. */
  datatype Value = Str(s: string) | Int(n: int) | Bool(b: bool)

  /** The document's fields as a plain object; absent optional fields have no key. */
  function Fields(u: User): (m: map<string, Value>)
    ensures "password" in m && m["password"] == Str(u.password)
    ensures "balance" in m && m["balance"] == Int(u.balance)
  {
    var base := map[
      "email" := Str(u.email), "username" := Str(u.username),
      "role" := Str(RoleName(u.role)), "isVerified" := Bool(u.isVerified),
      "isActive" := Bool(u.isActive),
      "totalEarned" := Int(u.totalEarned), "totalWithdrawn" := Int(u.totalWithdrawn),
      "referralCode" := Str(u.referralCode), "referralCount" := Int(u.referralCount),
      "loginStreak" := Int(u.loginStreak), "createdAt" := Int(u.createdAt),
      "updatedAt" := Int(u.updatedAt)];
    var m1: map<string, Value> := if u.firstName.Some? then map["firstName" := Str(u.firstName.value)] else map[];
    var m2 := if u.lastName.Some? then m1["lastName" := Str(u.lastName.value)] else m1;
    var m3 := if u.telegramUsername.Some? then m2["telegramUsername" := Str(u.telegramUsername.value)] else m2;
    var m4 := if u.walletAddress.Some? then m3["walletAddress" := Str(u.walletAddress.value)] else m3;
    var m5 := if u.referredBy.Some? then m4["referredBy" := Int(u.referredBy.value)] else m4;
    var optional := if u.lastLogin.Some? then m5["lastLogin" := Int(u.lastLogin.value)] else m5;
    // the optional keys and the fields that are always there are disjoint
    (optional + base)["balance" := Int(u.balance)]["password" := Str(u.password)]
  }

  /** The `toJSON` transform: `delete ret.password`. */
  function ToJSON(ret: map<string, Value>): (r: map<string, Value>)
    ensures "password" !in r
    ensures r.Keys == ret.Keys - {"password"}
    ensures forall k :: k in r ==> r[k] == ret[k]
  {
    ret - {"password"}
  }

  /** What a user looks like in a response. */
  function PublicJSON(u: User): (r: map<string, Value>)
    ensures "password" !in r
    ensures "balance" in r && r["balance"] == Int(u.balance)
  {
    ToJSON(Fields(u))
  }

  /** A mongoose user document: the record, whether it has never been saved, and
      whether its password path was assigned since it was loaded. */
  class UserDoc {
    var user: User
    var isNew: bool
    var passwordModified: bool

    /** `User.create(...)`: every path given a value counts as modified. */
    constructor Create(u: User)
      ensures user == u && isNew && passwordModified
    {
      user := u;
      isNew := true;
      passwordModified := true;
    }

    /** A document read back from the collection. */
    constructor Load(u: User)
      ensures user == u && !isNew && !passwordModified
    {
      user := u;
      isNew := false;
      passwordModified := false;
    }

    /** The first pre-save hook: re-hash only a modified password. */
    method HashPasswordHook(hashPassword: string -> string)
      modifies this
      ensures passwordModified == old(passwordModified) && isNew == old(isNew)
      ensures old(passwordModified) ==> user == old(user).(password := hashPassword(old(user).password))
      ensures !old(passwordModified) ==> user == old(user)
    {
      if !passwordModified {
        return;
      }
      user := user.(password := hashPassword(user.password));
    }

    /** The second pre-save hook: only a new document without a code gets one. */
    method ReferralCodeHook(draws: seq<real>)
      requires isNew && user.referralCode == "" ==> ValidDraws(draws)
      modifies this
      ensures passwordModified == old(passwordModified) && isNew == old(isNew)
      ensures !old(isNew) || old(user).referralCode != "" ==> user == old(user)
      ensures old(isNew) && old(user).referralCode == "" ==>
                user == old(user).(referralCode := user.referralCode)
                && user.referralCode == DrawnCode(draws)
                && |user.referralCode| == 8
                && forall i :: 0 <= i < 8 ==> user.referralCode[i] in ReferralAlphabet
    {
      if !isNew || user.referralCode != "" {
        return;
      }
      var code := GenerateReferralCode(draws);
      user := user.(referralCode := code);
    }

    /** `save()`: both hooks in the order they are registered, then the
        `updatedAt` timestamp; the document is then no longer new and no path is
        modified. */
    method Save(now: int, hashPassword: string -> string, draws: seq<real>)
      requires isNew && user.referralCode == "" ==> ValidDraws(draws)
      modifies this
      ensures !isNew && !passwordModified
      ensures user.updatedAt == now
      ensures user.password == if old(passwordModified) then hashPassword(old(user).password) else old(user).password
      ensures old(isNew) && old(user).referralCode == "" ==>
                user.referralCode == DrawnCode(draws) && |user.referralCode| == 8
                && forall i :: 0 <= i < 8 ==> user.referralCode[i] in ReferralAlphabet
      ensures !(old(isNew) && old(user).referralCode == "") ==> user.referralCode == old(user).referralCode
      // nothing else changes
      ensures user == old(user).(password := user.password, referralCode := user.referralCode, updatedAt := now)
    {
      HashPasswordHook(hashPassword);
      ReferralCodeHook(draws);
      user := user.(updatedAt := now);
      isNew := false;
      passwordModified := false;
    }

    /** `save()` on a loaded document whose password was not assigned: neither
        hook changes anything, so only the timestamp moves. */
    method Resave(now: int)
      requires !isNew && !passwordModified
      modifies this
      ensures !isNew && !passwordModified
      ensures user == Stamped(old(user), now)
    {
      // the password path is not modified, so the hashing oracle is never consulted
      Save(now, s => s, []);
    }
  }
}
