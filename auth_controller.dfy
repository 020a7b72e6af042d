/** The account handlers of server/src/controllers/auth.controller.ts:
    `register` and `login`. Password hashing and comparison and token signing
    are oracles: the model returns the payload that is signed. */
module AuthController {
  import opened Wrappers
  import opened UserModel
  import Store
  import Jwt

  /** The `user` object of the reply. */
  datatype Summary = Summary(id: nat, username: string, email: string, role: string, balance: int)

  /** The reply of `register` and `login`: the summary and the payload of the token. */
  datatype Session = Session(user: Summary, token: Jwt.TokenPayload)

  function SessionOf(id: nat, u: User): (s: Session)
    ensures s.token == Jwt.TokenPayload(Jwt.IdText(id), u.email, RoleName(u.role))
    ensures s.user == Summary(id, u.username, u.email, RoleName(u.role), u.balance)
  {
    Session(Summary(id, u.username, u.email, RoleName(u.role), u.balance),
            Jwt.TokenPayload(Jwt.IdText(id), u.email, RoleName(u.role)))
  }

  /** Some stored user has this email or this username. */
  predicate Taken(users: map<nat, User>, email: string, username: string) {
    exists id :: id in users && (users[id].email == email || users[id].username == username)
  }

  /** Some stored user already holds this referral code. */
  predicate CodeInUse(users: map<nat, User>, code: string) {
    exists j :: j in users && users[j].referralCode == code
  }

  /** The document `register` passes to `User.create`, before its hooks run. */
  function Registration(username: string, email: string, password: string,
                        telegramUsername: Option<string>, walletAddress: Option<string>, now: int): (u: User)
    ensures u.role == UserRole && u.isActive
    ensures u.balance == 0 && u.totalEarned == 0 && u.totalWithdrawn == 0
    ensures SchemaValid(u) && Drift(u) == 0
    ensures u.referralCode == ""
  {
    NewUser(email, password, username, now)
      .(telegramUsername := telegramUsername, walletAddress := walletAddress, lastLogin := Some(now))
  }

  /** The error of the `required` validator on `referralCode`. */
  const CodeRequired := Store.Thrown("User validation failed: referralCode is required")

  /** The `required: true` validator on `referralCode`: an empty code fails it. */
  function ValidateReferralCode(u: User): (r: Result<User, Store.Failure>)
    ensures r.Failure? <==> u.referralCode == ""
    ensures r.Failure? ==> r.error == CodeRequired
    ensures r.Success? ==> r.value == u
  {
    if u.referralCode == "" then Failure(CodeRequired) else Success(u)
  }

  /** Mongoose validates a document before its pre-save hooks run, so the
      registration document meets the validator without a code and `User.create`
      refuses every registration. */
  lemma RegistrationRefusedAsWritten(username: string, email: string, password: string,
                                     telegramUsername: Option<string>, walletAddress: Option<string>, now: int)
    ensures ValidateReferralCode(Registration(username, email, password, telegramUsername, walletAddress, now))
            == Failure(CodeRequired)
  {
  }

  /** `register`, one atomic step over the store. The request body's role, if
      any, is not read. */
  method Register(db: Store.Database, username: string, email: string, password: string,
                  telegramUsername: Option<string>, walletAddress: Option<string>, now: int,
                  hashPassword: string -> string, draws: seq<real>)
    returns (r: Result<Session, Store.Failure>)
    requires db.Valid() && ValidDraws(draws)
    modifies db
    ensures db.Valid()
    ensures db.tasks == old(db.tasks) && db.payments == old(db.payments)
    ensures Taken(old(db.users), email, username) ==> r == Failure(Store.Reply(400, "User already exists"))
    ensures !Taken(old(db.users), email, username) && CodeInUse(old(db.users), DrawnCode(draws)) ==>
              r == Failure(Store.Thrown("duplicate key: referralCode"))
    ensures r.Success? <==> !Taken(old(db.users), email, username) && !CodeInUse(old(db.users), DrawnCode(draws))
    ensures r.Failure? ==> db.users == old(db.users)
    ensures r.Success? ==> r.value.user.id in db.users
    ensures r.Success? ==>
              var id := r.value.user.id;
              var u := db.users[id];
              && !Taken(old(db.users), email, username)
              && id !in old(db.users) && db.users == old(db.users)[id := u]
              && u == Registration(username, email, hashPassword(password), telegramUsername, walletAddress, now)
                        .(referralCode := u.referralCode)
              && u.referralCode == DrawnCode(draws)
              && r.value == SessionOf(id, u)
              && r.value.token == Jwt.TokenPayload(Jwt.IdText(id), email, "user")
    ensures Store.DriftKept(old(db.users), db.users)
    ensures Store.Balanced(old(db.users)) ==> Store.Balanced(db.users)
  {
    if exists id :: id in db.users && (db.users[id].email == email || db.users[id].username == username) {
      return Failure(Store.Reply(400, "User already exists"));
    }
    var u := SavedRegistration(username, email, password, telegramUsername, walletAddress, now, hashPassword, draws);
    if exists j :: j in db.users && db.users[j].referralCode == u.referralCode {
      // the unique index on referralCode refuses the insert
      return Failure(Store.Thrown("duplicate key: referralCode"));
    }
    var id := InsertUser(db, u);
    r := Success(SessionOf(id, u));
  }

  /** The document half of `User.create`: the registration document through
      both pre-save hooks, which hash the password and draw a referral code.
      Here the `required` validator sees the document after the hooks, so the
      drawn code passes it. */
  method SavedRegistration(username: string, email: string, password: string,
                           telegramUsername: Option<string>, walletAddress: Option<string>, now: int,
                           hashPassword: string -> string, draws: seq<real>)
    returns (u: User)
    requires ValidDraws(draws)
    ensures u == Registration(username, email, hashPassword(password), telegramUsername, walletAddress, now)
                   .(referralCode := u.referralCode)
    ensures u.referralCode == DrawnCode(draws) && |u.referralCode| == 8
    ensures ValidateReferralCode(u) == Success(u)
    ensures u.email == email && u.username == username && SchemaValid(u) && Drift(u) == 0
  {
    var doc := new UserDoc.Create(Registration(username, email, password, telegramUsername, walletAddress, now));
    doc.Save(now, hashPassword, draws);
    u := doc.user;
  }

  /** The insert of `User.create` under a fresh id, once the unique indexes
      have nothing against the document. */
  method InsertUser(db: Store.Database, u: User) returns (id: nat)
    requires db.Valid() && SchemaValid(u) && Store.FitsIndexes(db.users, db.nextId, u)
    modifies db
    ensures db.Valid()
    ensures id !in old(db.users) && db.users == old(db.users)[id := u]
    ensures db.tasks == old(db.tasks) && db.payments == old(db.payments)
    ensures Store.DriftKept(old(db.users), db.users)
    ensures Store.Balanced(old(db.users)) && Drift(u) == 0 ==> Store.Balanced(db.users)
  {
    id := db.FreshId();
    Store.WriteUser(db.users, db.tasks, db.payments, db.nextId, id, u);
    db.users := db.users[id := u];
  }

  /** The user a `findOne({ email })` returns: by the unique index there is at most one. */
  predicate HasEmail(users: map<nat, User>, id: nat, email: string) {
    id in users && users[id].email == email
  }

  /** The user after `login` records the sign-in and saves the document. */
  function SignedIn(u: User, now: int): (v: User)
    ensures v.lastLogin == Some(now) && v.updatedAt == now
    ensures Drift(v) == Drift(u) && (SchemaValid(u) ==> SchemaValid(v))
    // nothing else changes
    ensures v == u.(lastLogin := v.lastLogin, updatedAt := v.updatedAt)
  {
    u.(lastLogin := Some(now), updatedAt := now)
  }

  /** `login`, one atomic step over the store. An unknown email and a wrong
      password give the same reply. */
  method Login(db: Store.Database, email: string, password: string, now: int,
               compare: (string, string) -> bool)
    returns (r: Result<Session, Store.Failure>)
    requires db.Valid()
    modifies db
    ensures db.Valid()
    ensures db.tasks == old(db.tasks) && db.payments == old(db.payments) && db.nextId == old(db.nextId)
    ensures r.Failure? ==> r == Failure(Store.Reply(401, "Invalid credentials")) && db.users == old(db.users)
    ensures r.Success? <==> exists id :: HasEmail(old(db.users), id, email) && compare(password, old(db.users)[id].password)
    ensures r.Success? ==> HasEmail(old(db.users), r.value.user.id, email)
    ensures r.Success? ==>
              var id := r.value.user.id;
              var u := old(db.users)[id];
              && db.users == old(db.users)[id := SignedIn(u, now)]
              && r.value == SessionOf(id, u)
    ensures Store.DriftKept(old(db.users), db.users)
    ensures Store.Balanced(old(db.users)) ==> Store.Balanced(db.users)
  {
    if !exists id :: id in db.users && db.users[id].email == email {
      return Failure(Store.Reply(401, "Invalid credentials"));
    }
    var id :| id in db.users && db.users[id].email == email;
    var u := db.users[id];
    if !compare(password, u.password) {
      EmailOwner(db.users, id, email);
      return Failure(Store.Reply(401, "Invalid credentials"));
    }
    RecordSignIn(db, id, now);
    r := Success(SessionOf(id, u));
  }

  /** The update half of `login`: the loaded document gets `lastLogin` and is saved. */
  method RecordSignIn(db: Store.Database, id: nat, now: int)
    requires db.Valid() && id in db.users
    modifies db
    ensures db.Valid()
    ensures db.tasks == old(db.tasks) && db.payments == old(db.payments) && db.nextId == old(db.nextId)
    ensures db.users == old(db.users)[id := SignedIn(old(db.users)[id], now)]
    ensures Store.DriftKept(old(db.users), db.users)
    ensures Store.Balanced(old(db.users)) ==> Store.Balanced(db.users)
  {
    var u := db.users[id];
    var doc := new UserDoc.Load(u);
    doc.user := u.(lastLogin := Some(now));
    doc.Resave(now);
    var saved := doc.user;
    assert saved == SignedIn(u, now);
    Store.Rewrite(db.users, db.tasks, db.payments, db.nextId, id, saved);
    db.users := db.users[id := saved];
  }

  /** By the unique index on `email`, the user found is the only one with that email. */
  lemma EmailOwner(users: map<nat, User>, id: nat, email: string)
    requires Store.UsersUnique(users) && HasEmail(users, id, email)
    ensures forall j :: HasEmail(users, j, email) ==> j == id
  {
  }
}
