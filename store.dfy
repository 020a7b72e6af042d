/** The database as an in-memory store: one map per collection, keyed by
    document id, with the schema bounds and unique indexes as its invariant. */
module Store {
  import opened Wrappers
  import UserModel
  import TaskModel
  import PaymentModel

  /** How a handler ends without success: an error reply it sends itself, or an
      exception from the database layer (a unique index or a schema validator
      refusing a write) that leaves the handler. */
  datatype Failure = Reply(status: int, message: string) | Thrown(reason: string)

  /** The unique indexes on `email`, `username` and `referralCode`. */
  ghost predicate UsersUnique(users: map<nat, UserModel.User>) {
    forall i, j :: i in users && j in users && i != j ==>
      users[i].email != users[j].email
      && users[i].username != users[j].username
      && users[i].referralCode != users[j].referralCode
  }

  /** Whether `u` can be written under `id` without breaking a unique index. */
  predicate FitsIndexes(users: map<nat, UserModel.User>, id: nat, u: UserModel.User) {
    forall j :: j in users && j != id ==>
      users[j].email != u.email && users[j].username != u.username
      && users[j].referralCode != u.referralCode
  }

  lemma WriteKeepsUnique(users: map<nat, UserModel.User>, id: nat, u: UserModel.User)
    requires UsersUnique(users) && FitsIndexes(users, id, u)
    ensures UsersUnique(users[id := u])
  {
  }

  /** Every user's balance is exactly what was earned minus what was withdrawn. */
  ghost predicate Balanced(users: map<nat, UserModel.User>) {
    forall id :: id in users ==> UserModel.Drift(users[id]) == 0
  }

  /** No surviving user's `balance + totalWithdrawn - totalEarned` moved. */
  ghost predicate DriftKept(before: map<nat, UserModel.User>, after: map<nat, UserModel.User>) {
    forall id :: id in before && id in after ==>
      UserModel.Drift(after[id]) == UserModel.Drift(before[id])
  }

  /** The schema bounds and unique indexes, and every id below the id counter. */
  ghost predicate ValidState(users: map<nat, UserModel.User>, tasks: map<nat, TaskModel.Task>,
                             payments: map<nat, PaymentModel.Payment>, nextId: nat) {
    (forall id :: id in users ==> id < nextId && UserModel.SchemaValid(users[id]))
    && (forall id :: id in tasks ==> id < nextId && TaskModel.SchemaValid(tasks[id]))
    && (forall id :: id in payments ==> id < nextId && PaymentModel.SchemaValid(payments[id]))
    && UsersUnique(users)
    && PaymentModel.TransactionIdsUnique(payments)
  }

  /** Whether `u` may replace the user stored under `id` without touching the
      indexed fields. */
  predicate SameKeys(old_: UserModel.User, u: UserModel.User) {
    u.email == old_.email && u.username == old_.username && u.referralCode == old_.referralCode
  }

  /** Rewriting a user within the schema and the unique indexes keeps the store valid. */
  lemma WriteUser(users: map<nat, UserModel.User>, tasks: map<nat, TaskModel.Task>,
                  payments: map<nat, PaymentModel.Payment>, n: nat, id: nat, u: UserModel.User)
    requires ValidState(users, tasks, payments, n) && id < n
    requires UserModel.SchemaValid(u) && FitsIndexes(users, id, u)
    ensures ValidState(users[id := u], tasks, payments, n)
  {
    WriteKeepsUnique(users, id, u);
  }

  /** Rewriting a task within the schema keeps the store valid. */
  lemma WriteTask(users: map<nat, UserModel.User>, tasks: map<nat, TaskModel.Task>,
                  payments: map<nat, PaymentModel.Payment>, n: nat, id: nat, t: TaskModel.Task)
    requires ValidState(users, tasks, payments, n) && id < n && TaskModel.SchemaValid(t)
    ensures ValidState(users, tasks[id := t], payments, n)
  {
  }

  /** A user rewritten with the same drift keeps every drift. */
  lemma WriteDrift(users: map<nat, UserModel.User>, id: nat, u: UserModel.User)
    requires id in users && UserModel.Drift(u) == UserModel.Drift(users[id])
    ensures DriftKept(users, users[id := u])
    ensures Balanced(users) ==> Balanced(users[id := u])
  {
  }

  /** Rewriting a stored user with the same indexed fields, within the schema
      and with the same drift, keeps the store valid and every drift. */
  lemma Rewrite(users: map<nat, UserModel.User>, tasks: map<nat, TaskModel.Task>,
                payments: map<nat, PaymentModel.Payment>, n: nat, id: nat, u: UserModel.User)
    requires ValidState(users, tasks, payments, n) && id in users
    requires SameKeys(users[id], u) && UserModel.SchemaValid(u)
    requires UserModel.Drift(u) == UserModel.Drift(users[id])
    ensures ValidState(users[id := u], tasks, payments, n)
    ensures DriftKept(users, users[id := u])
    ensures Balanced(users) ==> Balanced(users[id := u])
  {
    assert FitsIndexes(users, id, u);
    WriteUser(users, tasks, payments, n, id, u);
    WriteDrift(users, id, u);
  }

  /** Inserting a payment without a transaction id under a fresh id keeps the store valid. */
  lemma AddPayment(users: map<nat, UserModel.User>, tasks: map<nat, TaskModel.Task>,
                   payments: map<nat, PaymentModel.Payment>, n: nat, id: nat, p: PaymentModel.Payment)
    requires ValidState(users, tasks, payments, n) && id < n
    requires PaymentModel.SchemaValid(p) && p.transactionId.None?
    ensures ValidState(users, tasks, payments[id := p], n)
  {
    PaymentModel.AddWithoutTransactionId(payments, id, p);
  }

  class Database {
    var users: map<nat, UserModel.User>
    var tasks: map<nat, TaskModel.Task>
    var payments: map<nat, PaymentModel.Payment>
    /** The next document id to hand out. */
    var nextId: nat

    ghost predicate Valid()
      reads this
    {
      ValidState(users, tasks, payments, nextId)
    }

    constructor Empty()
      ensures Valid()
      ensures users == map[] && tasks == map[] && payments == map[] && nextId == 0
    {
      users, tasks, payments, nextId := map[], map[], map[], 0;
    }

    /** A new document id, distinct from every id in use. */
    method FreshId() returns (id: nat)
      requires Valid()
      modifies this
      ensures Valid()
      ensures id == old(nextId) && nextId == id + 1
      ensures id !in users && id !in tasks && id !in payments
      ensures users == old(users) && tasks == old(tasks) && payments == old(payments)
    {
      id := nextId;
      nextId := nextId + 1;
    }
  }
}
