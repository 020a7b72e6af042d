/** The payment handlers of server/src/controllers/payment.controller.ts:
    the paged listing of a user's payments, `withdraw` and `deposit`. */
module PaymentController {
  import opened Wrappers
  import opened PaymentModel
  import UserModel
  import Store
  import Paging
  import Seqs
  import Arith

  /** The payments `find({ userId })` selects, in collection order: with no
      caller, none at all. */
  function OwnPayments(all: seq<Payment>, userId: Option<nat>): (r: seq<Payment>)
    ensures forall i :: 0 <= i < |r| ==> userId.Some? && r[i].userId == userId.value
    ensures forall i :: 0 <= i < |all| && userId.Some? && all[i].userId == userId.value ==> all[i] in r
    ensures Seqs.IsSubsequence(r, all)
  {
    Seqs.Filter((p: Payment) => userId.Some? && p.userId == userId.value, all)
  }

  /** `getPayments`: the window over the caller's own payments. */
  function ListPayments(all: seq<Payment>, userId: Option<nat>, page: Paging.QueryNumber,
                        limit: Paging.QueryNumber): (r: Result<Paging.Listing<Payment>, Store.Failure>)
    ensures r.Failure? <==> Paging.ParseQuery(page, limit).skip < 0
    ensures r.Success? ==>
              var q, mine := Paging.ParseQuery(page, limit), OwnPayments(all, userId);
              && r.value.items == Seqs.Slice(mine, q.skip, q.skip + Paging.PageSize(q.limit))
              && r.value.page == q.page && r.value.limit == q.limit && r.value.total == |mine|
    ensures r.Success? ==> forall i :: 0 <= i < |r.value.items| ==>
              userId.Some? && r.value.items[i].userId == userId.value
  {
    Paging.Window(OwnPayments(all, userId), Paging.ParseQuery(page, limit))
  }

  /** `!x` on a request-body number: undefined or 0. */
  predicate Falsy(x: Option<int>) { x.None? || x.value == 0 }

  /** `!x` on a request-body string: undefined or empty. */
  predicate FalsyText(x: Option<string>) { x.None? || x.value == "" }

  /** The record `withdraw` creates. */
  function WithdrawalRecord(userId: nat, amount: int, address: string, now: int): (p: Payment)
    ensures p.kind == Withdrawal && p.status == Pending && p.amount == amount
    ensures p.walletAddress == Some(address) && p.userId == userId
    ensures p.currency == "TON" && p.paymentMethod == TonWallet && p.processedAt.None?
    ensures p.description == "Withdrawal to " + address
  {
    NewPayment(userId, Withdrawal, amount, TonWallet, "Withdrawal to " + address, now)
      .(walletAddress := Some(address))
  }

  /** The record `deposit` creates, after its pre-save hook. */
  function DepositRecord(userId: nat, amount: int, now: int): (p: Payment)
    ensures p.kind == PaymentType.Deposit && p.status == Completed && p.amount == amount && p.userId == userId
    ensures p.currency == "TON" && p.paymentMethod == TonWallet && p.processedAt == Some(now)
    ensures p.description == "Deposit to account"
  {
    StampProcessedAt(NewPayment(userId, PaymentType.Deposit, amount, TonWallet, "Deposit to account", now).(status := Completed),
                     true, now)
  }

  /** The reply of a successful `withdraw` or `deposit`. */
  datatype Receipt = Receipt(paymentId: nat, payment: Payment)

  /** `withdraw`, one atomic step over the store. A description longer than the
      schema allows makes `Payment.create` throw before anything is written. */
  method Withdraw(db: Store.Database, userId: Option<nat>, amount: Option<int>,
                  walletAddress: Option<string>, now: int)
    returns (r: Result<Receipt, Store.Failure>)
    requires db.Valid()
    modifies db
    ensures db.Valid()
    ensures db.tasks == old(db.tasks)
    ensures Falsy(amount) || FalsyText(walletAddress) ==>
              r == Failure(Store.Reply(400, "Amount and wallet address are required"))
    ensures !Falsy(amount) && !FalsyText(walletAddress) && amount.value < 0 ==>
              r == Failure(Store.Reply(400, "Amount must be greater than 0"))
    ensures !Falsy(amount) && !FalsyText(walletAddress) && amount.value > 0
            && (userId.None? || userId.value !in old(db.users)) ==>
              r == Failure(Store.Reply(404, "User not found"))
    ensures !Falsy(amount) && !FalsyText(walletAddress) && amount.value > 0
            && userId.Some? && userId.value in old(db.users)
            && old(db.users)[userId.value].balance < amount.value ==>
              r == Failure(Store.Reply(400, "Insufficient balance"))
    ensures r.Failure? ==> db.users == old(db.users) && db.payments == old(db.payments)
    ensures r.Success? <==>
              !Falsy(amount) && !FalsyText(walletAddress) && amount.value > 0
              && userId.Some? && userId.value in old(db.users)
              && amount.value <= old(db.users)[userId.value].balance
              && |WithdrawalRecord(userId.value, amount.value, walletAddress.value, now).description| <= MaxDescription
    ensures r.Success? ==>
              var uid, a := userId.value, amount.value;
              var u := old(db.users)[uid];
              && r.value.paymentId !in old(db.payments)
              && r.value.payment == WithdrawalRecord(uid, a, walletAddress.value, now)
              && db.payments == old(db.payments)[r.value.paymentId := r.value.payment]
              && db.users == old(db.users)[uid := UserModel.LedgerMoved(u, -a, 0, a, now)]
              && db.users[uid].balance >= 0
    ensures Store.DriftKept(old(db.users), db.users)
    ensures Store.Balanced(old(db.users)) ==> Store.Balanced(db.users)
  {
    if Falsy(amount) || FalsyText(walletAddress) {
      return Failure(Store.Reply(400, "Amount and wallet address are required"));
    }
    var a := amount.value;
    if a <= 0 {
      return Failure(Store.Reply(400, "Amount must be greater than 0"));
    }
    if userId.None? || userId.value !in db.users {
      return Failure(Store.Reply(404, "User not found"));
    }
    if db.users[userId.value].balance < a {
      return Failure(Store.Reply(400, "Insufficient balance"));
    }
    var record := WithdrawalRecord(userId.value, a, walletAddress.value, now);
    if |record.description| > MaxDescription {
      return Failure(Store.Thrown("Payment validation failed"));
    }
    var id := CreatePayment(db, record, now);
    ApplyLedger(db, userId.value, -a, 0, a, now);
    r := Success(Receipt(id, record));
  }

  /** `deposit`, one atomic step over the store. */
  method Deposit(db: Store.Database, userId: Option<nat>, amount: Option<int>, now: int)
    returns (r: Result<Receipt, Store.Failure>)
    requires db.Valid()
    modifies db
    ensures db.Valid()
    ensures db.tasks == old(db.tasks)
    ensures Falsy(amount) ==> r == Failure(Store.Reply(400, "Amount is required"))
    ensures !Falsy(amount) && amount.value < 0 ==> r == Failure(Store.Reply(400, "Amount must be greater than 0"))
    ensures !Falsy(amount) && amount.value > 0 && (userId.None? || userId.value !in old(db.users)) ==>
              r == Failure(Store.Reply(404, "User not found"))
    ensures r.Failure? ==> db.users == old(db.users) && db.payments == old(db.payments)
    ensures r.Success? <==> !Falsy(amount) && amount.value > 0 && userId.Some? && userId.value in old(db.users)
    ensures r.Success? ==>
              var uid, a := userId.value, amount.value;
              var u := old(db.users)[uid];
              && r.value.paymentId !in old(db.payments)
              && r.value.payment == DepositRecord(uid, a, now)
              && db.payments == old(db.payments)[r.value.paymentId := r.value.payment]
              && db.users == old(db.users)[uid := UserModel.LedgerMoved(u, a, a, 0, now)]
    ensures Store.DriftKept(old(db.users), db.users)
    ensures Store.Balanced(old(db.users)) ==> Store.Balanced(db.users)
  {
    if Falsy(amount) {
      return Failure(Store.Reply(400, "Amount is required"));
    }
    var a := amount.value;
    if a <= 0 {
      return Failure(Store.Reply(400, "Amount must be greater than 0"));
    }
    if userId.None? || userId.value !in db.users {
      return Failure(Store.Reply(404, "User not found"));
    }
    var base := NewPayment(userId.value, PaymentType.Deposit, a, TonWallet, "Deposit to account", now).(status := Completed);
    var id := CreatePayment(db, base, now);
    ApplyLedger(db, userId.value, a, a, 0, now);
    r := Success(Receipt(id, db.payments[id]));
  }

  /** `Payment.create`: a fresh id, the pre-save hook, the insert. */
  method CreatePayment(db: Store.Database, p: Payment, now: int) returns (id: nat)
    requires db.Valid() && SchemaValid(p) && p.transactionId.None?
    modifies db
    ensures db.Valid()
    ensures id !in old(db.payments)
    ensures db.payments == old(db.payments)[id := StampProcessedAt(p, true, now)]
    ensures db.users == old(db.users) && db.tasks == old(db.tasks)
  {
    var doc := new PaymentDoc.Create(p);
    doc.Save(now);
    id := db.FreshId();
    Store.AddPayment(db.users, db.tasks, db.payments, db.nextId, id, doc.payment);
    db.payments := db.payments[id := doc.payment];
  }

  /** Load the user, move its ledger fields by the given amounts, save. The
      amounts keep the drift when `dBalance == dEarned - dWithdrawn`. */
  method ApplyLedger(db: Store.Database, uid: nat, dBalance: int, dEarned: int, dWithdrawn: int, now: int)
    requires db.Valid() && uid in db.users
    requires dBalance == dEarned - dWithdrawn
    requires UserModel.SchemaValid(UserModel.LedgerMoved(db.users[uid], dBalance, dEarned, dWithdrawn, now))
    modifies db
    ensures db.Valid()
    ensures db.users == old(db.users)[uid := UserModel.LedgerMoved(old(db.users)[uid], dBalance, dEarned, dWithdrawn, now)]
    ensures db.payments == old(db.payments) && db.tasks == old(db.tasks) && db.nextId == old(db.nextId)
    ensures Store.DriftKept(old(db.users), db.users)
    ensures Store.Balanced(old(db.users)) ==> Store.Balanced(db.users)
  {
    var u := db.users[uid];
    var moved := u.(balance := u.balance + dBalance, totalEarned := u.totalEarned + dEarned,
                    totalWithdrawn := u.totalWithdrawn + dWithdrawn);
    var doc := new UserModel.UserDoc.Load(u);
    doc.user := moved;
    doc.Resave(now);
    var saved := doc.user;
    assert saved == UserModel.LedgerMoved(u, dBalance, dEarned, dWithdrawn, now);
    Store.Rewrite(db.users, db.tasks, db.payments, db.nextId, uid, saved);
    db.users := db.users[uid := saved];
  }

  // The routes of `withdraw` and `deposit` run no validator, so `amount` is
  // whatever the JSON body holds. A string of digits passes every guard by its
  // numeric value, but `+=` then concatenates it to the stored number, which
  // the save casts back to a number.

  /** A request-body amount: a JSON number, or a JSON string of decimal digits
      without a leading zero, such as "5", given by the number it spells. */
  datatype BodyAmount = JsonNumber(num: int) | JsonNumeral(digits: nat)

  /** What `<`, `<=` and `-=` read: the numeric value of either form. */
  function NumberOf(a: BodyAmount): int {
    if a.JsonNumber? then a.num else a.digits
  }

  function Pow10(k: nat): (p: nat)
    ensures p >= 1 && (k >= 1 ==> p >= 10)
  {
    if k == 0 then 1 else 10 * Pow10(k - 1)
  }

  /** The number of decimal digits of `n`. */
  function NumeralLength(n: nat): (d: nat)
    ensures d >= 1 && n < Pow10(d)
  {
    if n < 10 then 1 else 1 + NumeralLength(n / 10)
  }

  /** `x += a` on a number field, read back as a number: addition for a JSON
      number, and for a string the number whose digits are those of `x`
      followed by those of `a`. */
  function AddAssign(x: int, a: BodyAmount): (r: int)
    ensures a.JsonNumber? ==> r == x + a.num
    ensures a.JsonNumeral? && x > 0 ==> r > x + a.digits
  {
    match a
    case JsonNumber(n) => x + n
    case JsonNumeral(n) =>
      var p := Pow10(NumeralLength(n));
      if x >= 0 then
        Arith.MulLe(2, p, x);
        x * p + n
      else x * p - n
  }

  /** The ledger fields after `user.balance -= amount; user.totalWithdrawn += amount`:
      `-=` always subtracts numerically. */
  function WithdrawnAsWritten(u: UserModel.User, a: BodyAmount): (v: UserModel.User)
    ensures v.balance == u.balance - NumberOf(a) && v.totalWithdrawn == AddAssign(u.totalWithdrawn, a)
    ensures a.JsonNumber? ==> UserModel.Drift(v) == UserModel.Drift(u)
    // nothing else changes
    ensures v == u.(balance := v.balance, totalWithdrawn := v.totalWithdrawn)
  {
    u.(balance := u.balance - NumberOf(a), totalWithdrawn := AddAssign(u.totalWithdrawn, a))
  }

  /** The ledger fields after `user.balance += amount; user.totalEarned += amount`. */
  function DepositedAsWritten(u: UserModel.User, a: BodyAmount): (v: UserModel.User)
    ensures v.balance == AddAssign(u.balance, a) && v.totalEarned == AddAssign(u.totalEarned, a)
    ensures a.JsonNumber? ==> UserModel.Drift(v) == UserModel.Drift(u)
    // nothing else changes
    ensures v == u.(balance := v.balance, totalEarned := v.totalEarned)
  {
    u.(balance := AddAssign(u.balance, a), totalEarned := AddAssign(u.totalEarned, a))
  }

  /** A string withdrawal keeps the drift only for a user who has never withdrawn. */
  lemma NumeralWithdrawalDrift(u: UserModel.User, n: nat)
    requires u.totalWithdrawn >= 0
    ensures UserModel.Drift(WithdrawnAsWritten(u, JsonNumeral(n))) == UserModel.Drift(u)
            <==> u.totalWithdrawn == 0
  {
    var p, w := Pow10(NumeralLength(n)), u.totalWithdrawn;
    assert WithdrawnAsWritten(u, JsonNumeral(n)).totalWithdrawn == w * p + n;
    Arith.ScaledDifference(w, 0, p);
  }

  /** A string deposit keeps the drift only when the balance equals the total earned. */
  lemma NumeralDepositDrift(u: UserModel.User, n: nat)
    requires u.balance >= 0 && u.totalEarned >= 0
    ensures UserModel.Drift(DepositedAsWritten(u, JsonNumeral(n))) == UserModel.Drift(u)
            <==> u.balance == u.totalEarned
  {
    var v, p := DepositedAsWritten(u, JsonNumeral(n)), Pow10(NumeralLength(n));
    assert v.balance == u.balance * p + n && v.totalEarned == u.totalEarned * p + n;
    Arith.ScaledDifference(u.balance, u.totalEarned, p);
  }

  /** A deposit of "5" onto a balance of 100 stores 1005. */
  lemma NumeralDepositExample(u: UserModel.User)
    requires u.balance == 100
    ensures DepositedAsWritten(u, JsonNumeral(5)).balance == 1005
  {
    assert NumeralLength(5) == 1 && Pow10(1) == 10;
  }

  /** A withdrawal of "5" after 10 already withdrawn records 105 withdrawn. */
  lemma NumeralWithdrawalExample(u: UserModel.User)
    requires u.totalWithdrawn == 10
    ensures WithdrawnAsWritten(u, JsonNumeral(5)).totalWithdrawn == 105
  {
    assert NumeralLength(5) == 1 && Pow10(1) == 10;
  }
}
