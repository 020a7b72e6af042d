/** The payment document of server/src/models/Payment.ts: its fields and
    schema bounds, the sparse unique transaction id and the pre-save hook that
    stamps `processedAt`. */
module PaymentModel {
  import opened Wrappers

  datatype PaymentType = Deposit | Withdrawal | RewardPayment | Bonus | ReferralPayment
  datatype PaymentStatus = Pending | Completed | Failed | Cancelled
  datatype PaymentMethod = TonWallet | BankTransfer | Crypto | SystemMethod

  datatype Payment = Payment(
    userId: nat,
    kind: PaymentType,
    amount: int,
    currency: string,
    status: PaymentStatus,
    paymentMethod: PaymentMethod,
    transactionId: Option<string>,
    walletAddress: Option<string>,
    description: string,
    processedAt: Option<int>,
    createdAt: int)

  /** The longest description the schema accepts. */
  const MaxDescription: nat := 200

  /** The schema's bounds. */
  predicate SchemaValid(p: Payment) {
    p.amount >= 0 && |p.description| <= MaxDescription
  }

  /** The sparse unique index: documents that carry a transaction id carry distinct
      ones; documents without one are not indexed. */
  ghost predicate TransactionIdsUnique(ps: map<nat, Payment>) {
    forall i, j :: i in ps && j in ps && i != j && ps[i].transactionId.Some? ==>
      ps[i].transactionId != ps[j].transactionId
  }

  /** A payment without a transaction id never breaks the sparse index. */
  lemma AddWithoutTransactionId(ps: map<nat, Payment>, id: nat, p: Payment)
    requires TransactionIdsUnique(ps) && p.transactionId.None?
    ensures TransactionIdsUnique(ps[id := p])
  {
    var qs := ps[id := p];
    forall i, j | i in qs && j in qs && i != j && qs[i].transactionId.Some?
      ensures qs[i].transactionId != qs[j].transactionId
    {
      if i != id && j != id {
        assert qs[i] == ps[i] && qs[j] == ps[j];
      }
    }
  }

  /** A payment created with only its required fields: the defaults apply. */
  function NewPayment(userId: nat, kind: PaymentType, amount: int, via: PaymentMethod,
                      description: string, now: int): (p: Payment)
    ensures p.status == Pending && p.currency == "TON"
    ensures p.transactionId.None? && p.walletAddress.None? && p.processedAt.None?
    ensures p.userId == userId && p.kind == kind && p.amount == amount && p.paymentMethod == via
    ensures amount >= 0 && |description| <= MaxDescription ==> SchemaValid(p)
  {
    Payment(userId, kind, amount, "TON", Pending, via, None, None, description, None, now)
  }

  /** The pre-save hook: a document whose status was set to completed and that has
      no `processedAt` yet gets the current time. */
  function StampProcessedAt(p: Payment, statusModified: bool, now: int): (q: Payment)
    ensures q == p.(processedAt := q.processedAt)
    ensures p.processedAt.Some? ==> q.processedAt == p.processedAt
    ensures statusModified && p.status == Completed && p.processedAt.None? ==>
              q.processedAt == Some(now)
    ensures !statusModified || p.status != Completed ==> q == p
  {
    if statusModified && p.status == Completed && p.processedAt.None? then p.(processedAt := Some(now))
    else p
  }

  /** `processedAt` is set at most once, and only on a completed payment. */
  lemma {:induction false} StampOnce(p: Payment, m1: bool, t1: int, m2: bool, t2: int)
    requires p.processedAt.None?
    ensures var q := StampProcessedAt(StampProcessedAt(p, m1, t1), m2, t2);
            q.processedAt.Some? ==>
              (q.status == Completed && q.processedAt == (if m1 then Some(t1) else Some(t2)))
  {
  }

  /** A mongoose payment document: the record and whether its status path was
      assigned since it was loaded. */
  class PaymentDoc {
    var payment: Payment
    var statusModified: bool

    /** `Payment.create(...)`: the status is among the paths given a value. */
    constructor Create(p: Payment)
      ensures payment == p && statusModified
    {
      payment := p;
      statusModified := true;
    }

    /** `doc.status = s`. */
    method SetStatus(s: PaymentStatus)
      modifies this
      ensures payment == old(payment).(status := s) && statusModified
    {
      payment := payment.(status := s);
      statusModified := true;
    }

    /** `save()`: the pre-save hook runs, then no path counts as modified. */
    method Save(now: int)
      modifies this
      ensures payment == StampProcessedAt(old(payment), old(statusModified), now)
      ensures !statusModified
    {
      if statusModified && payment.status == Completed && payment.processedAt.None? {
        payment := payment.(processedAt := Some(now));
      }
      statusModified := false;
    }
  }
}
