/** The rows the payment flows write: `wallet_transactions` (declared as the
    `WalletTransaction` interface of the wallet hook) and `event_tickets`, and
    the authenticated user the handlers resolve from the bearer token. */
module Ledger {
  import opened Wrappers
  import opened Text

  /** The five declared transaction types. */
  datatype TxType = TopUp | Withdrawal | Spending | Earning | Refund

  /** The four declared transaction statuses. */
  datatype TxStatus = Pending | Completed | Failed | Cancelled

  /** The text stored in the `type` column. */
  function TypeName(t: TxType): string
  {
    match t
    case TopUp => "top_up"
    case Withdrawal => "withdrawal"
    case Spending => "spending"
    case Earning => "earning"
    case Refund => "refund"
  }

  lemma TypeNameInjective(t: TxType, u: TxType)
    requires TypeName(t) == TypeName(u)
    ensures t == u
  {
  }

  /** The `metadata` column: empty for top-ups, the two transfer codes for withdrawals. */
  datatype Metadata = NoMetadata | TransferCodes(recipientCode: string, transferCode: string)

  /** A `wallet_transactions` row. The store-assigned `id`, `created_at` and
      `updated_at` columns are not part of the model. */
  datatype WalletTransaction = WalletTransaction(
    walletId: string,
    userId: string,
    txType: TxType,
    amount: int,
    status: TxStatus,
    paymentMethod: Option<string>,
    paystackReference: Option<string>,
    paystackTransactionId: Option<string>,
    description: Option<string>,
    metadata: Metadata)

  /** An `event_tickets` row as the ticket purchase inserts it. */
  datatype EventTicket = EventTicket(
    eventId: string,
    userId: string,
    ticketCode: string,
    purchasePrice: int,
    stripePaymentIntentId: string)

  /** `x * 100`: whole cedis to pesewas. A NaN amount (`None`) stays NaN,
      which a JSON body carries as `null`. */
  function ToPesewas(cedis: Option<int>): (pesewas: Option<int>)
    ensures pesewas.Some? <==> cedis.Some?
    ensures pesewas.Some? ==> pesewas.value == 100 * cedis.value && (pesewas.value > 0 <==> cedis.value > 0)
  {
    if cedis.Some? then Some(cedis.value * 100) else None
  }

  /** The user the platform resolves from the bearer token; an absent email is "". */
  datatype AuthUser = AuthUser(id: string, email: string)

  /** `user?.email` is truthy. */
  predicate HasEmail(user: Option<AuthUser>)
  {
    user.Some? && user.value.email != ""
  }

  /** `${kind}${Date.now()}_${user.id.slice(0, 8)}`: the locally generated
      reference of a top-up (`kind` = "topup_") or a transfer (`kind` = "withdrawal_"). */
  function StampedReference(kind: string, now: nat, userId: string): (r: string)
    ensures |r| > |kind| && r[..|kind|] == kind
  {
    kind + DecimalString(now) + "_" + Prefix(userId, 8)
  }

  /** Within one kind, the reference determines the timestamp and the first
      eight characters of the user id. */
  lemma StampedReferenceInjective(kind: string, now1: nat, user1: string, now2: nat, user2: string)
    requires StampedReference(kind, now1, user1) == StampedReference(kind, now2, user2)
    ensures now1 == now2 && Prefix(user1, 8) == Prefix(user2, 8)
  {
    var d1, d2 := DecimalString(now1), DecimalString(now2);
    assert '_' !in d1 && '_' !in d2;
    StampedPartsInjective(kind, d1, Prefix(user1, 8), d2, Prefix(user2, 8));
    RadixStringInjective(now1, now2, 10);
  }

  /** The text after the kind splits at its first '_' when the number part holds none. */
  lemma StampedPartsInjective(kind: string, d1: string, p1: string, d2: string, p2: string)
    requires '_' !in d1 && '_' !in d2
    requires kind + d1 + "_" + p1 == kind + d2 + "_" + p2
    ensures d1 == d2 && p1 == p2
  {
    var s1, s2 := kind + d1 + "_" + p1, kind + d2 + "_" + p2;
    assert s1[|kind|..] == d1 + ['_'] + p1;
    assert s2[|kind|..] == d2 + ['_'] + p2;
    SeparatedPairInjective(d1, p1, d2, p2, '_');
  }

  /** A top-up reference never equals a withdrawal reference. */
  lemma TopUpAndWithdrawalReferencesDiffer(now1: nat, user1: string, now2: nat, user2: string)
    ensures StampedReference("topup_", now1, user1) != StampedReference("withdrawal_", now2, user2)
  {
    assert StampedReference("topup_", now1, user1)[0] == 't';
    assert StampedReference("withdrawal_", now2, user2)[0] == 'w';
  }
}
