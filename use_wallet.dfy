/** The wallet hook (src/hooks/useWallet.tsx): the state it keeps (`wallet`,
    `transactions`, `loading`), the type sets behind the spending/earning
    filter, and the guards in front of the two edge-function invocations. The
    store's tables and the invocation replies are inputs. */
module UseWallet {
  import opened Wrappers
  import opened Seqs
  import opened Ledger

  /** A `user_wallets` row. */
  datatype UserWallet = UserWallet(id: string, userId: string, balance: int, currency: string)

  /** The history filter `'all' | 'spending' | 'earning'`. */
  datatype TransactionFilter = AllTypes | SpendingTypes | EarningTypes

  /** The `.in('type', ...)` restriction a filter adds; `None` is no restriction. */
  function TypeSet(filter: Option<TransactionFilter>): (types: Option<set<TxType>>)
    ensures filter == Some(SpendingTypes) ==> types == Some({Spending, Withdrawal})
    ensures filter == Some(EarningTypes) ==> types == Some({Earning, TopUp, Refund})
    ensures filter.None? || filter == Some(AllTypes) ==> types.None?
  {
    match filter
    case Some(SpendingTypes) => Some({Spending, Withdrawal})
    case Some(EarningTypes) => Some({Earning, TopUp, Refund})
    case _ => None
  }

  predicate Selects(filter: Option<TransactionFilter>, t: TxType)
  {
    TypeSet(filter).None? || t in TypeSet(filter).value
  }

  /** Every declared type is selected by exactly one of the two restricting
      filters, and by `all` and by no filter. */
  lemma SpendingAndEarningPartitionTypes(t: TxType)
    ensures Selects(Some(SpendingTypes), t) != Selects(Some(EarningTypes), t)
    ensures Selects(Some(AllTypes), t) && Selects(None, t)
  {
  }

  /** The rows of `wallet_transactions` the query returns: the user's own,
      of a selected type, in table order. */
  function TransactionsQuery(table: seq<WalletTransaction>, userId: string, filter: Option<TransactionFilter>): seq<WalletTransaction>
  {
    Filter(table, (row: WalletTransaction) => row.userId == userId && Selects(filter, row.txType))
  }

  lemma QueryMembership(table: seq<WalletTransaction>, userId: string, filter: Option<TransactionFilter>, row: WalletTransaction)
    ensures row in TransactionsQuery(table, userId, filter) <==>
      row in table && row.userId == userId && Selects(filter, row.txType)
  {
    var keep := (row: WalletTransaction) => row.userId == userId && Selects(filter, row.txType);
    if row in table && keep(row) {
      var i :| 0 <= i < |table| && table[i] == row;
    }
  }

  /** The spending and earning histories split the unrestricted one. */
  lemma {:induction false} FiltersSplitHistory(table: seq<WalletTransaction>, userId: string)
    ensures |TransactionsQuery(table, userId, Some(SpendingTypes))| + |TransactionsQuery(table, userId, Some(EarningTypes))|
         == |TransactionsQuery(table, userId, None)|
  {
    if table != [] {
      FiltersSplitHistory(table[1..], userId);
      SpendingAndEarningPartitionTypes(table[0].txType);
    }
  }

  /** The `body` of the `paystack-topup` invocation; `amount` is in pesewas,
      `None` for a NaN amount. */
  datatype TopUpInvocation = TopUpInvocation(amount: Option<int>, paymentMethod: string, walletId: string)

  /** The `body` of the `paystack-withdrawal` invocation; `amount` as for a top-up. */
  datatype WithdrawalInvocation<Details> = WithdrawalInvocation(amount: Option<int>, destination: string, accountDetails: Details, walletId: string)

  /** What `supabase.functions.invoke` gives back. */
  datatype InvokeReply<T> = Delivered(data: T) | InvokeFailed(message: string)

  class WalletHook {
    const user: Option<AuthUser>
    var wallet: Option<UserWallet>
    var transactions: seq<WalletTransaction>
    var loading: bool

    constructor (user: Option<AuthUser>)
      ensures this.user == user && wallet.None? && transactions == [] && loading
    {
      this.user := user;
      wallet := None;
      transactions := [];
      loading := true;
    }

    /** `fetchWallet`: `.single()` succeeds only when the store answers
        (`querySucceeds`, false on a network or access error) and the user
        has exactly one wallet row; otherwise the error is toasted and
        nothing changes. */
    method FetchWallet(walletTable: seq<UserWallet>, querySucceeds: bool)
      modifies this`wallet
      ensures user.None? ==> wallet == old(wallet)
      ensures user.Some? ==>
        var mine := Filter(walletTable, (w: UserWallet) => w.userId == user.value.id);
        wallet == if querySucceeds && |mine| == 1 then Some(mine[0]) else old(wallet)
    {
      if user.None? || !querySucceeds {
        return;
      }
      var mine := Filter(walletTable, (w: UserWallet) => w.userId == user.value.id);
      if |mine| == 1 {
        wallet := Some(mine[0]);
      }
    }

    /** `fetchTransactions`: nothing at all without a user; otherwise the
        query result replaces the list when it succeeds, and `loading` is
        cleared whether it succeeds or fails. */
    method FetchTransactions(filter: Option<TransactionFilter>, table: seq<WalletTransaction>, querySucceeds: bool)
      modifies this`transactions, this`loading
      ensures user.None? ==> transactions == old(transactions) && loading == old(loading)
      ensures user.Some? ==> !loading
      ensures user.Some? ==>
        transactions == if querySucceeds then TransactionsQuery(table, user.value.id, filter) else old(transactions)
    {
      if user.None? {
        return;
      }
      if querySucceeds {
        transactions := TransactionsQuery(table, user.value.id, filter);
      }
      loading := false;
    }

    /** `initiateTopUp`: null without invoking when the user or the wallet is
        missing; otherwise one invocation carrying the amount converted from
        cedis to pesewas and the wallet's id, and null when it reports an
        error. */
    method InitiateTopUp<T>(amount: Option<int>, paymentMethod: string, reply: InvokeReply<T>)
      returns (invocation: Option<TopUpInvocation>, result: Option<T>)
      ensures user.None? || wallet.None? ==> invocation.None? && result.None?
      ensures user.Some? && wallet.Some? ==>
        invocation == Some(TopUpInvocation(ToPesewas(amount), paymentMethod, wallet.value.id))
        && result == if reply.Delivered? then Some(reply.data) else None
    {
      if user.None? || wallet.None? {
        return None, None;
      }
      invocation := Some(TopUpInvocation(ToPesewas(amount), paymentMethod, wallet.value.id));
      result := if reply.Delivered? then Some(reply.data) else None;
    }

    /** `initiateWithdrawal`: the same guards and error handling. */
    method InitiateWithdrawal<Details, T>(amount: Option<int>, destination: string, accountDetails: Details, reply: InvokeReply<T>)
      returns (invocation: Option<WithdrawalInvocation<Details>>, result: Option<T>)
      ensures user.None? || wallet.None? ==> invocation.None? && result.None?
      ensures user.Some? && wallet.Some? ==>
        invocation == Some(WithdrawalInvocation(ToPesewas(amount), destination, accountDetails, wallet.value.id))
        && result == if reply.Delivered? then Some(reply.data) else None
    {
      if user.None? || wallet.None? {
        return None, None;
      }
      invocation := Some(WithdrawalInvocation(ToPesewas(amount), destination, accountDetails, wallet.value.id));
      result := if reply.Delivered? then Some(reply.data) else None;
    }
  }
}
