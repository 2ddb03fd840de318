/** The withdrawal dialog (src/components/WithdrawalDialog.tsx): the checks
    a request must pass before the wallet hook is asked to withdraw, the
    account details it sends, and the form state it resets on success. */
module WithdrawalDialog {
  import opened Wrappers
  import opened Text
  import opened Ledger
  import opened UseWallet

  /** Why a withdrawal was refused, one per toast. */
  datatype Refusal = InvalidAmount | InsufficientBalance | MissingDetails

  /** The amount field read as a number of cedis; `None` is NaN. */
  function ParsedAmount(amount: string): Option<int>
  {
    ParseInt(amount)
  }

  /** `!amount || parseFloat(amount) <= 0`; a NaN amount is not `<= 0`. */
  predicate AmountInvalid(amount: string)
  {
    amount == "" || (ParsedAmount(amount).Some? && ParsedAmount(amount).value <= 0)
  }

  /** `!wallet || parseFloat(amount) * 100 > wallet.balance`; NaN is not `>` anything. */
  predicate BalanceShort(amount: string, wallet: Option<UserWallet>)
  {
    wallet.None? || (ParsedAmount(amount).Some? && ParsedAmount(amount).value * 100 > wallet.value.balance)
  }

  predicate DetailsMissing(accountNumber: string, accountName: string)
  {
    accountNumber == "" || accountName == ""
  }

  /** The guards of `handleWithdrawal`, in their order: the first that fails
      decides the refusal. */
  function CheckWithdrawal(amount: string, wallet: Option<UserWallet>, accountNumber: string, accountName: string): (refusal: Option<Refusal>)
    ensures refusal.None? <==> !AmountInvalid(amount) && !BalanceShort(amount, wallet) && !DetailsMissing(accountNumber, accountName)
    ensures refusal == Some(InvalidAmount) <==> AmountInvalid(amount)
    ensures refusal == Some(InsufficientBalance) <==> !AmountInvalid(amount) && BalanceShort(amount, wallet)
  {
    if AmountInvalid(amount) then Some(InvalidAmount)
    else if BalanceShort(amount, wallet) then Some(InsufficientBalance)
    else if DetailsMissing(accountNumber, accountName) then Some(MissingDetails)
    else None
  }

  /** A numeric amount that passes the checks is positive, fits the wallet's
      balance once converted to pesewas, and comes with both account fields. */
  lemma AcceptedWithdrawalFitsBalance(amount: string, wallet: Option<UserWallet>, accountNumber: string, accountName: string)
    requires CheckWithdrawal(amount, wallet, accountNumber, accountName).None?
    requires ParsedAmount(amount).Some?
    ensures wallet.Some?
    ensures 0 < ToPesewas(ParsedAmount(amount)).value <= wallet.value.balance
    ensures accountNumber != "" && accountName != ""
  {
  }

  /** For a whole number of cedis typed in, the dialog goes on exactly when
      the amount is positive, at most the balance, and both account fields
      are filled in. */
  lemma {:induction false} TypedAmountChecks(n: nat, wallet: UserWallet, accountNumber: string, accountName: string)
    ensures CheckWithdrawal(DecimalString(n), Some(wallet), accountNumber, accountName).None?
        <==> 0 < n && n * 100 <= wallet.balance && accountNumber != "" && accountName != ""
  {
    ParseIntDecimal(n);
  }

  /** The `account_details` sent with the request; `bankCode` is `undefined`
      (`None`) except for a bank transfer. */
  datatype AccountDetailsBody = AccountDetailsBody(accountNumber: string, accountName: string, bankCode: Option<string>)

  function AccountDetailsFor(destination: string, accountNumber: string, accountName: string, bankCode: string): (details: AccountDetailsBody)
    ensures details.bankCode.Some? <==> destination == "bank_transfer"
    ensures details.bankCode.Some? ==> details.bankCode.value == bankCode
    ensures details.accountNumber == accountNumber && details.accountName == accountName
  {
    AccountDetailsBody(accountNumber, accountName, if destination == "bank_transfer" then Some(bankCode) else None)
  }

  /** The dialog's form state, over its own wallet hook. */
  class WithdrawalForm {
    var amount: string
    var destination: string
    var accountNumber: string
    var accountName: string
    var bankCode: string
    var loading: bool
    var open: bool
    const hook: WalletHook

    constructor (hook: WalletHook, open: bool)
      ensures this.hook == hook && this.open == open
      ensures amount == "" && destination == "mtn_momo" && accountNumber == "" && accountName == "" && bankCode == ""
      ensures !loading
    {
      this.hook := hook;
      this.open := open;
      amount := "";
      destination := "mtn_momo";
      accountNumber := "";
      accountName := "";
      bankCode := "";
      loading := false;
    }

    /** `handleWithdrawal`: a refused request changes nothing and asks the
        hook for nothing. Otherwise the hook is asked with the amount, the
        destination and the account details; `loading` is false again
        afterwards. Only a truthy result closes the dialog and clears the
        amount and account fields; the destination is kept. */
    method HandleWithdrawal<T>(reply: InvokeReply<T>)
      returns (refusal: Option<Refusal>, invocation: Option<WithdrawalInvocation<AccountDetailsBody>>, succeeded: bool)
      modifies this`amount, this`accountNumber, this`accountName, this`bankCode, this`loading, this`open
      ensures refusal == CheckWithdrawal(old(amount), hook.wallet, old(accountNumber), old(accountName))
      ensures refusal.Some? ==> invocation.None? && !succeeded && loading == old(loading)
      ensures refusal.None? ==> !loading
      ensures refusal.None? && hook.user.Some? ==>
        invocation == Some(WithdrawalInvocation(ToPesewas(ParsedAmount(old(amount))), destination,
          AccountDetailsFor(destination, old(accountNumber), old(accountName), old(bankCode)), hook.wallet.value.id))
      ensures refusal.None? && hook.user.None? ==> invocation.None?
      ensures succeeded <==> refusal.None? && hook.user.Some? && reply.Delivered?
      ensures succeeded ==> amount == "" && accountNumber == "" && accountName == "" && bankCode == "" && !open
      ensures !succeeded ==>
        amount == old(amount) && accountNumber == old(accountNumber) && accountName == old(accountName)
        && bankCode == old(bankCode) && open == old(open)
    {
      refusal := CheckWithdrawal(amount, hook.wallet, accountNumber, accountName);
      if refusal.Some? {
        return refusal, None, false;
      }
      loading := true;
      var details := AccountDetailsFor(destination, accountNumber, accountName, bankCode);
      var result;
      invocation, result := hook.InitiateWithdrawal(ParsedAmount(amount), destination, details, reply);
      succeeded := result.Some?;
      if succeeded {
        open := false;
        amount := "";
        accountNumber := "";
        accountName := "";
        bankCode := "";
      }
      loading := false;
    }
  }
}
