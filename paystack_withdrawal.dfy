/** The wallet withdrawal endpoint (supabase/functions/paystack-withdrawal/index.ts):
    authenticate, check the amount, create a Paystack transfer recipient,
    start a transfer to it from the balance, and only then append one pending
    `withdrawal` row. Both Paystack replies, the insert outcome and
    `Date.now()` (read when the transfer is built) are inputs. */
module PaystackWithdrawal {
  import opened Wrappers
  import opened Ledger

  /** `account_details`; an absent bank code is "". */
  datatype AccountDetails = AccountDetails(accountNumber: string, accountName: string, bankCode: string)

  /** The JSON body `{amount, destination, account_details, wallet_id}`. */
  datatype WithdrawalRequest = WithdrawalRequest(amount: Option<int>, destination: string, accountDetails: AccountDetails, walletId: string)

  /** The two outbound Paystack calls, in the order they are made. */
  datatype WithdrawalCall =
    | CreateRecipient(recipientType: string, name: string, accountNumber: string, bankCode: string, currency: string)
    | InitiateTransfer(source: string, amount: int, recipient: string, reason: string, reference: string)

  datatype RecipientReply = RecipientReply(status: bool, message: string, recipientCode: string)

  datatype TransferReply = TransferReply(status: bool, message: string, reference: string, transferCode: string)

  /** `{status: true, message, reference}` (200) or `{status: false, message}` (500). */
  datatype WithdrawalResponse = WithdrawalInitiated(message: string, reference: string) | WithdrawalFailed(message: string)
  {
    function HttpStatus(): int
    {
      if WithdrawalInitiated? then 200 else 500
    }
  }

  predicate ValidAmount(amount: Option<int>)
  {
    amount.Some? && amount.value > 0
  }

  /** `ghipss` for bank transfers, `mobile_money` for everything else. */
  function RecipientType(destination: string): (t: string)
    ensures t == "ghipss" <==> destination == "bank_transfer"
    ensures t == "mobile_money" <==> destination != "bank_transfer"
  {
    if destination == "bank_transfer" then "ghipss" else "mobile_money"
  }

  /** `bank_code || (destination === 'mtn_momo' ? 'MTN' : 'VOD')`. */
  function BankCode(supplied: string, destination: string): (code: string)
    ensures supplied != "" ==> code == supplied
    ensures supplied == "" && destination == "mtn_momo" ==> code == "MTN"
    ensures supplied == "" && destination != "mtn_momo" ==> code == "VOD"
  {
    if supplied != "" then supplied else if destination == "mtn_momo" then "MTN" else "VOD"
  }

  function RecipientError(reply: RecipientReply): string
  {
    if reply.message != "" then reply.message else "Failed to create recipient"
  }

  function TransferError(reply: TransferReply): string
  {
    if reply.message != "" then reply.message else "Failed to initiate transfer"
  }

  method HandleWithdrawal(ledger: seq<WalletTransaction>, user: Option<AuthUser>, request: WithdrawalRequest,
                          now: nat, recipient: RecipientReply, transfer: TransferReply, insertSucceeds: bool)
    returns (response: WithdrawalResponse, calls: seq<WithdrawalCall>, ledger': seq<WalletTransaction>)
    ensures !HasEmail(user) ==>
      response == WithdrawalFailed("User not authenticated") && calls == [] && ledger' == ledger
    ensures HasEmail(user) && !ValidAmount(request.amount) ==>
      response == WithdrawalFailed("Invalid amount") && calls == [] && ledger' == ledger
    // the first call always registers the recipient
    ensures HasEmail(user) && ValidAmount(request.amount) ==>
      1 <= |calls| && calls[0] == CreateRecipient(RecipientType(request.destination),
                                                   request.accountDetails.accountName,
                                                   request.accountDetails.accountNumber,
                                                   BankCode(request.accountDetails.bankCode, request.destination), "GHS")
    // recipient rejected: no transfer call, no row
    ensures HasEmail(user) && ValidAmount(request.amount) && !recipient.status ==>
      response == WithdrawalFailed(RecipientError(recipient)) && |calls| == 1 && ledger' == ledger
    // recipient accepted: the transfer pays that recipient from the balance
    ensures HasEmail(user) && ValidAmount(request.amount) && recipient.status ==>
      calls == [calls[0], InitiateTransfer("balance", request.amount.value, recipient.recipientCode,
                                           "Wallet withdrawal", StampedReference("withdrawal_", now, user.value.id))]
    ensures HasEmail(user) && ValidAmount(request.amount) && recipient.status && !transfer.status ==>
      response == WithdrawalFailed(TransferError(transfer)) && ledger' == ledger
    // both accepted: one pending row carrying both codes
    ensures HasEmail(user) && ValidAmount(request.amount) && recipient.status && transfer.status ==>
      response == WithdrawalInitiated("Withdrawal initiated successfully", transfer.reference)
      && ledger' == ledger + (if insertSucceeds then
           [WalletTransaction(request.walletId, user.value.id, Withdrawal, request.amount.value, Pending,
                              Some(request.destination), Some(transfer.reference), None,
                              Some("Withdrawal to " + request.accountDetails.accountName),
                              TransferCodes(recipient.recipientCode, transfer.transferCode))]
         else [])
    ensures |ledger| <= |ledger'| <= |ledger| + 1 && ledger'[..|ledger|] == ledger
    ensures |ledger'| == |ledger| + 1 <==> |calls| == 2 && transfer.status && insertSucceeds
    ensures response.HttpStatus() == 200 <==> |calls| == 2 && transfer.status
  {
    if !HasEmail(user) {
      return WithdrawalFailed("User not authenticated"), [], ledger;
    }
    var caller := user.value;
    if request.amount.None? || request.amount.value <= 0 {
      return WithdrawalFailed("Invalid amount"), [], ledger;
    }
    var amount := request.amount.value;
    var details := request.accountDetails;
    calls := [CreateRecipient(RecipientType(request.destination), details.accountName, details.accountNumber,
                              BankCode(details.bankCode, request.destination), "GHS")];
    if !recipient.status {
      return WithdrawalFailed(RecipientError(recipient)), calls, ledger;
    }
    calls := calls + [InitiateTransfer("balance", amount, recipient.recipientCode, "Wallet withdrawal",
                                       StampedReference("withdrawal_", now, caller.id))];
    if !transfer.status {
      return WithdrawalFailed(TransferError(transfer)), calls, ledger;
    }
    ledger' := ledger;
    if insertSucceeds {
      ledger' := ledger' + [WalletTransaction(request.walletId, caller.id, Withdrawal, amount, Pending,
                                              Some(request.destination), Some(transfer.reference), None,
                                              Some("Withdrawal to " + details.accountName),
                                              TransferCodes(recipient.recipientCode, transfer.transferCode))];
    }
    response := WithdrawalInitiated("Withdrawal initiated successfully", transfer.reference);
  }
}
