/** The wallet top-up endpoint (supabase/functions/paystack-topup/index.ts):
    authenticate, check the amount, ask Paystack to initialise a transaction,
    and on success append one pending `top_up` row to `wallet_transactions`.
    The Paystack reply, the store's insert outcome, the request origin and
    `Date.now()` are inputs. */
module PaystackTopUp {
  import opened Wrappers
  import opened Ledger

  /** The JSON body `{amount, payment_method, wallet_id}`; an absent or NaN amount is `None`. */
  datatype TopUpRequest = TopUpRequest(amount: Option<int>, paymentMethod: string, walletId: string)

  /** The `metadata` object sent with the initialisation. */
  datatype TopUpMetadata = TopUpMetadata(userId: string, walletId: string, paymentMethod: string, txType: string)

  /** The POST to /transaction/initialize. */
  datatype InitializeCall = InitializeCall(
    email: string,
    amount: int,
    currency: string,
    reference: string,
    callbackUrl: string,
    metadata: TopUpMetadata,
    channels: seq<string>)

  /** Paystack's reply; a missing message is "". */
  datatype InitializeReply = InitializeReply(status: bool, message: string, reference: string, authorizationUrl: string)

  /** `{status: true, authorization_url, reference}` (200) or `{status: false, message}` (500). */
  datatype TopUpResponse = Initialized(authorizationUrl: string, reference: string) | TopUpFailed(message: string)
  {
    function HttpStatus(): int
    {
      if Initialized? then 200 else 500
    }
  }

  /** `!amount || amount <= 0` rejects the amount. */
  predicate ValidAmount(amount: Option<int>)
  {
    amount.Some? && amount.value > 0
  }

  /** The channel list the gateway may offer. */
  function Channels(paymentMethod: string): (channels: seq<string>)
    ensures channels == ["card"] <==> paymentMethod == "bank_card"
    ensures channels == ["mobile_money"] <==> paymentMethod != "bank_card"
  {
    if paymentMethod == "bank_card" then ["card"] else ["mobile_money"]
  }

  /** `message || "Failed to initialize payment"`. */
  function InitializeError(reply: InitializeReply): string
  {
    if reply.message != "" then reply.message else "Failed to initialize payment"
  }

  method HandleTopUp(ledger: seq<WalletTransaction>, user: Option<AuthUser>, request: TopUpRequest,
                     origin: string, now: nat, reply: InitializeReply, insertSucceeds: bool)
    returns (response: TopUpResponse, calls: seq<InitializeCall>, ledger': seq<WalletTransaction>)
    // guards: no gateway call and no row
    ensures !HasEmail(user) ==>
      response == TopUpFailed("User not authenticated") && calls == [] && ledger' == ledger
    ensures HasEmail(user) && !ValidAmount(request.amount) ==>
      response == TopUpFailed("Invalid amount") && calls == [] && ledger' == ledger
    // past the guards: exactly one initialisation call
    ensures HasEmail(user) && ValidAmount(request.amount) ==>
      calls == [InitializeCall(user.value.email, request.amount.value, "GHS",
                               StampedReference("topup_", now, user.value.id), origin + "/wallet",
                               TopUpMetadata(user.value.id, request.walletId, request.paymentMethod, "top_up"),
                               Channels(request.paymentMethod))]
    ensures HasEmail(user) && ValidAmount(request.amount) && !reply.status ==>
      response == TopUpFailed(InitializeError(reply)) && ledger' == ledger
    // success: the reply's reference and URL are returned whether or not the insert worked
    ensures HasEmail(user) && ValidAmount(request.amount) && reply.status ==>
      response == Initialized(reply.authorizationUrl, reply.reference)
      && ledger' == ledger + (if insertSucceeds then
           [WalletTransaction(request.walletId, user.value.id, TopUp, request.amount.value, Pending,
                              Some(request.paymentMethod), Some(reply.reference), None,
                              Some("Wallet top-up"), NoMetadata)]
         else [])
    // summary: at most one row, and only after a successful gateway reply
    ensures |ledger| <= |ledger'| <= |ledger| + 1 && ledger'[..|ledger|] == ledger
    ensures |ledger'| == |ledger| + 1 <==> |calls| == 1 && reply.status && insertSucceeds
    ensures response.HttpStatus() == 200 <==> |calls| == 1 && reply.status
  {
    if !HasEmail(user) {
      return TopUpFailed("User not authenticated"), [], ledger;
    }
    var caller := user.value;
    if request.amount.None? || request.amount.value <= 0 {
      return TopUpFailed("Invalid amount"), [], ledger;
    }
    var amount := request.amount.value;
    var call := InitializeCall(caller.email, amount, "GHS", StampedReference("topup_", now, caller.id),
                               origin + "/wallet",
                               TopUpMetadata(caller.id, request.walletId, request.paymentMethod, "top_up"),
                               Channels(request.paymentMethod));
    calls := [call];
    if !reply.status {
      return TopUpFailed(InitializeError(reply)), calls, ledger;
    }
    ledger' := ledger;
    if insertSucceeds {
      ledger' := ledger' + [WalletTransaction(request.walletId, caller.id, TopUp, amount, Pending,
                                              Some(request.paymentMethod), Some(reply.reference), None,
                                              Some("Wallet top-up"), NoMetadata)];
    }
    response := Initialized(reply.authorizationUrl, reply.reference);
  }
}
