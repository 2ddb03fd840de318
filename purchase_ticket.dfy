/** The event ticket purchase endpoint (supabase/functions/purchase-ticket/index.ts):
    authenticate, check the fields, look the customer up by email in Stripe,
    generate a ticket code, open a one-item Checkout session, and only then
    insert the `event_tickets` row. Stripe's replies (or the errors its SDK
    throws), the insert outcome, the request origin and the text of
    `Math.random().toString(36)` are inputs. */
module PurchaseTicket {
  import opened Wrappers
  import opened Text
  import opened Ledger

  /** The error messages and the success path the handler writes. */
  const NotAuthenticated: string := "User not authenticated or email not available"
  const MissingFields: string := "Missing required fields: event_id and amount"
  const SuccessPath: string := "/events/ticket-success?session_id={CHECKOUT_SESSION_ID}"

  /** The JSON body `{event_id, amount}`; an absent event id is "". */
  datatype TicketRequest = TicketRequest(eventId: string, amount: Option<int>)

  datatype LineItem = LineItem(currency: string, productName: string, productDescription: string, unitAmount: int, quantity: nat)

  datatype SessionMetadata = SessionMetadata(eventId: string, userId: string, ticketCode: string)

  /** The parameters of `stripe.checkout.sessions.create`. */
  datatype SessionParams = SessionParams(
    customer: Option<string>,
    customerEmail: Option<string>,
    lineItems: seq<LineItem>,
    mode: string,
    successUrl: string,
    cancelUrl: string,
    metadata: SessionMetadata)

  /** The two Stripe calls, in the order they are made. */
  datatype StripeCall = ListCustomers(email: string, limit: nat) | CreateSession(params: SessionParams)

  datatype CheckoutSession = CheckoutSession(id: string, url: string)

  /** `{url}` (200) or `{error}` (500). */
  datatype TicketResponse = CheckoutUrl(url: string) | TicketFailed(error: string)
  {
    function HttpStatus(): int
    {
      if CheckoutUrl? then 200 else 500
    }
  }

  /** `!event_id || !amount`: a zero amount is missing, a negative one is not. */
  predicate HasRequiredFields(request: TicketRequest)
  {
    request.eventId != "" && request.amount.Some? && request.amount.value != 0
  }

  /** `'TIX-' + randomText.substr(2, 8).toUpperCase()`. */
  function TicketCode(randomText: string): string
  {
    "TIX-" + ToUpperCase(Substr(randomText, 2, 8))
  }

  predicate IsBase36Lower(c: char)
  {
    '0' <= c <= '9' || 'a' <= c <= 'z'
  }

  predicate IsBase36Upper(c: char)
  {
    '0' <= c <= '9' || 'A' <= c <= 'Z'
  }

  /** For the text `Math.random().toString(36)` produces ("0." and base-36
      digits, or "0"), the code is `TIX-` and at most eight characters of
      [0-9A-Z]; exactly eight when the random text has eight fraction digits. */
  lemma TicketCodeShape(randomText: string)
    requires randomText == "0" || (|randomText| >= 2 && randomText[..2] == "0.")
    requires forall i :: 2 <= i < |randomText| ==> IsBase36Lower(randomText[i])
    ensures var code := TicketCode(randomText);
      && code[..4] == "TIX-"
      && 4 <= |code| <= 12
      && (forall i :: 4 <= i < |code| ==> IsBase36Upper(code[i]))
      && (|randomText| >= 10 ==> |code| == 12)
  {
    var tail := Substr(randomText, 2, 8);
    assert forall i :: 0 <= i < |tail| ==> tail[i] == randomText[2 + i];
  }

  /** The one line item: the ticket, quantity 1, priced at the request amount. */
  function TicketLineItem(eventId: string, amount: int): LineItem
  {
    LineItem("usd", "Event Ticket", "Ticket for event " + eventId, amount, 1)
  }

  method HandlePurchase(tickets: seq<EventTicket>, user: Option<AuthUser>, request: TicketRequest, origin: string,
                        randomText: string, customers: Result<seq<string>, string>,
                        session: Result<CheckoutSession, string>, insertError: Option<string>)
    returns (response: TicketResponse, calls: seq<StripeCall>, tickets': seq<EventTicket>)
    ensures !HasEmail(user) ==>
      response == TicketFailed(NotAuthenticated) && calls == [] && tickets' == tickets
    ensures HasEmail(user) && !HasRequiredFields(request) ==>
      response == TicketFailed(MissingFields) && calls == [] && tickets' == tickets
    ensures HasEmail(user) && HasRequiredFields(request) ==>
      1 <= |calls| && calls[0] == ListCustomers(user.value.email, 1)
    ensures HasEmail(user) && HasRequiredFields(request) && customers.Failure? ==>
      response == TicketFailed(customers.error) && |calls| == 1 && tickets' == tickets
    // the session: the found customer, or the email when there is none; one item; the code in its metadata
    ensures HasEmail(user) && HasRequiredFields(request) && customers.Success? ==>
      var customerId := if |customers.value| > 0 then Some(customers.value[0]) else None;
      calls == [calls[0], CreateSession(SessionParams(
        customerId,
        if customerId.None? then Some(user.value.email) else None,
        [TicketLineItem(request.eventId, request.amount.value)],
        "payment",
        origin + SuccessPath,
        origin + "/events",
        SessionMetadata(request.eventId, user.value.id, TicketCode(randomText))))]
    ensures HasEmail(user) && HasRequiredFields(request) && customers.Success? && session.Failure? ==>
      response == TicketFailed(session.error) && tickets' == tickets
    // the ticket row exists only after the session, and the URL is returned only when the row was written
    ensures HasEmail(user) && HasRequiredFields(request) && customers.Success? && session.Success? ==>
      && (insertError.Some? ==> response == TicketFailed(insertError.value) && tickets' == tickets)
      && (insertError.None? ==>
            response == CheckoutUrl(session.value.url)
            && tickets' == tickets + [EventTicket(request.eventId, user.value.id, TicketCode(randomText),
                                                  request.amount.value, session.value.id)])
    ensures |tickets| <= |tickets'| <= |tickets| + 1 && tickets'[..|tickets|] == tickets
    ensures |tickets'| == |tickets| + 1 <==> response.CheckoutUrl?
    ensures response.CheckoutUrl? ==>
      |calls| == 2 && calls[1].CreateSession? && calls[1].params.metadata.ticketCode == tickets'[|tickets|].ticketCode
  {
    if !HasEmail(user) {
      return TicketFailed(NotAuthenticated), [], tickets;
    }
    var caller := user.value;
    if request.eventId == "" || request.amount.None? || request.amount.value == 0 {
      return TicketFailed(MissingFields), [], tickets;
    }
    var amount := request.amount.value;
    calls := [ListCustomers(caller.email, 1)];
    if customers.Failure? {
      return TicketFailed(customers.error), calls, tickets;
    }
    var customerId: Option<string> := None;
    if |customers.value| > 0 {
      customerId := Some(customers.value[0]);
    }
    var ticketCode := TicketCode(randomText);
    var params := SessionParams(customerId, if customerId.None? then Some(caller.email) else None,
                                [TicketLineItem(request.eventId, amount)], "payment",
                                origin + SuccessPath,
                                origin + "/events",
                                SessionMetadata(request.eventId, caller.id, ticketCode));
    calls := calls + [CreateSession(params)];
    if session.Failure? {
      return TicketFailed(session.error), calls, tickets;
    }
    if insertError.Some? {
      return TicketFailed(insertError.value), calls, tickets;
    }
    tickets' := tickets + [EventTicket(request.eventId, caller.id, ticketCode, amount, session.value.id)];
    response := CheckoutUrl(session.value.url);
  }
}
