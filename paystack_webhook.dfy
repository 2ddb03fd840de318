/** The Paystack webhook endpoint (supabase/functions/paystack-webhook/index.ts):
    it recomputes the signature of the raw body, rejects a mismatch, and
    dispatches on the event name to an update of every `wallet_transactions`
    row whose `paystack_reference` matches the event's reference. SHA-512 (with
    the text encoding in front of it) and `JSON.parse` are parameters. */
module PaystackWebhook {
  import opened Wrappers
  import opened Text
  import opened Ledger

  type Byte = b: nat | b < 256

  /** `b.toString(16).padStart(2, '0')`. */
  function ByteHex(b: Byte): string
  {
    PadStart(RadixString(b, 16), 2, '0')
  }

  /** The two lower-case hexadecimal digits of a byte, high digit first. */
  function HexPair(b: Byte): (pair: string)
    ensures |pair| == 2
  {
    [DigitChar(b / 16), DigitChar(b % 16)]
  }

  /** `toString(16)` then `padStart(2, '0')` writes exactly the two digits. */
  lemma ByteHexIsPair(b: Byte)
    ensures ByteHex(b) == HexPair(b)
  {
    if 16 <= b {
      assert RadixString(b / 16, 16) == [DigitChar(b / 16)];
    }
  }

  /** `Array.from(bytes).map(ByteHex).join('')`: the expected signature. */
  function HexEncode(digest: seq<Byte>): (hex: string)
  {
    Join(seq(|digest|, i requires 0 <= i < |digest| => ByteHex(digest[i])))
  }

  /** The signature has two characters per digest byte, and byte `i` is
      written at positions `2i` (high digit) and `2i + 1` (low digit). */
  lemma HexEncodeAt(digest: seq<Byte>, i: nat)
    requires i < |digest|
    ensures |HexEncode(digest)| == 2 * |digest|
    ensures HexEncode(digest)[2 * i] == HexPair(digest[i])[0]
    ensures HexEncode(digest)[2 * i + 1] == HexPair(digest[i])[1]
  {
    var parts := seq(|digest|, i requires 0 <= i < |digest| => ByteHex(digest[i]));
    forall j | 0 <= j < |parts| ensures |parts[j]| == 2 {
      ByteHexIsPair(digest[j]);
    }
    ByteHexIsPair(digest[i]);
    JoinPairsAt(parts, i);
  }

  /** Its length is twice the digest's. */
  lemma HexEncodeLength(digest: seq<Byte>)
    ensures |HexEncode(digest)| == 2 * |digest|
  {
    if digest != [] {
      HexEncodeAt(digest, 0);
    }
  }

  /** The expected signature uses only lower-case hexadecimal digits. */
  lemma HexEncodeLowerCase(digest: seq<Byte>, j: nat)
    requires j < |HexEncode(digest)|
    ensures var c := HexEncode(digest)[j]; '0' <= c <= '9' || 'a' <= c <= 'f'
  {
    HexEncodeLength(digest);
    var i := j / 2;
    HexEncodeAt(digest, i);
    assert j == 2 * i || j == 2 * i + 1;
  }

  /** Each byte's digit pair determines the byte. */
  lemma PairDeterminesByte(b: Byte, c: Byte)
    requires HexPair(b) == HexPair(c)
    ensures b == c
  {
    DigitRoundTrip(b / 16);
    DigitRoundTrip(b % 16);
    DigitRoundTrip(c / 16);
    DigitRoundTrip(c % 16);
  }

  /** Different digests give different signatures. */
  lemma HexEncodeInjective(d1: seq<Byte>, d2: seq<Byte>)
    requires HexEncode(d1) == HexEncode(d2)
    ensures d1 == d2
  {
    HexEncodeLength(d1);
    HexEncodeLength(d2);
    forall i | 0 <= i < |d1|
      ensures d1[i] == d2[i]
    {
      HexEncodeAt(d1, i);
      HexEncodeAt(d2, i);
      assert HexPair(d1[i]) == [HexEncode(d1)[2 * i], HexEncode(d1)[2 * i + 1]];
      PairDeterminesByte(d1[i], d2[i]);
    }
  }

  /** The event names the handler switches on. */
  datatype EventKind = ChargeSuccess | TransferSuccess | TransferFailed | ChargeFailed | Unhandled

  function Classify(name: string): EventKind
  {
    if name == "charge.success" then ChargeSuccess
    else if name == "transfer.success" then TransferSuccess
    else if name == "transfer.failed" then TransferFailed
    else if name == "charge.failed" then ChargeFailed
    else Unhandled
  }

  /** `event.data`: the reference to match and the gateway's transaction id. */
  datatype EventData = EventData(reference: string, id: string)

  /** A parsed body; `data` is absent when the JSON carries none. */
  datatype Envelope = Envelope(event: string, data: Option<EventData>)

  /** The update a handled event applies to each matching row. */
  datatype Settlement = Complete(transactionId: string) | Fail

  function SettlementOf(kind: EventKind, data: EventData): Settlement
    requires kind != Unhandled
  {
    if kind == ChargeSuccess || kind == TransferSuccess then Complete(data.id) else Fail
  }

  /** One row after the update: success sets the status and the gateway id,
      failure sets only the status. */
  function Settle(row: WalletTransaction, settlement: Settlement): WalletTransaction
  {
    match settlement
    case Complete(id) => row.(status := Completed, paystackTransactionId := Some(id))
    case Fail => row.(status := Failed)
  }

  /** `.update(...).eq('paystack_reference', reference)` over the whole table. */
  function SettleMatching(rows: seq<WalletTransaction>, reference: string, settlement: Settlement): (rows': seq<WalletTransaction>)
    ensures |rows'| == |rows|
    ensures forall i :: 0 <= i < |rows| ==>
      rows'[i] == if rows[i].paystackReference == Some(reference) then Settle(rows[i], settlement) else rows[i]
  {
    seq(|rows|, i requires 0 <= i < |rows| =>
      if rows[i].paystackReference == Some(reference) then Settle(rows[i], settlement) else rows[i])
  }

  /** The three plain-text responses. */
  datatype WebhookResponse = Acknowledged | InvalidSignature | ServerError
  {
    function Status(): int
    {
      match this
      case Acknowledged => 200
      case InvalidSignature => 400
      case ServerError => 500
    }

    function Body(): string
    {
      match this
      case Acknowledged => "OK"
      case InvalidSignature => "Invalid signature"
      case ServerError => "Server Error"
    }
  }

  /** The signature the handler accepts for `body`. */
  function ExpectedSignature(secret: string, body: string, sha512: string -> seq<Byte>): string
  {
    HexEncode(sha512(secret + body))
  }

  /** The whole handler as a function of the table before the request:
      the response and the table afterwards. A parse failure, or a handled
      event without `data` (a TypeError in the source), is a 500. Whether
      the store applied the update is `updateSucceeds`; its error is never
      read, so the response is 200 either way. */
  function Reconcile(rows: seq<WalletTransaction>, signature: Option<string>, body: string, secret: string,
                     sha512: string -> seq<Byte>, parse: string -> Option<Envelope>, updateSucceeds: bool): (WebhookResponse, seq<WalletTransaction>)
  {
    if signature != Some(ExpectedSignature(secret, body, sha512)) then (InvalidSignature, rows)
    else match parse(body)
      case None => (ServerError, rows)
      case Some(envelope) =>
        var kind := Classify(envelope.event);
        if kind == Unhandled then (Acknowledged, rows)
        else if envelope.data.None? then (ServerError, rows)
        else if !updateSucceeds then (Acknowledged, rows)
        else (Acknowledged, SettleMatching(rows, envelope.data.value.reference, SettlementOf(kind, envelope.data.value)))
  }

  /** The in-place update the store performs for `.update(...).eq(...)`. */
  method UpdateWhereReference(table: array<WalletTransaction>, reference: string, settlement: Settlement)
    modifies table
    ensures table[..] == SettleMatching(old(table[..]), reference, settlement)
  {
    var i := 0;
    while i < table.Length
      invariant 0 <= i <= table.Length
      invariant forall j :: 0 <= j < i ==>
        table[j] == if old(table[j]).paystackReference == Some(reference) then Settle(old(table[j]), settlement) else old(table[j])
      invariant forall j :: i <= j < table.Length ==> table[j] == old(table[j])
    {
      if table[i].paystackReference == Some(reference) {
        table[i] := Settle(table[i], settlement);
      }
      i := i + 1;
    }
  }

  /** The request handler over the `wallet_transactions` table. */
  method HandleWebhook(table: array<WalletTransaction>, signature: Option<string>, body: string, secret: string,
                       sha512: string -> seq<Byte>, parse: string -> Option<Envelope>, updateSucceeds: bool)
    returns (response: WebhookResponse)
    modifies table
    ensures (response, table[..]) == Reconcile(old(table[..]), signature, body, secret, sha512, parse, updateSucceeds)
  {
    var expected := HexEncode(sha512(secret + body));
    if signature != Some(expected) {
      return InvalidSignature;
    }
    var parsed := parse(body);
    if parsed.None? {
      return ServerError;
    }
    var envelope := parsed.value;
    var kind := Classify(envelope.event);
    if kind == Unhandled {
      return Acknowledged;
    }
    if envelope.data.None? {
      return ServerError;
    }
    if updateSucceeds {
      UpdateWhereReference(table, envelope.data.value.reference, SettlementOf(kind, envelope.data.value));
    }
    response := Acknowledged;
  }

  // ---- Properties of the reconciler ----

  /** A signature other than the expected one is a 400 and changes no row. */
  lemma RejectsForgedSignature(rows: seq<WalletTransaction>, signature: Option<string>, body: string, secret: string,
                               sha512: string -> seq<Byte>, parse: string -> Option<Envelope>, updateSucceeds: bool)
    requires signature != Some(ExpectedSignature(secret, body, sha512))
    ensures Reconcile(rows, signature, body, secret, sha512, parse, updateSucceeds) == (InvalidSignature, rows)
    ensures InvalidSignature.Status() == 400
  {
  }

  /** One signature is accepted only for bodies whose digests agree: an
      altered body passes only if SHA-512 collides on it. */
  lemma AcceptedSignatureFixesDigest(rows: seq<WalletTransaction>, signature: Option<string>, body1: string, body2: string,
                                     secret: string, sha512: string -> seq<Byte>, parse: string -> Option<Envelope>, updateSucceeds: bool)
    requires Reconcile(rows, signature, body1, secret, sha512, parse, updateSucceeds).0 != InvalidSignature
    requires Reconcile(rows, signature, body2, secret, sha512, parse, updateSucceeds).0 != InvalidSignature
    ensures sha512(secret + body1) == sha512(secret + body2)
  {
    HexEncodeInjective(sha512(secret + body1), sha512(secret + body2));
  }

  /** A verified body that does not parse is a 500 and changes no row. */
  lemma ParseFailureIsServerError(rows: seq<WalletTransaction>, body: string, secret: string,
                                  sha512: string -> seq<Byte>, parse: string -> Option<Envelope>, updateSucceeds: bool)
    requires parse(body).None?
    ensures Reconcile(rows, Some(ExpectedSignature(secret, body, sha512)), body, secret, sha512, parse, updateSucceeds) == (ServerError, rows)
  {
  }

  /** When the store applies the update, `charge.success` and
      `transfer.success` complete every matching row and record the gateway
      id; all other rows are unchanged. */
  lemma SuccessCompletesMatchingRows(rows: seq<WalletTransaction>, body: string, secret: string,
                                     sha512: string -> seq<Byte>, parse: string -> Option<Envelope>, data: EventData)
    requires parse(body).Some? && parse(body).value.data == Some(data)
    requires parse(body).value.event in {"charge.success", "transfer.success"}
    ensures var (response, rows') := Reconcile(rows, Some(ExpectedSignature(secret, body, sha512)), body, secret, sha512, parse, true);
      && response == Acknowledged
      && |rows'| == |rows|
      && (forall i :: 0 <= i < |rows| && rows[i].paystackReference == Some(data.reference) ==>
            rows'[i].status == Completed && rows'[i].paystackTransactionId == Some(data.id)
            && rows'[i] == rows[i].(status := Completed, paystackTransactionId := Some(data.id)))
      && (forall i :: 0 <= i < |rows| && rows[i].paystackReference != Some(data.reference) ==> rows'[i] == rows[i])
  {
  }

  /** When the store applies the update, `charge.failed` and
      `transfer.failed` mark every matching row failed and leave its gateway
      id as it was. */
  lemma FailureMarksMatchingRows(rows: seq<WalletTransaction>, body: string, secret: string,
                                 sha512: string -> seq<Byte>, parse: string -> Option<Envelope>, data: EventData)
    requires parse(body).Some? && parse(body).value.data == Some(data)
    requires parse(body).value.event in {"charge.failed", "transfer.failed"}
    ensures var (response, rows') := Reconcile(rows, Some(ExpectedSignature(secret, body, sha512)), body, secret, sha512, parse, true);
      && response == Acknowledged
      && |rows'| == |rows|
      && (forall i :: 0 <= i < |rows| && rows[i].paystackReference == Some(data.reference) ==>
            rows'[i] == rows[i].(status := Failed))
      && (forall i :: 0 <= i < |rows| && rows[i].paystackReference != Some(data.reference) ==> rows'[i] == rows[i])
  {
  }

  /** Any other event name is acknowledged with 200 and changes nothing. */
  lemma UnhandledEventIgnored(rows: seq<WalletTransaction>, body: string, secret: string,
                              sha512: string -> seq<Byte>, parse: string -> Option<Envelope>, updateSucceeds: bool)
    requires parse(body).Some?
    requires parse(body).value.event !in {"charge.success", "transfer.success", "charge.failed", "transfer.failed"}
    ensures Reconcile(rows, Some(ExpectedSignature(secret, body, sha512)), body, secret, sha512, parse, updateSucceeds) == (Acknowledged, rows)
  {
  }

  /** The response does not depend on whether the store applied the update,
      and a failed update changes no row: the gateway sees 200 and does not
      deliver the event again, so the row stays as it was. */
  lemma ResponseIgnoresUpdateOutcome(rows: seq<WalletTransaction>, signature: Option<string>, body: string, secret: string,
                                     sha512: string -> seq<Byte>, parse: string -> Option<Envelope>)
    ensures Reconcile(rows, signature, body, secret, sha512, parse, false).0 == Reconcile(rows, signature, body, secret, sha512, parse, true).0
    ensures Reconcile(rows, signature, body, secret, sha512, parse, false).1 == rows
  {
  }

  /** Delivering the same verified body twice leaves the table as delivering it once. */
  lemma {:induction false} ReplayIsIdempotent(rows: seq<WalletTransaction>, signature: Option<string>, body: string, secret: string,
                                              sha512: string -> seq<Byte>, parse: string -> Option<Envelope>, updateSucceeds: bool)
    ensures var (r1, once) := Reconcile(rows, signature, body, secret, sha512, parse, updateSucceeds);
      var (r2, twice) := Reconcile(once, signature, body, secret, sha512, parse, updateSucceeds);
      twice == once && r2 == r1
  {
    var (r1, once) := Reconcile(rows, signature, body, secret, sha512, parse, updateSucceeds);
    if r1 == Acknowledged && once != rows {
      var envelope := parse(body).value;
      var data := envelope.data.value;
      var settlement := SettlementOf(Classify(envelope.event), data);
      assert once == SettleMatching(rows, data.reference, settlement);
      var twice := SettleMatching(once, data.reference, settlement);
      forall i | 0 <= i < |rows|
        ensures twice[i] == once[i]
      {
        assert once[i].paystackReference == rows[i].paystackReference;
      }
    }
  }

  /** There is no guard on the current status: a failure event delivered
      after a success event turns a completed row back into a failed one. */
  lemma LaterFailureOverwritesCompletion(row: WalletTransaction, reference: string, id: string)
    requires row.paystackReference == Some(reference)
    ensures var done := SettleMatching([row], reference, Complete(id));
      done[0].status == Completed
      && SettleMatching(done, reference, Fail)[0].status == Failed
      && SettleMatching(done, reference, Fail)[0].paystackTransactionId == Some(id)
  {
  }
}
