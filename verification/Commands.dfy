/** Payment commands, their validation, and the texts that their fingerprints are computed from. */
module Commands {
  import opened Text
  import opened Domain

  datatype Op = AuthorizeOp | RetryOp | CaptureOp | VoidOp | RefundOp

  datatype Card = Card(number: string, cvv: string, month: int, year: int)

  datatype Command =
    | Authorize(orderId: string, customerId: string, amount: int, card: Card, key: string)
    | Retry(paymentId: string, card: Card, key: string)
    | Capture(paymentId: string, key: string)
    | Void(paymentId: string, key: string)
    | Refund(paymentId: string, key: string)

  function OpOf(c: Command): Op {
    match c
    case Authorize(_, _, _, _, _) => AuthorizeOp
    case Retry(_, _, _) => RetryOp
    case Capture(_, _) => CaptureOp
    case Void(_, _) => VoidOp
    case Refund(_, _) => RefundOp
  }

  /** The status a payment must have for the operation to start. */
  function ExpectedStatus(op: Op): Status {
    match op
    case AuthorizeOp => Pending
    case RetryOp => Pending
    case CaptureOp => Authorized
    case VoidOp => Authorized
    case RefundOp => Captured
  }

  // ---- Validation: what the command constructors accept ----

  function NewCard(number: string, cvv: string, month: int, year: int): Option<Card> {
    var card := Card(TrimSpace(number), TrimSpace(cvv), month, year);
    if !AllDigits(card.number) || |card.number| < 12 || |card.number| > 19 then None
    else if !AllDigits(card.cvv) || |card.cvv| < 3 || |card.cvv| > 4 then None
    else if month < 1 || month > 12 then None
    else if year <= 0 then None
    else Some(card)
  }

  function NewAuthorize(orderId: string, customerId: string, amount: int, number: string, cvv: string,
                        month: int, year: int, key: string): Option<Command>
  {
    if TrimSpace(key) == "" || TrimSpace(orderId) == "" || TrimSpace(customerId) == "" || amount <= 0 then None
    else match NewCard(number, cvv, month, year)
      case None => None
      case Some(card) => Some(Authorize(TrimSpace(orderId), TrimSpace(customerId), amount, card, TrimSpace(key)))
  }

  function NewRetry(paymentId: string, number: string, cvv: string, month: int, year: int,
                    key: string): Option<Command>
  {
    if TrimSpace(key) == "" || !IsPaymentId(TrimSpace(paymentId)) then None
    else match NewCard(number, cvv, month, year)
      case None => None
      case Some(card) => Some(Retry(TrimSpace(paymentId), card, TrimSpace(key)))
  }

  function NewExisting(op: Op, paymentId: string, key: string): Option<Command>
    requires op in {CaptureOp, VoidOp, RefundOp}
  {
    var k, id := TrimSpace(key), TrimSpace(paymentId);
    if k == "" || !IsPaymentId(id) then None
    else match op
      case CaptureOp => Some(Capture(id, k))
      case VoidOp => Some(Void(id, k))
      case RefundOp => Some(Refund(id, k))
  }

  predicate AcceptedCard(card: Card) {
    && AllDigits(card.number) && 12 <= |card.number| <= 19
    && AllDigits(card.cvv) && 3 <= |card.cvv| <= 4
    && 1 <= card.month <= 12 && 0 < card.year
  }

  /** A command that one of the constructors can return. */
  predicate Accepted(c: Command) {
    && Clean(c.key)
    && match c
       case Authorize(orderId, customerId, amount, card, _) =>
         Clean(orderId) && Clean(customerId) && amount > 0 && AcceptedCard(card)
       case Retry(paymentId, card, _) => IsPaymentId(paymentId) && AcceptedCard(card)
       case Capture(paymentId, _) => IsPaymentId(paymentId)
       case Void(paymentId, _) => IsPaymentId(paymentId)
       case Refund(paymentId, _) => IsPaymentId(paymentId)
  }

  /** A card as the constructors want it: 12 to 19 digits, a CVV of 3 or 4, a month and a year. */
  predicate CardFits(number: string, cvv: string, month: int, year: int) {
    && 12 <= |number| <= 19 && (forall i :: 0 <= i < |number| ==> '0' <= number[i] <= '9')
    && 3 <= |cvv| <= 4 && (forall i :: 0 <= i < |cvv| ==> '0' <= cvv[i] <= '9')
    && 1 <= month <= 12 && 0 < year
  }

  lemma CardIsExact(number: string, cvv: string, month: int, year: int)
    ensures var c := NewCard(number, cvv, month, year);
            && (c.Some? <==> CardFits(TrimSpace(number), TrimSpace(cvv), month, year))
            && (c.Some? ==> c.value == Card(TrimSpace(number), TrimSpace(cvv), month, year) && AcceptedCard(c.value))
  {
    hide TrimSpace;
  }

  /**
   * The constructors accept exactly the inputs whose trimmed texts are present and valid, and return the requested operation
   * with the trimmed texts in their own places; whatever they return is accepted by the rest of the gateway.
   */
  lemma ConstructorsExact(orderId: string, customerId: string, amount: int, number: string, cvv: string,
                          month: int, year: int, paymentId: string, key: string, op: Op)
    requires op in {CaptureOp, VoidOp, RefundOp}
    ensures var c := NewAuthorize(orderId, customerId, amount, number, cvv, month, year, key);
            && (c.Some? <==>
                  && Clean(TrimSpace(key)) && Clean(TrimSpace(orderId)) && Clean(TrimSpace(customerId)) && amount > 0
                  && CardFits(TrimSpace(number), TrimSpace(cvv), month, year))
            && (c.Some? ==>
                  && c.value == Authorize(TrimSpace(orderId), TrimSpace(customerId), amount,
                                          Card(TrimSpace(number), TrimSpace(cvv), month, year), TrimSpace(key))
                  && Accepted(c.value))
    ensures var c := NewRetry(paymentId, number, cvv, month, year, key);
            && (c.Some? <==>
                  && Clean(TrimSpace(key)) && IsPaymentId(TrimSpace(paymentId))
                  && CardFits(TrimSpace(number), TrimSpace(cvv), month, year))
            && (c.Some? ==>
                  && c.value == Retry(TrimSpace(paymentId), Card(TrimSpace(number), TrimSpace(cvv), month, year), TrimSpace(key))
                  && Accepted(c.value))
    ensures var c := NewExisting(op, paymentId, key);
            && (c.Some? <==> Clean(TrimSpace(key)) && IsPaymentId(TrimSpace(paymentId)))
            && (c.Some? ==>
                  && OpOf(c.value) == op && c.value.paymentId == TrimSpace(paymentId) && c.value.key == TrimSpace(key)
                  && Accepted(c.value))
  {
    TrimSpaceCleans(orderId);
    TrimSpaceCleans(customerId);
    TrimSpaceCleans(key);
    CardIsExact(number, cvv, month, year);
    hide TrimSpace, NewCard, IsPaymentId, CardFits;
  }

  // ---- Fingerprint texts ----

  function OpName(op: Op): string {
    match op
    case AuthorizeOp => "authorize_payment"
    case RetryOp => "retry_authorization"
    case CaptureOp => "capture_payment"
    case VoidOp => "void_payment"
    case RefundOp => "refund_payment"
  }

  function CardSuffix(card: Card): string
    requires AcceptedCard(card)
  {
    card.number + "\n" + Decimal(card.month) + "\n" + Decimal(card.year)
  }

  /** What a request text says after its operation. The CVV takes no part. */
  function Body(c: Command): string
    requires Accepted(c)
  {
    match c
    case Authorize(orderId, customerId, amount, card, _) =>
      orderId + "\n" + customerId + "\n" + Decimal(amount) + "\n" + CardSuffix(card)
    case Retry(paymentId, card, _) => paymentId + "\n" + CardSuffix(card)
    case Capture(paymentId, _) => paymentId
    case Void(paymentId, _) => paymentId
    case Refund(paymentId, _) => paymentId
  }

  /** The text whose keyed digest is the request fingerprint. */
  function RequestText(c: Command): string
    requires Accepted(c)
  {
    OpName(OpOf(c)) + "\n" + Body(c)
  }

  /** The text whose keyed digest is the authorization card fingerprint. */
  function CardText(card: Card): string
    requires AcceptedCard(card)
  {
    "authorization\n" + CardSuffix(card)
  }
}
