/** What a fingerprint text determines about the command it was computed from. */
module Fingerprints {
  import opened Text
  import opened Domain
  import opened Commands

  predicate NoNewline(s: string) {
    forall i :: 0 <= i < |s| ==> s[i] != '\n'
  }

  /** A newline-free last field can be read off the end. */
  lemma LastField(a: string, x: string, b: string, y: string)
    requires NoNewline(x) && NoNewline(y)
    requires a + "\n" + x == b + "\n" + y
    ensures a == b && x == y
  {
    var s, t := a + "\n" + x, b + "\n" + y;
    assert forall i :: |a| < i < |s| ==> s[i] == x[i - |a| - 1];
    assert forall i :: |b| < i < |t| ==> t[i] == y[i - |b| - 1];
    assert s[|a|] == '\n' && t[|b|] == '\n';
    assert |a| == |b|;
    assert s[..|a|] == a && t[..|b|] == b;
    assert s[|a| + 1..] == x && t[|b| + 1..] == y;
  }

  /** A newline-free first field can be read off the front. */
  lemma FirstField(x: string, a: string, y: string, b: string)
    requires NoNewline(x) && NoNewline(y)
    requires x + "\n" + a == y + "\n" + b
    ensures x == y && a == b
  {
    var s, t := x + "\n" + a, y + "\n" + b;
    assert forall i :: 0 <= i < |x| ==> s[i] == x[i];
    assert forall i :: 0 <= i < |y| ==> t[i] == y[i];
    assert s[|x|] == '\n' && t[|y|] == '\n';
    assert |x| == |y|;
    assert s[..|x|] == x && t[..|y|] == y;
    assert s[|x| + 1..] == a && t[|y| + 1..] == b;
  }

  lemma DigitsHaveNoNewline(s: string)
    requires AllDigits(s)
    ensures NoNewline(s)
  {
    forall i | 0 <= i < |s| ensures s[i] != '\n' {
      assert IsDigit(s[i]);
    }
  }

  lemma DecimalHasNoNewline(n: nat)
    ensures NoNewline(Decimal(n))
  {
    DecimalDigits(n);
    DigitsHaveNoNewline(Decimal(n));
  }

  lemma OpNamesHaveNoNewline(op: Op)
    ensures NoNewline(OpName(op))
  {
  }

  /** The first and the third character tell operation names apart, from each other and from the card text's tag. */
  lemma OpNameLetters(op: Op)
    ensures |OpName(op)| > 2
    ensures (OpName(op)[0], OpName(op)[2]) ==
            (match op
             case AuthorizeOp => ('a', 't')
             case RetryOp => ('r', 't')
             case CaptureOp => ('c', 'p')
             case VoidOp => ('v', 'i')
             case RefundOp => ('r', 'f'))
    ensures |OpName(op)| != |"authorization"|
  {
  }

  lemma OpNamesDiffer(a: Op, b: Op)
    ensures NoNewline(OpName(a))
    ensures OpName(a) == OpName(b) ==> a == b
    ensures OpName(a) != "authorization"
  {
    OpNamesHaveNoNewline(a);
    OpNameLetters(a);
    OpNameLetters(b);
    hide OpName;
  }

  /** The fields of a card that fingerprints cover. */
  predicate SameCard(a: Card, b: Card) {
    a.number == b.number && a.month == b.month && a.year == b.year
  }

  /** A card suffix, after any text, determines that text and the card. */
  lemma CardSuffixDecodes(a: string, card: Card, b: string, other: Card)
    requires AcceptedCard(card) && AcceptedCard(other)
    requires a + "\n" + CardSuffix(card) == b + "\n" + CardSuffix(other)
    ensures a == b && SameCard(card, other)
  {
    hide Decimal;
    DecimalHasNoNewline(card.month);
    DecimalHasNoNewline(card.year);
    DecimalHasNoNewline(other.month);
    DecimalHasNoNewline(other.year);
    DigitsHaveNoNewline(card.number);
    DigitsHaveNoNewline(other.number);
    var m, y, m', y' := Decimal(card.month), Decimal(card.year), Decimal(other.month), Decimal(other.year);
    var a1, b1 := a + "\n" + card.number, b + "\n" + other.number;
    assert a + "\n" + CardSuffix(card) == (a1 + "\n" + m) + "\n" + y;
    assert b + "\n" + CardSuffix(other) == (b1 + "\n" + m') + "\n" + y';
    LastField(a1 + "\n" + m, y, b1 + "\n" + m', y');
    LastField(a1, m, b1, m');
    LastField(a, card.number, b, other.number);
    DecimalInjective(card.month, other.month);
    DecimalInjective(card.year, other.year);
  }

  /** The card fingerprint text determines the card number and expiry. */
  lemma CardTextDecodes(card: Card, other: Card)
    requires AcceptedCard(card) && AcceptedCard(other)
    requires CardText(card) == CardText(other)
    ensures SameCard(card, other)
  {
    assert "authorization\n" + CardSuffix(card) == "authorization" + "\n" + CardSuffix(card);
    assert "authorization\n" + CardSuffix(other) == "authorization" + "\n" + CardSuffix(other);
    CardSuffixDecodes("authorization", card, "authorization", other);
  }

  /** Texts of different operations never coincide; equal texts have equal bodies. */
  lemma SameTextSameOperation(c: Command, d: Command)
    requires Accepted(c) && Accepted(d) && RequestText(c) == RequestText(d)
    ensures OpOf(c) == OpOf(d) && Body(c) == Body(d)
  {
    hide Decimal, CardSuffix;
    OpNamesDiffer(OpOf(c), OpOf(d));
    OpNamesDiffer(OpOf(d), OpOf(c));
    hide OpName;
    FirstField(OpName(OpOf(c)), Body(c), OpName(OpOf(d)), Body(d));
  }

  /** A request text never equals a card text, so the two fingerprints cannot be confused. */
  lemma RequestTextIsNotCardText(c: Command, card: Card)
    requires Accepted(c) && AcceptedCard(card)
    ensures RequestText(c) != CardText(card)
  {
    hide Decimal, CardSuffix;
    OpNamesDiffer(OpOf(c), OpOf(c));
    hide OpName;
    if RequestText(c) == CardText(card) {
      assert CardText(card) == "authorization" + "\n" + CardSuffix(card);
      FirstField(OpName(OpOf(c)), Body(c), "authorization", CardSuffix(card));
    }
  }

  /** The text of an authorization determines its order-and-customer text, its amount and its card. */
  lemma AuthorizeTextDecodes(c: Command, d: Command)
    requires c.Authorize? && d.Authorize? && Accepted(c) && Accepted(d) && RequestText(c) == RequestText(d)
    ensures c.orderId + "\n" + c.customerId == d.orderId + "\n" + d.customerId
    ensures c.amount == d.amount && SameCard(c.card, d.card)
  {
    SameTextSameOperation(c, d);
    hide Decimal, CardSuffix;
    var a, b := c.orderId + "\n" + c.customerId, d.orderId + "\n" + d.customerId;
    CardSuffixDecodes(a + "\n" + Decimal(c.amount), c.card, b + "\n" + Decimal(d.amount), d.card);
    DecimalHasNoNewline(c.amount);
    DecimalHasNoNewline(d.amount);
    LastField(a, Decimal(c.amount), b, Decimal(d.amount));
    DecimalInjective(c.amount, d.amount);
  }

  /** The same operation with the same values; keys and CVVs take no part. */
  predicate SameRequest(c: Command, d: Command) {
    && OpOf(c) == OpOf(d)
    && match c
       case Authorize(orderId, customerId, amount, card, _) =>
         && d.Authorize? && orderId + "\n" + customerId == d.orderId + "\n" + d.customerId
         && amount == d.amount && SameCard(card, d.card)
       case Retry(paymentId, card, _) => d.Retry? && paymentId == d.paymentId && SameCard(card, d.card)
       case Capture(paymentId, _) => d.Capture? && paymentId == d.paymentId
       case Void(paymentId, _) => d.Void? && paymentId == d.paymentId
       case Refund(paymentId, _) => d.Refund? && paymentId == d.paymentId
  }

  lemma SameTextSameRequest(c: Command, d: Command)
    requires Accepted(c) && Accepted(d)
    ensures RequestText(c) == RequestText(d) <==> SameRequest(c, d)
  {
    hide Decimal, IsPaymentId, Clean;
    if RequestText(c) == RequestText(d) {
      SameTextSameOperation(c, d);
      hide CardSuffix, RequestText;
      if c.Authorize? {
        AuthorizeTextDecodes(c, d);
      } else if c.Retry? {
        CardSuffixDecodes(c.paymentId, c.card, d.paymentId, d.card);
      }
    }
  }

  // ---- Order and customer ----

  /** A newline with a visible character on both sides. */
  predicate InnerNewline(s: string) {
    exists i :: 0 < i < |s| - 1 && s[i] == '\n' && !IsSpace(s[i - 1]) && !IsSpace(s[i + 1])
  }

  /** Another way to cut "order, newline, customer" into two clean fields needs an inner newline. */
  lemma OtherCutNeedsInnerNewline(a: string, x: string, b: string, y: string)
    requires Clean(a) && Clean(x) && Clean(b) && Clean(y)
    requires a + "\n" + x == b + "\n" + y && |a| < |b|
    ensures InnerNewline(b) && InnerNewline(x)
  {
    NewlineIsSpace();
    var s := a + "\n" + x;
    var t := b + "\n" + y;
    assert s[|a|] == '\n' && t[|a|] == b[|a|];
    assert s[|a| - 1] == a[|a| - 1] && t[|a| - 1] == b[|a| - 1];
    assert s[|a| + 1] == x[0] && |a| + 1 < |b| + 1;
    assert b[|b| - 1] != '\n';
    assert |a| + 1 < |b| && t[|a| + 1] == b[|a| + 1];
    assert 0 < |a| < |b| - 1;
    var k := |b| - |a| - 1;
    assert t[|b|] == '\n' && s[|b|] == x[k];
    assert t[|b| + 1] == y[0] && s[|b| + 1] == x[k + 1];
    assert t[|b| - 1] == b[|b| - 1] && s[|b| - 1] == x[k - 1];
    assert 0 < k < |x| - 1;
  }

  lemma NewlineIsSpace()
    ensures IsSpace('\n')
  {
  }

  /** Cutting a clean text at an inner newline leaves two clean texts. */
  lemma CutAtInnerNewline(s: string, i: int)
    requires Clean(s) && 0 < i < |s| - 1 && s[i] == '\n' && !IsSpace(s[i - 1]) && !IsSpace(s[i + 1])
    ensures Clean(s[..i]) && Clean(s[i + 1..]) && s == s[..i] + "\n" + s[i + 1..]
  {
  }

  lemma CleanJoin(a: string, b: string)
    requires Clean(a) && Clean(b)
    ensures Clean(a + "\n" + b)
  {
  }

  /** Commands that differ only in where the order ends and the customer begins share one text. */
  lemma SameJoinSameText(c: Command, d: Command)
    requires c.Authorize? && d.Authorize? && Accepted(c) && Accepted(d)
    requires c.orderId + "\n" + c.customerId == d.orderId + "\n" + d.customerId
    requires c.amount == d.amount && c.card == d.card
    ensures RequestText(c) == RequestText(d)
  {
    hide Decimal, CardSuffix, OpName;
  }

  ghost predicate OrderAndCustomerDetermined(c: Command)
    requires c.Authorize? && Accepted(c)
  {
    forall d: Command ::
      d.Authorize? && Accepted(d) && RequestText(d) == RequestText(c) ==>
        d.orderId == c.orderId && d.customerId == c.customerId
  }

  lemma JoinAssociative(a: string, b: string, c: string)
    ensures a + "\n" + (b + "\n" + c) == (a + "\n" + b) + "\n" + c
  {
  }

  lemma OrderCutGivesTwin(c: Command, i: int) returns (d: Command)
    requires c.Authorize? && Accepted(c)
    requires var s := c.orderId; 0 < i < |s| - 1 && s[i] == '\n' && !IsSpace(s[i - 1]) && !IsSpace(s[i + 1])
    ensures d.Authorize? && Accepted(d) && RequestText(d) == RequestText(c) && d.orderId != c.orderId
  {
    hide Clean, IsSpace, Decimal, CardSuffix, RequestText, AcceptedCard;
    var left, right := c.orderId[..i], c.orderId[i + 1..];
    CutAtInnerNewline(c.orderId, i);
    CleanJoin(right, c.customerId);
    d := c.(orderId := left, customerId := right + "\n" + c.customerId);
    JoinAssociative(left, right, c.customerId);
    SameJoinSameText(d, c);
  }

  lemma CustomerCutGivesTwin(c: Command, i: int) returns (d: Command)
    requires c.Authorize? && Accepted(c)
    requires var s := c.customerId; 0 < i < |s| - 1 && s[i] == '\n' && !IsSpace(s[i - 1]) && !IsSpace(s[i + 1])
    ensures d.Authorize? && Accepted(d) && RequestText(d) == RequestText(c) && d.orderId != c.orderId
  {
    hide Clean, IsSpace, Decimal, CardSuffix, RequestText, AcceptedCard;
    var left, right := c.customerId[..i], c.customerId[i + 1..];
    CutAtInnerNewline(c.customerId, i);
    CleanJoin(c.orderId, left);
    d := c.(orderId := c.orderId + "\n" + left, customerId := right);
    JoinAssociative(c.orderId, left, right);
    SameJoinSameText(d, c);
  }

  lemma InnerNewlineGivesTwin(c: Command) returns (d: Command)
    requires c.Authorize? && Accepted(c)
    requires InnerNewline(c.orderId) || InnerNewline(c.customerId)
    ensures d.Authorize? && Accepted(d) && RequestText(d) == RequestText(c) && d.orderId != c.orderId
  {
    hide Accepted, RequestText, IsSpace;
    if InnerNewline(c.orderId) {
      var s := c.orderId;
      var i :| 0 < i < |s| - 1 && s[i] == '\n' && !IsSpace(s[i - 1]) && !IsSpace(s[i + 1]);
      d := OrderCutGivesTwin(c, i);
    } else {
      var s := c.customerId;
      var i :| 0 < i < |s| - 1 && s[i] == '\n' && !IsSpace(s[i - 1]) && !IsSpace(s[i + 1]);
      d := CustomerCutGivesTwin(c, i);
    }
  }

  /**
   * The request text of an authorization determines its order and customer if and only if neither of them holds
   * a newline between two visible characters.
   */
  lemma OrderAndCustomerDecode(c: Command)
    requires c.Authorize? && Accepted(c)
    ensures OrderAndCustomerDetermined(c) <==> !InnerNewline(c.orderId) && !InnerNewline(c.customerId)
  {
    hide RequestText, Clean;
    if InnerNewline(c.orderId) || InnerNewline(c.customerId) {
      var d := InnerNewlineGivesTwin(c);
      assert !OrderAndCustomerDetermined(c);
    } else {
      forall d: Command | d.Authorize? && Accepted(d) && RequestText(d) == RequestText(c)
        ensures d.orderId == c.orderId && d.customerId == c.customerId
      {
        AuthorizeTextDecodes(c, d);
        if |c.orderId| < |d.orderId| {
          OtherCutNeedsInnerNewline(c.orderId, c.customerId, d.orderId, d.customerId);
        } else if |d.orderId| < |c.orderId| {
          OtherCutNeedsInnerNewline(d.orderId, d.customerId, c.orderId, c.customerId);
        } else {
          SplitAt(c.orderId, c.customerId, d.orderId, d.customerId);
        }
      }
    }
  }

  lemma SplitAt(a: string, x: string, b: string, y: string)
    requires a + "\n" + x == b + "\n" + y && |a| == |b|
    ensures a == b && x == y
  {
    var s, t := a + "\n" + x, b + "\n" + y;
    assert s[..|a|] == a && t[..|b|] == b;
    assert s[|a| + 1..] == x && t[|b| + 1..] == y;
  }

  /** Two accepted authorizations for different orders that share one fingerprint text. */
  lemma OrdersCanCollide() returns (c: Command, d: Command)
    ensures c.Authorize? && d.Authorize? && Accepted(c) && Accepted(d)
    ensures c.orderId != d.orderId && RequestText(c) == RequestText(d)
  {
    var card := Card("4111111111111111", "123", 12, 2030);
    c := Authorize("o\no", "c", 100, card, "k");
    LettersAreVisible();
    assert AllDigits(card.number) && AllDigits(card.cvv);
    assert InnerNewline(c.orderId) by {
      assert c.orderId[1] == '\n' && !IsSpace(c.orderId[1 - 1]) && !IsSpace(c.orderId[1 + 1]);
    }
    d := InnerNewlineGivesTwin(c);
  }

  lemma LettersAreVisible()
    ensures !IsSpace('o') && !IsSpace('c') && !IsSpace('k')
  {
  }
}
