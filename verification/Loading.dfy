/** Which payments survive a write to the table and a read back through the strict loader. */
module Loading {
  import opened Text
  import opened Domain

  /** Construction hands back exactly its arguments when, and only when, they are valid and normalized. */
  lemma NewPaymentExact(p: Payment)
    ensures NewPayment(p) == Ok(p.(updatedAt := p.createdAt))
            <==> Normalized(p.(updatedAt := p.createdAt)) && (p.holdId != "" <==> p.expiresAt != NO_TIME)
  {
    CleanStringsAreTrimmed();
    hide TrimSpace, Clean, IsPaymentId;
  }

  /** Construction never fills in an absent field. */
  lemma NewPaymentShape(p: Payment)
    requires NewPayment(p).Ok?
    ensures var r := NewPayment(p).value;
            && r.createdAt == r.updatedAt == p.createdAt
            && r.status == p.status && r.declineReason == p.declineReason && r.expiresAt == p.expiresAt
            && (p.holdId == "" ==> r.holdId == "")
            && (p.captureId == "" ==> r.captureId == "") && (p.captureKey == "" ==> r.captureKey == "")
            && (p.refundId == "" ==> r.refundId == "") && (p.refundKey == "" ==> r.refundKey == "")
            && (p.voidId == "" ==> r.voidId == "") && (p.voidKey == "" ==> r.voidKey == "")
  {
    hide TrimSpace;
  }

  /** NULL columns and absent fields convert into each other without loss. */
  lemma NullColumnsInvert(p: Payment)
    ensures Columns(ToRow(p)) == p
  {
  }

  lemma BlankAbsent()
    ensures IsBlank("")
  {
  }

  /** A payment equal to its kept columns passes the column checks exactly when its fields fit its status. */
  lemma KeptPaymentsFit(p: Payment)
    requires Normalized(p) && (p.holdId != "" <==> p.expiresAt != NO_TIME)
    ensures Kept(p) == p && CheckColumns(p).Ok? <==> FieldsFit(p)
  {
    BlankAbsent();
    CleanStringsAreTrimmed();
    hide TrimSpace, Clean, IsPaymentId;
  }

  /** Loading back the same value means that nothing was dropped. */
  lemma LoadedPaymentsAreKept(p: Payment)
    requires LoadPayment(p) == Ok(p)
    ensures Kept(p) == p && NewPayment(p) == Ok(p.(updatedAt := p.createdAt)) && CheckColumns(p).Ok?
    ensures p.updatedAt != NO_TIME && p.currency == USD
  {
    hide NewPayment, CheckColumns;
    NewPaymentShape(Kept(p));
    var r := NewPayment(Kept(p)).value;
    assert p == r.(updatedAt := p.updatedAt);
    assert Kept(p) == p;
  }

  /**
   * A payment written to its row loads back as the same payment if and only if its strings are normalized and
   * its private fields fit its status.
   */
  lemma LoadsBack(p: Payment)
    ensures LoadPayment(Columns(ToRow(p))) == Ok(p) <==> Normalized(p) && FieldsFit(p)
  {
    NullColumnsInvert(p);
    NewPaymentExact(p);
    if LoadPayment(p) == Ok(p) {
      LoadedPaymentsAreKept(p);
      KeptPaymentsFit(p);
    }
    if Normalized(p) && FieldsFit(p) {
      KeptPaymentsFit(p);
    }
  }

  /** What the table accepts, the loader accepts. */
  lemma WellFormedLoads(p: Payment)
    requires WellFormed(p)
    ensures LoadPayment(Columns(ToRow(p))) == Ok(p)
  {
    hide LoadPayment, Columns, ToRow, Normalized, FieldsFit;
    LoadsBack(p);
  }
}
