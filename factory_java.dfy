/** PaymentFactory.createPayment of the Java version: String.equalsIgnoreCase. */
module FactoryJava {
  import opened Wrappers
  import opened Payment
  import opened Text

  /** `null` becomes None. */
  function CreatePayment(mode: string): (r: Option<PaymentKind>)
    ensures r.Some? ==> EqualsIgnoreCase(mode, Tag(r.value))
  {
    if EqualsIgnoreCase(mode, "creditcard") then Some(CreditCard)
    else if EqualsIgnoreCase(mode, "debitcard") then Some(DebitCard)
    else if EqualsIgnoreCase(mode, "upi") then Some(UPI)
    else if EqualsIgnoreCase(mode, "netbanking") then Some(NetBanking)
    else None
  }

  /** Comparing ignoring case preserves the lower-cased form of both sides. */
  lemma SameIgnoringCaseAsLowered(mode: string, t: string)
    requires Lower(t) == t
    ensures EqualsIgnoreCase(mode, t) <==> EqualsIgnoreCase(Lower(mode), t)
    ensures EqualsIgnoreCase(Lower(mode), t) <==> Lower(mode) == t
  {
    var lm := Lower(mode);
    assert Lower(lm) == lm;
    EqualsIgnoreCaseIsLowerEqual(mode, t);
    EqualsIgnoreCaseIsLowerEqual(lm, t);
  }

  /** The result depends only on the lower-cased mode, which is compared exactly. */
  lemma {:induction false} DependsOnLowerOnly(mode: string)
    ensures CreatePayment(mode) == CreatePayment(Lower(mode))
  {
    assert Lower("creditcard") == "creditcard";
    assert Lower("debitcard") == "debitcard";
    assert Lower("upi") == "upi";
    assert Lower("netbanking") == "netbanking";
    SameIgnoringCaseAsLowered(mode, "creditcard");
    SameIgnoringCaseAsLowered(mode, "debitcard");
    SameIgnoringCaseAsLowered(mode, "upi");
    SameIgnoringCaseAsLowered(mode, "netbanking");
  }

  /** On a lower-case mode the comparisons ignoring case are exact comparisons. */
  lemma {:induction false} ExactOnLowered(mode: string)
    ensures var lm := Lower(mode);
      && (EqualsIgnoreCase(lm, "creditcard") <==> lm == "creditcard")
      && (EqualsIgnoreCase(lm, "debitcard") <==> lm == "debitcard")
      && (EqualsIgnoreCase(lm, "upi") <==> lm == "upi")
      && (EqualsIgnoreCase(lm, "netbanking") <==> lm == "netbanking")
  {
    assert Lower("creditcard") == "creditcard";
    assert Lower("debitcard") == "debitcard";
    assert Lower("upi") == "upi";
    assert Lower("netbanking") == "netbanking";
    SameIgnoringCaseAsLowered(mode, "creditcard");
    SameIgnoringCaseAsLowered(mode, "debitcard");
    SameIgnoringCaseAsLowered(mode, "upi");
    SameIgnoringCaseAsLowered(mode, "netbanking");
  }

  /** On its own lower-cased mode the factory is an exact comparison. */
  lemma {:induction false} ExactChainOnLowered(mode: string)
    ensures CreatePayment(Lower(mode)) ==
      var lm := Lower(mode);
      if lm == "creditcard" then Some(CreditCard)
      else if lm == "debitcard" then Some(DebitCard)
      else if lm == "upi" then Some(UPI)
      else if lm == "netbanking" then Some(NetBanking)
      else None
  {
    ExactOnLowered(mode);
  }

  /** A kind is created exactly for the strings whose lower-case form is its tag. */
  lemma {:induction false} CreatePaymentLowered(mode: string, k: PaymentKind)
    ensures CreatePayment(mode) == Some(k) <==> Lower(mode) == Tag(k)
  {
    DependsOnLowerOnly(mode);
    ExactChainOnLowered(mode);
  }

  /** A kind is created exactly for the strings equal to its tag ignoring case. */
  lemma {:induction false} CreatePaymentIgnoringCase(mode: string, k: PaymentKind)
    ensures CreatePayment(mode) == Some(k) <==> EqualsIgnoreCase(mode, Tag(k))
  {
    CreatePaymentLowered(mode, k);
    assert Lower(Tag(k)) == Tag(k);
    EqualsIgnoreCaseIsLowerEqual(mode, Tag(k));
  }

  /** Two modes that differ only in the case of ASCII letters give the same kind. */
  lemma CaseInsensitive(a: string, b: string)
    requires Lower(a) == Lower(b)
    ensures CreatePayment(a) == CreatePayment(b)
  {
    DependsOnLowerOnly(a);
    DependsOnLowerOnly(b);
  }

  /** The demonstration's "CreditCard" and "UPI" are recognised. */
  lemma MixedCaseAccepted()
    ensures CreatePayment("CreditCard") == Some(CreditCard)
    ensures CreatePayment("UPI") == Some(UPI)
  {
    CreatePaymentIgnoringCase("CreditCard", CreditCard);
    assert Lower("CreditCard") == "creditcard";
    EqualsIgnoreCaseIsLowerEqual("CreditCard", "creditcard");
    assert Lower("UPI") == "upi";
    EqualsIgnoreCaseIsLowerEqual("UPI", "upi");
    assert Lower("upi") == "upi";
    assert Lower("creditcard") == "creditcard";
  }
}
