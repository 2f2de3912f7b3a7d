/** PaymentFactory::createPayment of the C++ version: exact string comparison. */
module FactoryCpp {
  import opened Wrappers
  import opened Payment

  /** `nullptr` becomes None. */
  function CreatePayment(mode: string): (r: Option<PaymentKind>)
    ensures r.Some? ==> mode == Tag(r.value)
  {
    if mode == "creditcard" then Some(CreditCard)
    else if mode == "debitcard" then Some(DebitCard)
    else if mode == "upi" then Some(UPI)
    else if mode == "netbanking" then Some(NetBanking)
    else None
  }

  /** A kind is created exactly for its own tag, spelled exactly. */
  lemma CreatePaymentExact(mode: string, k: PaymentKind)
    ensures CreatePayment(mode) == Some(k) <==> mode == Tag(k)
  {
  }

  /** Every other string, including another spelling of a tag's case, gives nullptr. */
  lemma CreatePaymentUnknown(mode: string)
    ensures CreatePayment(mode).None? <==> forall k :: mode != Tag(k)
  {
    if CreatePayment(mode).Some? {
      CreatePaymentExact(mode, CreatePayment(mode).value);
    }
  }

  lemma MixedCaseRejected()
    ensures CreatePayment("CreditCard") == None
    ensures CreatePayment("UPI") == None
  {
  }
}
