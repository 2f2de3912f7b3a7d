/** PaymentFactory.create_payment of the Python version: compares mode.lower(). */
module FactoryPython {
  import opened Wrappers
  import opened Payment
  import opened Text
  import FactoryCpp
  import FactoryJava

  /** `None` becomes None. */
  function CreatePayment(mode: string): (r: Option<PaymentKind>)
    ensures r.Some? ==> Lower(mode) == Tag(r.value)
  {
    if Lower(mode) == "creditcard" then Some(CreditCard)
    else if Lower(mode) == "debitcard" then Some(DebitCard)
    else if Lower(mode) == "upi" then Some(UPI)
    else if Lower(mode) == "netbanking" then Some(NetBanking)
    else None
  }

  /** The Python factory is the exact-match factory applied to the lower-cased mode. */
  lemma LowerThenExact(mode: string)
    ensures CreatePayment(mode) == FactoryCpp.CreatePayment(Lower(mode))
  {
  }

  /** A kind is created exactly for the strings whose lower-case form is its tag. */
  lemma CreatePaymentLowered(mode: string, k: PaymentKind)
    ensures CreatePayment(mode) == Some(k) <==> Lower(mode) == Tag(k)
  {
    FactoryCpp.CreatePaymentExact(Lower(mode), k);
  }

  /** Two modes with the same lower-case form give the same kind. */
  lemma CaseInsensitive(a: string, b: string)
    requires Lower(a) == Lower(b)
    ensures CreatePayment(a) == CreatePayment(b)
  {
  }

  /** On ASCII text the Python and the Java factories agree on every mode. */
  lemma {:induction false} AgreesWithJava(mode: string)
    ensures CreatePayment(mode) == FactoryJava.CreatePayment(mode)
  {
    var p, j := CreatePayment(mode), FactoryJava.CreatePayment(mode);
    if p.Some? {
      CreatePaymentLowered(mode, p.value);
      FactoryJava.CreatePaymentLowered(mode, p.value);
    } else if j.Some? {
      CreatePaymentLowered(mode, j.value);
      FactoryJava.CreatePaymentLowered(mode, j.value);
    }
  }
}
