/** The four concrete payment methods every factory can create. */
module Payment {

  /** The concrete PaymentMethod classes: CreditCard, DebitCard, UPI, NetBanking. */
  datatype PaymentKind = CreditCard | DebitCard | UPI | NetBanking

  /** The lower-case tag each factory recognises for a kind. */
  function Tag(k: PaymentKind): string
  {
    match k
    case CreditCard => "creditcard"
    case DebitCard => "debitcard"
    case UPI => "upi"
    case NetBanking => "netbanking"
  }
}
