/**
 * The payment flow chosen in the settings (`PaymentFlowType`) and the nopCommerce
 * payment method type it announces (`PaymentFlowTypeExtensions.ToPaymentMethodType`).
 */
module PaymentFlowTypes {

  /** A C# enum value: any `int`, of which two are declared. */
  datatype PaymentFlowType = PaymentFlowType(value: int)

  /** The customer pays on the ECommPay side, in a new browser tab. */
  const NewBrowserTab: PaymentFlowType := PaymentFlowType(0)
  /** The customer pays on the merchant side, in an iframe. */
  const Iframe: PaymentFlowType := PaymentFlowType(1)

  predicate IsDeclared(t: PaymentFlowType) {
    t == NewBrowserTab || t == Iframe
  }

  /** nopCommerce's `PaymentMethodType`. */
  datatype PaymentMethodType = Unknown | Standard | Redirection | Button

  /**
   * The payment method type of a flow: the iframe flow is a standard method, the new
   * tab flow a redirection. Any other value throws `InvalidOperationException`, so
   * callers must pass a declared flow type.
   */
  function ToPaymentMethodType(t: PaymentFlowType): (r: PaymentMethodType)
    requires IsDeclared(t)
    ensures r == Standard <==> t == Iframe
    ensures r == Redirection <==> t == NewBrowserTab
  {
    match t.value
    case 1 => Standard
    case 0 => Redirection
  }

  /** The two declared flows are told apart by their method type. */
  lemma ToPaymentMethodTypeInjective(a: PaymentFlowType, b: PaymentFlowType)
    requires IsDeclared(a) && IsDeclared(b)
    ensures ToPaymentMethodType(a) == ToPaymentMethodType(b) <==> a == b
  {
  }
}
