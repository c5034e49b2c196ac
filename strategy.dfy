/**
 * The payment strategy selector (behavioral/strategy.ts).
 *
 * The cases of `getPaymentStrategy`'s `switch` construct a strategy object but
 * do not return it, so control falls through every case into the `default`
 * clause, which throws: every payment type is rejected, 'Adyen' and 'PayPal'
 * included, and `processPayment` never reaches `pay`.
 */
module Strategy {
  import opened JsSwitch
  import opened Wrappers

  datatype PaymentStrategy = AdyenPayment | PaypalPayment

  /** The outcome of `processPayment`: it returns, or an exception leaves it. */
  datatype Outcome = Completed | Raised(message: string)

  const NotFoundPrefix: string := "PaymentType "
  const NotFoundSuffix: string := " not found"

  /** The error V8 raises when `.pay` is read from `undefined`. */
  const UndefinedPay: string := "Cannot read properties of undefined (reading 'pay')"

  /** The clauses of the `switch` at lines 31-35: two expression statements, then the throwing default. */
  function Clauses(paymentType: string): seq<Clause<PaymentStrategy>> {
    [ Case("Adyen", [Discard(AdyenPayment)]),
      Case("PayPal", [Discard(PaypalPayment)]),
      Default([Throw(NotFoundPrefix + paymentType + NotFoundSuffix)]) ]
  }

  /**
   * `PaymentService.getPaymentStrategy`: the completion of its `switch`. The
   * only error it raises names the type.
   */
  function GetPaymentStrategy(paymentType: string): (r: Completion<PaymentStrategy>)
    ensures r.Threw? ==> r.message == NotFoundPrefix + paymentType + NotFoundSuffix
  {
    Switch(Clauses(paymentType), paymentType)
  }

  /** Every payment type, the two labelled ones included, ends in the default clause's throw. */
  lemma GetPaymentStrategyAlwaysThrows(paymentType: string)
    ensures GetPaymentStrategy(paymentType) == Threw("PaymentType " + paymentType + " not found")
  {
    var cs := Clauses(paymentType);
    match FirstMatch(cs, paymentType)
    case Some(i) =>
      FallThroughTo(cs, i, 2);
    case None =>
      assert DefaultIndex(cs) == Some(2) by {
        assert cs[1..][1..] == [cs[2]] && cs[2].Default?;
        assert DefaultIndex(cs[1..][1..]) == Some(0);
        assert DefaultIndex(cs[1..]) == Some(1);
      }
      FallThroughTo(cs, 2, 2);
  }

  class PaymentService {
    /** Declared with `!` and never initialised: `None` until assigned. */
    var paymentStrategy: Option<PaymentStrategy>
    /** The `pay(amount)` calls made, in order. */
    var payments: seq<(PaymentStrategy, real)>

    constructor ()
      ensures paymentStrategy == None && payments == []
    {
      paymentStrategy := None;
      payments := [];
    }

    /**
     * `processPayment`: select a strategy, store it and pay with it. An
     * exception from the selection escapes before the assignment and before
     * any payment; by GetPaymentStrategyAlwaysThrows that is every call.
     */
    method ProcessPayment(amount: real, paymentType: string) returns (r: Outcome)
      modifies this
      ensures match GetPaymentStrategy(paymentType)
        case Threw(m) =>
          r == Raised(m) && paymentStrategy == old(paymentStrategy) && payments == old(payments)
        case Returned(s) =>
          r == Completed && paymentStrategy == Some(s) && payments == old(payments) + [(s, amount)]
        case Normal =>
          r == Raised(UndefinedPay) && paymentStrategy == None && payments == old(payments)
    {
      match GetPaymentStrategy(paymentType)
      case Threw(m) =>
        r := Raised(m);
      case Returned(s) =>
        paymentStrategy := Some(s);
        payments := payments + [(s, amount)];
        r := Completed;
      case Normal =>
        paymentStrategy := None;
        r := Raised(UndefinedPay);
    }
  }

  /** The script at the end of the source file: paying 25.99 by 'PayPal' throws. */
  method Demo() returns (r: Outcome, paid: seq<(PaymentStrategy, real)>)
    ensures r == Raised("PaymentType PayPal not found") && paid == []
  {
    var service := new PaymentService();
    GetPaymentStrategyAlwaysThrows("PayPal");
    assert "PaymentType " + "PayPal" + " not found" == "PaymentType PayPal not found";
    r := service.ProcessPayment(25.99, "PayPal");
    paid := service.payments;
  }
}
