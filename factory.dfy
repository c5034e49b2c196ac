/**
 * The payment processor factory (creational/factory-method.ts).
 *
 * `createProcessor` is a `switch` whose two cases `return` a new processor and
 * whose `default` throws, so exactly the labels 'PayPal' and 'Adyen' select a
 * processor.
 */
module FactoryMethod {
  import opened JsSwitch
  import opened Wrappers

  datatype Processor = PayPalProcessor | AdyenProcessor

  const UnsupportedPrefix: string := "Unsupported payment processor: "

  /** The clauses of the `switch` at lines 32-36, for the discriminant `processorType`. */
  function Clauses(processorType: string): seq<Clause<Processor>> {
    [ Case("PayPal", [Return(PayPalProcessor)]),
      Case("Adyen", [Return(AdyenProcessor)]),
      Default([Throw(UnsupportedPrefix + processorType)]) ]
  }

  /**
   * `PaymentProcessorFactory.createProcessor`: the completion of its `switch`.
   * The only error it raises is the unsupported-processor one naming the type.
   */
  function CreateProcessor(processorType: string): (r: Completion<Processor>)
    ensures r.Threw? ==> r.message == UnsupportedPrefix + processorType
  {
    Switch(Clauses(processorType), processorType)
  }

  /** 'PayPal' and 'Adyen' return their processor; every other string throws naming the type. */
  lemma CreateProcessorSelects(processorType: string)
    ensures processorType == "PayPal" ==> CreateProcessor(processorType) == Returned(PayPalProcessor)
    ensures processorType == "Adyen" ==> CreateProcessor(processorType) == Returned(AdyenProcessor)
    ensures processorType != "PayPal" && processorType != "Adyen" ==>
      CreateProcessor(processorType) == Threw("Unsupported payment processor: " + processorType)
  {
    var cs := Clauses(processorType);
    if processorType != "PayPal" && processorType != "Adyen" {
      assert FirstMatch(cs, processorType) == None;
      assert DefaultIndex(cs) == Some(2) by {
        assert cs[1..][1..] == [cs[2]] && cs[2].Default?;
        assert DefaultIndex(cs[1..][1..]) == Some(0);
        assert DefaultIndex(cs[1..]) == Some(1);
      }
      assert ExecFrom(cs, 2) == ExecStmts(cs[2].body);
    }
  }

  /** Matching is exact: a processor is returned only for the two exact labels. */
  lemma CreateProcessorReturnsOnlyForLabels(processorType: string)
    ensures CreateProcessor(processorType).Returned? <==> processorType == "PayPal" || processorType == "Adyen"
    ensures !CreateProcessor(processorType).Normal?
  {
    CreateProcessorSelects(processorType);
  }

  /** Case matters: 'paypal' is not 'PayPal'. */
  lemma LowerCaseIsRejected()
    ensures CreateProcessor("paypal") == Threw("Unsupported payment processor: paypal")
  {
    assert "paypal"[0] != "PayPal"[0];
    assert "paypal" != "Adyen";
    CreateProcessorSelects("paypal");
  }
}
