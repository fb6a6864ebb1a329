/** The payment-processor registry: each payment method maps to the processor its
    registered creator builds. A creator is represented by the kind of processor
    it returns. */
module PaymentFactory {
  import opened Models
  import CreditCardPayments
  import MobilePayments

  /** The IPaymentProcessor implementations; they hold no state. */
  datatype Processor = CashProcessor | CreditCardProcessor | MobileProcessor
  {
    function ProcessPayment(amount: real, customerInfo: string): (success: bool)
      ensures this == CreditCardProcessor ==> (success <==> amount <= CreditCardPayments.AuthorizationLimit)
      ensures this != CreditCardProcessor ==> success
    {
      match this
      case CashProcessor => true
      case CreditCardProcessor => CreditCardPayments.ProcessPayment(amount, customerInfo)
      case MobileProcessor => MobilePayments.ProcessPayment(amount, customerInfo)
    }

    function GetPaymentMethodName(): (name: string)
      ensures this == CashProcessor ==> name == "Cash"
      ensures this == CreditCardProcessor ==> name == "Credit Card"
      ensures this == MobileProcessor ==> name == "Mobile Payment"
    {
      match this
      case CashProcessor => "Cash"
      case CreditCardProcessor => CreditCardPayments.GetPaymentMethodName()
      case MobileProcessor => MobilePayments.GetPaymentMethodName()
    }

    function ValidatePaymentDetails(paymentDetails: string): (valid: bool)
      ensures this == CashProcessor ==> valid
      ensures this == CreditCardProcessor ==> valid == CreditCardPayments.ValidatePaymentDetails(paymentDetails)
      ensures this == MobileProcessor ==> valid == MobilePayments.ValidatePaymentDetails(paymentDetails)
    {
      match this
      case CashProcessor => true
      case CreditCardProcessor => CreditCardPayments.ValidatePaymentDetails(paymentDetails)
      case MobileProcessor => MobilePayments.ValidatePaymentDetails(paymentDetails)
    }
  }

  /** CreateProcessor's answer: a processor, or the NotSupportedException. */
  datatype Creation = Created(processor: Processor) | NotSupported(paymentMethod: PaymentMethod)

  /** The registrations made by the constructor. */
  function DefaultRegistrations(): (m: map<PaymentMethod, Processor>)
    ensures m.Keys == {Cash, CreditCard, MobilePayment}
    ensures DebitCard !in m && FleetCard !in m
    ensures m[Cash] == CashProcessor && m[CreditCard] == CreditCardProcessor && m[MobilePayment] == MobileProcessor
  {
    map[Cash := CashProcessor, CreditCard := CreditCardProcessor, MobilePayment := MobileProcessor]
  }

  class PaymentProcessorFactory {
    var processors: map<PaymentMethod, Processor>

    constructor ()
      ensures processors == DefaultRegistrations()
    {
      processors := DefaultRegistrations();
    }

    /** The processor the method's creator builds; an unregistered method is not supported. */
    function CreateProcessor(paymentMethod: PaymentMethod): (r: Creation)
      reads this
      ensures r.Created? <==> paymentMethod in processors
      ensures r.Created? ==> r.processor == processors[paymentMethod]
      ensures r.NotSupported? ==> r.paymentMethod == paymentMethod
    {
      if paymentMethod in processors then Created(processors[paymentMethod]) else NotSupported(paymentMethod)
    }

    /** Adds or replaces one method's creator; the other registrations stay. */
    method RegisterProcessor(paymentMethod: PaymentMethod, processor: Processor)
      modifies this
      ensures processors == old(processors)[paymentMethod := processor]
      ensures CreateProcessor(paymentMethod) == Created(processor)
      ensures forall m :: m != paymentMethod ==> CreateProcessor(m) == old(CreateProcessor(m))
    {
      processors := processors[paymentMethod := processor];
    }

    /** The registered methods: exactly those CreateProcessor supports. */
    function GetSupportedPaymentMethods(): (r: set<PaymentMethod>)
      reads this
      ensures forall m :: m in r <==> CreateProcessor(m).Created?
    {
      processors.Keys
    }
  }

  /** A new factory supports exactly Cash, CreditCard and MobilePayment, and refuses
      DebitCard and FleetCard. */
  lemma DefaultSupport()
    ensures forall m :: m in DefaultRegistrations() <==> m == Cash || m == CreditCard || m == MobilePayment
    ensures DefaultRegistrations()[CreditCard].ProcessPayment(10000.0, "") &&
            !DefaultRegistrations()[CreditCard].ProcessPayment(10000.01, "")
  {
  }

  /** Registering a card processor for fleet cards makes fleet cards supported and leaves debit cards refused. */
  method RegisterFleetCards() returns (factory: PaymentProcessorFactory)
    ensures factory.GetSupportedPaymentMethods() == {Cash, CreditCard, MobilePayment, FleetCard}
    ensures factory.CreateProcessor(FleetCard) == Created(CreditCardProcessor)
    ensures factory.CreateProcessor(DebitCard) == NotSupported(DebitCard)
  {
    factory := new PaymentProcessorFactory();
    factory.RegisterProcessor(FleetCard, CreditCardProcessor);
  }
}
