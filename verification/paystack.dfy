/** The Paystack webhook payload, as far as the handlers read it. Every field
    may be absent (None) in a JSON body. */
module Paystack {
  import opened Wrappers

  datatype Customer = Customer(email: Option<string>)

  /** `event.data`: the transaction reference, the paying customer and the
      amount in minor units (kobo). */
  datatype Charge = Charge(reference: Option<string>, customer: Option<Customer>, amount: Option<int>)

  /** A decoded webhook body: the `event` name and its `data`. */
  datatype Event = Event(event: Option<string>, data: Option<Charge>)

  const ChargeSuccess: string := "charge.success"

  /** `event.event === "charge.success"`. */
  predicate IsChargeSuccess(e: Event)
  {
    e.event == Some(ChargeSuccess)
  }
}
