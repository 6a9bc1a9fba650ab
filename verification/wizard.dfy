/** The three-step purchase flow both purchase pages share
    (src/pages/Purchase.tsx and frontend/src/pages/Purchase.tsx declare the
    same step enumeration, the same card form and the same step indicator). */
module Wizard {
  datatype Step = SelectTickets | Payment | Confirmation

  /** The step's position in the enumeration. */
  function Ord(s: Step): nat
  {
    match s
    case SelectTickets => 0
    case Payment => 1
    case Confirmation => 2
  }

  /** The step that follows `s` in the indicator. */
  function Next(s: Step): (n: Step)
    requires s != Confirmation
    ensures Ord(n) == Ord(s) + 1
  {
    if s == SelectTickets then Payment else Confirmation
  }

  /** A numbered circle of the indicator is highlighted once the flow has
      reached its step. */
  predicate Highlighted(current: Step, circle: Step)
  {
    Ord(current) >= Ord(circle)
  }

  /** The connector drawn after a step is highlighted once the flow is past
      that step. */
  predicate ConnectorLit(current: Step, after: Step)
  {
    Ord(current) > Ord(after)
  }

  /** The indicator never shows a gap: a connector is lit exactly when the
      circle it leads to is highlighted, a highlighted circle has every
      earlier circle highlighted, and the first circle is always lit. */
  lemma IndicatorConsistent(current: Step, s: Step)
    requires s != Confirmation
    ensures ConnectorLit(current, s) <==> Highlighted(current, Next(s))
    ensures Highlighted(current, Next(s)) ==> Highlighted(current, s)
    ensures Highlighted(current, SelectTickets)
    ensures Highlighted(current, s) <==> current == s || ConnectorLit(current, s)
  {
  }

  /** The card form. */
  datatype PaymentDetails = PaymentDetails(cardNumber: string, cardName: string, expiryDate: string, cvv: string)

  const EmptyDetails := PaymentDetails("", "", "", "")

  /** Every card field holds some text. */
  predicate Filled(d: PaymentDetails)
  {
    d.cardNumber != "" && d.cardName != "" && d.expiryDate != "" && d.cvv != ""
  }
}
