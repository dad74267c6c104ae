/**
 * The subscription page, Subscription.jsx: the plan table, the payment hour
 * window (10:00 to 11:00 India time), and the start of a checkout.
 */
module Subscription {
  import opened Optional
  import opened Entities
  import Questions

  datatype Plan = Plan(name: string, price: nat, limit: string)

  const Plans: seq<Plan> := [
    Plan("FREE", 0, "1 Question/day"),
    Plan("BRONZE", 100, "5 Questions/day"),
    Plan("SILVER", 300, "10 Questions/day"),
    Plan("GOLD", 1000, "Unlimited Questions")
  ]

  /** `b` allows at least as many questions a day as `a`. */
  predicate AtLeastAsMuch(b: Questions.Limit, a: Questions.Limit) {
    b.Unlimited? || (a.AtMost? && a.n <= b.n)
  }

  /**
   * Every plan on sale has a quota on the question board, and a dearer plan never
   * allows fewer questions a day.
   */
  lemma DearerPlansAllowMore()
    ensures forall i :: 0 <= i < |Plans| ==> Plans[i].name in Questions.Limits
    ensures forall i, j :: 0 <= i < j < |Plans| ==>
      Plans[i].price < Plans[j].price &&
      AtLeastAsMuch(Questions.Limits[Plans[j].name], Questions.Limits[Plans[i].name])
  {
  }

  /** Line 26: payments are refused before 10 and from 11 on; for a whole hour that leaves 10 alone. */
  predicate InPaymentWindow(hour: int) {
    !(hour < 10 || hour >= 11)
  }

  lemma WindowIsTenOClock(hour: int)
    ensures InPaymentWindow(hour) <==> hour == 10
  {
  }

  const WindowWarning: string := "\U{26A0}\U{FE0F} Payments are ONLY allowed between 10 AM - 11 AM IST. Current Time (IST): "

  /** `user?.subscription?.plan === plan.name`. */
  predicate IsCurrent(currentPlan: Option<string>, plan: Plan) {
    currentPlan == Some(plan.name)
  }

  /** Lines 123-125: the button is off while a payment starts and on the current plan, which reads `Active`. */
  function ButtonLabel(currentPlan: Option<string>, plan: Plan): (caption: string)
    ensures caption == "Active" <==> IsCurrent(currentPlan, plan)
  {
    if IsCurrent(currentPlan, plan) then "Active" else "Subscribe"
  }

  predicate ButtonDisabled(loading: bool, currentPlan: Option<string>, plan: Plan) {
    loading || IsCurrent(currentPlan, plan)
  }

  /** A label that reads `Active` always comes with a disabled button. */
  lemma ActiveIsDisabled(loading: bool, currentPlan: Option<string>, plan: Plan)
    ensures ButtonLabel(currentPlan, plan) == "Active" ==> ButtonDisabled(loading, currentPlan, plan)
  {
  }

  /** The order the server creates, handed to the checkout. */
  datatype Order = Order(id: string, amount: int, currency: string, key: string)

  class SubscriptionPage {
    var loading: bool
    var msg: string

    constructor ()
      ensures !loading && msg == ""
    {
      loading := false;
      msg := "";
    }

    /**
     * handleSubscribe: a free plan does nothing; outside the window a warning with
     * the India time is shown and no order is made; inside it the message is
     * cleared and an order is requested, opening the checkout on success and
     * showing the server's reason on failure. Loading is off afterwards.
     */
    method HandleSubscribe(plan: Plan, hour: int, timeText: string, order: Reply<Order>)
      returns (orderRequested: bool, checkout: Option<Order>)
      modifies this
      ensures plan.price == 0 ==> !orderRequested && checkout.None? && msg == old(msg) && loading == old(loading)
      ensures plan.price != 0 && !InPaymentWindow(hour) ==>
        !orderRequested && checkout.None? && msg == WindowWarning + timeText && loading == old(loading)
      ensures orderRequested <==> plan.price != 0 && InPaymentWindow(hour)
      ensures orderRequested ==> !loading
      ensures orderRequested ==> checkout == (if order.Ok? then Some(order.data) else None)
      ensures orderRequested ==> msg == (if order.Ok? then "" else "\U{274C} " + ErrorText(order.err, "Payment initiation failed"))
    {
      orderRequested, checkout := false, None;
      if plan.price == 0 {
        return;
      }
      if hour < 10 || hour >= 11 {
        msg := WindowWarning + timeText;
        return;
      }
      loading := true;
      msg := "";
      orderRequested := true;
      match order {
        case Ok(o) => checkout := Some(o);
        case Fail(e) => msg := "\U{274C} " + ErrorText(e, "Payment initiation failed");
      }
      loading := false;
    }
  }
}
