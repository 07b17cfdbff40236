/**
 Identifiers, keys and digests as the service builds them.

 `uuid5`, `sha256` and the f-strings that label a key are modelled symbolically: each is a
 constructor, so two derived values are equal only when they were derived the same way from
 equal parts.  Values that come from outside (request ids, event ids, event keys) range over
 the whole type, so they may coincide with a derived value.
 */
module Identifiers {

  datatype Option<+T> = None | Some(value: T)

  datatype Uuid =
    | Plain(number: nat)
    | V5(space: Uuid, name: Text)

  datatype Text =
    | Str(s: string)
    | UuidText(id: Uuid)
    | Labelled(prefix: string, body: Text)
    | Suffixed(head: Text, suffix: string)
    | Digest(parts: seq<Text>)
    | DomainOrder(demoHex: Uuid, requestHead: nat)

  // uuid.NAMESPACE_URL; an outside id may well be the same value
  const NAMESPACE_URL: Uuid := Plain(0)

  const PAYMENT_ORDER_NAME := Str("nxtutors:payment-order")
  const CASHFREE_ORDER_NAME := Str("nxtutors:cashfree-create-order")

  function PaymentOrderId(request: Uuid): Uuid { V5(request, PAYMENT_ORDER_NAME) }

  function CashfreeEventId(request: Uuid): Uuid { V5(request, CASHFREE_ORDER_NAME) }

  function PaidEventId(order: Uuid): Uuid {
    V5(NAMESPACE_URL, Labelled("nxtutors:paid", UuidText(order)))
  }

  function OnboardingKey(paidId: Uuid): Text { Labelled("onboarding-paid", UuidText(paidId)) }

  function OnboardingEventId(paidId: Uuid): Uuid {
    V5(NAMESPACE_URL, Labelled("nxtutors", OnboardingKey(paidId)))
  }

  function WelcomeKey(handoffId: Uuid): Text { Labelled("welcome", UuidText(handoffId)) }

  function WelcomeMessageId(handoffId: Uuid): Uuid {
    V5(NAMESPACE_URL, Labelled("nxtutors:message", WelcomeKey(handoffId)))
  }

  function WelcomeEventId(handoffId: Uuid): Uuid {
    V5(NAMESPACE_URL, Labelled("nxtutors:outbox", WelcomeKey(handoffId)))
  }

  function ReplyKey(event: Uuid): Text { Labelled("demo-reply", UuidText(event)) }

  function ReplyEventId(event: Uuid): Uuid {
    V5(NAMESPACE_URL, Labelled("nxtutors:demo-reply", UuidText(event)))
  }

  function DemoIdOf(event: Uuid): Uuid {
    V5(NAMESPACE_URL, Labelled("nxtutors:demo", UuidText(event)))
  }

  function RequestLogKey(request: Uuid): Text { Labelled("payment-request", UuidText(request)) }

  function AcceptedLogKey(handoffId: Uuid): Text {
    Labelled("onboarding-accepted", UuidText(handoffId))
  }
}
