/** Razorpay's payment-signature check: HMAC-SHA256 (the RFC 2104 construction) under the
    account secret, over the order id and the payment id joined by a bar, hex-encoded and
    compared with the signature the checkout widget handed back. The HMAC itself is a
    parameter: nothing here depends on how it is computed. */
module Signature {

  /** The signed message (server/controllers/payments.js, line 70). */
  function SignedMessage(orderId: string, paymentId: string): string
  {
    orderId + "|" + paymentId
  }

  /** The hex HMAC of the signed message equals the supplied signature, compared with
      plain string equality (lines 71-76). */
  predicate SignatureMatches(hmac: (string, string) -> string, secret: string,
                             orderId: string, paymentId: string, signature: string)
  {
    hmac(secret, SignedMessage(orderId, paymentId)) == signature
  }

  /** When order ids never contain a bar (Razorpay's do not), the signed message
      determines the order id and the payment id: the signed message for one payment is
      never the message for another. */
  lemma {:induction false} SignedMessageInjective(o1: string, p1: string, o2: string, p2: string)
    requires '|' !in o1 && '|' !in o2
    requires SignedMessage(o1, p1) == SignedMessage(o2, p2)
    ensures o1 == o2 && p1 == p2
  {
    var m := SignedMessage(o1, p1);
    assert m[|o1|] == '|' && m[|o2|] == '|';
    assert |o1| == |o2|;
    assert o1 == m[..|o1|] == o2;
    assert p1 == m[|o1| + 1..] == p2;
  }

  /** Without that condition on order ids the message is ambiguous: two different
      (order, payment) pairs share one message and so one signature. */
  lemma SignedMessageAmbiguous()
    ensures exists o1, p1, o2, p2 :: o1 != o2 && SignedMessage(o1, p1) == SignedMessage(o2, p2)
  {
    assert SignedMessage("a|b", "c") == SignedMessage("a", "b|c");
  }

}
