/** The receiver: an effect and its receipt are one row, inserted at most once per key. */
module Receiver {
  import opened Schema

  datatype Ledger = Ledger(effects: map<Id, Effect>, plans: map<Id, seq<FailureMode>>)

  const EMPTY := Ledger(map[], map[])

  /** What a caller sees of an HTTP exchange: a receipt, another status, or nothing usable. */
  datatype Answer =
    | Held(receipt: Receipt)
    | Status(code: int, retryAfter: Option<int>)
    | Broken

  function ReceiptOf(key: Id, effect: Effect): Receipt {
    Receipt(key, effect.receipt, effect.hash, effect.committedAt)
  }

  function GetEffect(ledger: Ledger, key: Id): Answer {
    if key in ledger.effects then Held(ReceiptOf(key, ledger.effects[key])) else Status(404, None)
  }

  function NextMode(ledger: Ledger, key: Id): Option<FailureMode> {
    if key in ledger.plans && ledger.plans[key] != [] then Some(ledger.plans[key][0]) else None
  }

  function Consumed(ledger: Ledger, key: Id): Ledger {
    if NextMode(ledger, key).None? then ledger
    else ledger.(plans := ledger.plans[key := ledger.plans[key][1..]])
  }

  /** One POST: deduplicate by key, refuse a changed body, otherwise take the next planned
      failure or commit the effect together with its receipt. */
  function MutateTx(digest: Doc -> Hash, ledger: Ledger, key: Id, body: Mutation, receipt: Id, now: Time)
    : (Ledger, Answer)
  {
    if key in ledger.effects then
      if ledger.effects[key].hash != digest(OfMutation(body)) then (ledger, Status(409, None))
      else (ledger, Held(ReceiptOf(key, ledger.effects[key])))
    else
      match NextMode(ledger, key)
      case Some(Fail429) => (Consumed(ledger, key), Status(429, Some(1)))
      case Some(Fail500) => (Consumed(ledger, key), Status(500, Some(1)))
      case Some(Fail422) => (Consumed(ledger, key), Status(422, Some(1)))
      case Some(TimeoutBefore) => (Consumed(ledger, key), Status(503, None))
      case _ =>
        var effect := Effect(digest(OfMutation(body)), body, receipt, now);
        (Consumed(ledger, key).(effects := ledger.effects[key := effect]), Held(ReceiptOf(key, effect)))
  }

  /** What a POST leaves behind: an answer with a receipt is what the next lookup gives, every receipt
      handed out before is still handed out, and no key but its own gains an effect. */
  lemma MutateThenGet(digest: Doc -> Hash, ledger: Ledger, key: Id, body: Mutation, receipt: Id, now: Time, other: Id)
    ensures var (ledger', answer) := MutateTx(digest, ledger, key, body, receipt, now);
      && (answer.Held? <==> key in ledger'.effects && ledger'.effects[key].hash == digest(OfMutation(body)))
      && (answer.Held? ==> GetEffect(ledger', key) == answer)
      && (GetEffect(ledger, other).Held? ==> GetEffect(ledger', other) == GetEffect(ledger, other))
      && (GetEffect(ledger', other).Held? ==> other == key || GetEffect(ledger, other).Held?)
  {
  }
}
