/** The receiver's database and its two endpoints, proved against the ledger functions. */
module ReceiverOps {
  import opened Schema
  import opened Receiver

  class ReceiverDb {
    const digest: Doc -> Hash
    var effects: map<Id, Effect>
    var plans: map<Id, seq<FailureMode>>

    function View(): Ledger
      reads this
    {
      Ledger(effects, plans)
    }

    constructor (digest: Doc -> Hash)
      ensures View() == EMPTY && this.digest == digest
    {
      this.digest := digest;
      effects, plans := map[], map[];
    }

    method Plan(key: Id, modes: seq<FailureMode>)
      modifies `plans
      ensures NextMode(View(), key) == if modes == [] then None else Some(modes[0])
      ensures forall other: Id | other != key :: NextMode(View(), other) == NextMode(old(View()), other)
    {
      plans := plans[key := modes];
    }

    method Get(key: Id) returns (answer: Answer)
      ensures answer.Held? <==> key in effects
      ensures answer.Held? ==> answer.receipt.key == key && answer.receipt.receipt == effects[key].receipt
      ensures answer.Held? ==> answer.receipt.hash == effects[key].hash && answer.receipt.committedAt == effects[key].committedAt
      ensures !answer.Held? ==> answer == Status(404, None)
    {
      if key !in effects { return Status(404, None); }
      return Held(ReceiptOf(key, effects[key]));
    }

    /** One transaction: the effect, its receipt and the next planned failure are settled together. */
    method Mutate(key: Id, body: Mutation, receipt: Id, now: Time) returns (answer: Answer)
      modifies this
      ensures (View(), answer) == MutateTx(digest, old(View()), key, body, receipt, now)
      ensures forall other <- old(effects) :: other in effects && effects[other] == old(effects)[other]
      ensures forall other <- effects :: other == key || other in old(effects)
      ensures answer.Held? ==> key in effects && answer.receipt == ReceiptOf(key, effects[key])
      ensures answer.Held? <==> key in effects && effects[key].hash == digest(OfMutation(body))
    {
      if key in effects {
        if effects[key].hash != digest(OfMutation(body)) { return Status(409, None); }
        return Held(ReceiptOf(key, effects[key]));
      }
      var modes := if key in plans then plans[key] else [];
      var mode := if modes != [] then Some(modes[0]) else None;
      if modes != [] { plans := plans[key := modes[1..]]; }
      if mode !in {Some(Fail429), Some(Fail500), Some(Fail422), Some(TimeoutBefore)} {
        effects := effects[key := Effect(digest(OfMutation(body)), body, receipt, now)];
      }
      match mode
      case Some(Fail429) => return Status(429, Some(1));
      case Some(Fail500) => return Status(500, Some(1));
      case Some(Fail422) => return Status(422, Some(1));
      case Some(TimeoutBefore) => return Status(503, None);
      case _ => return Held(ReceiptOf(key, effects[key]));
    }
  }
}
