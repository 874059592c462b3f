/** Receipts make a retried step observable without executing it twice. */
module ActionReceipts {
  import opened Options

  datatype Status = Accepted | Rejected | Executed | Failed

  /** What identifies the attempt a receipt was issued for; `named` is whether
      its step has an id at all. */
  datatype Claim = Claim(named: bool, observation: string, source: string, action: string)
  {
    predicate Complete() { named && observation != "" && source != "" && action != "" }

    predicate SameAttempt(other: Claim) {
      observation == other.observation && source == other.source && action == other.action
    }
  }

  datatype Receipt = Receipt(claim: Claim, status: Status)

  datatype Answer = Incomplete | Conflict(existing: Receipt) | Duplicate(existing: Receipt) | New

  function AnswerTo<K>(receipts: map<K, Receipt>, id: K, claim: Claim): Answer {
    if !claim.Complete() then Incomplete
    else if id !in receipts then New
    else if !receipts[id].claim.SameAttempt(claim) then Conflict(receipts[id])
    else Duplicate(receipts[id])
  }

  function AcceptSpec<K>(receipts: map<K, Receipt>, id: K, claim: Claim): map<K, Receipt> {
    if AnswerTo(receipts, id, claim).New? then receipts[id := Receipt(claim, Accepted)] else receipts
  }

  function FinishSpec<K>(receipts: map<K, Receipt>, id: K, status: Status): map<K, Receipt> {
    if id in receipts then receipts[id := receipts[id].(status := status)] else receipts
  }

  class ReceiptStore<K(==)> {
    var receipts: map<K, Receipt>

    constructor ()
      ensures receipts == map[]
    {
      receipts := map[];
    }

    method Accept(id: K, claim: Claim) returns (answer: Answer)
      modifies this
      ensures answer == AnswerTo(old(receipts), id, claim)
      ensures receipts == AcceptSpec(old(receipts), id, claim)
    {
      if !claim.named || claim.observation == "" || claim.source == "" || claim.action == "" { return Incomplete; }
      if id in receipts {
        var existing := receipts[id];
        if existing.claim.observation != claim.observation || existing.claim.source != claim.source
           || existing.claim.action != claim.action { return Conflict(existing); }
        return Duplicate(existing);
      }
      receipts := receipts[id := Receipt(claim, Accepted)];
      return New;
    }

    method Finish(id: K, status: Status) returns (found: bool)
      modifies this
      ensures found <==> id in old(receipts)
      ensures receipts == FinishSpec(old(receipts), id, status)
    {
      if id !in receipts { return false; }
      receipts := receipts[id := receipts[id].(status := status)];
      return true;
    }
  }

  datatype Operation<K> = Accepting(id: K, claim: Claim) | Finishing(id: K, status: Status)

  function Step<K>(receipts: map<K, Receipt>, op: Operation<K>): map<K, Receipt> {
    match op
    case Accepting(id, claim) => AcceptSpec(receipts, id, claim)
    case Finishing(id, status) => FinishSpec(receipts, id, status)
  }

  /** How often a history tells its caller to execute step `id`. */
  function Executions<K(==)>(receipts: map<K, Receipt>, ops: seq<Operation<K>>, id: K): nat
    decreases |ops|
  {
    if ops == [] then 0
    else
      (if ops[0].Accepting? && ops[0].id == id && AnswerTo(receipts, id, ops[0].claim).New? then 1 else 0)
      + Executions(Step(receipts, ops[0]), ops[1..], id)
  }

  /** A step is executed at most once in every history: once if it has no receipt
      yet and some complete claim for it arrives, and otherwise never. */
  lemma {:induction false} ExecutedAtMostOnce<K>(receipts: map<K, Receipt>, ops: seq<Operation<K>>, id: K)
    ensures Executions(receipts, ops, id) ==
              if id !in receipts && exists i :: 0 <= i < |ops| && Claims(ops[i], id) then 1 else 0
    decreases |ops|
  {
    if ops != [] {
      ExecutedAtMostOnce(Step(receipts, ops[0]), ops[1..], id);
      if exists i :: 0 <= i < |ops| && Claims(ops[i], id) {
        var i :| 0 <= i < |ops| && Claims(ops[i], id);
        if i > 0 { assert ops[1..][i - 1] == ops[i]; }
      }
      if exists i :: 0 <= i < |ops[1..]| && Claims(ops[1..][i], id) {
        var i :| 0 <= i < |ops[1..]| && Claims(ops[1..][i], id);
        assert ops[i + 1] == ops[1..][i];
      }
    }
  }

  predicate Claims<K(==)>(op: Operation<K>, id: K) {
    op.Accepting? && op.id == id && op.claim.Complete()
  }

  // ----- What a receipt tells ------------------------------------------------

  /** The first complete claim for the step, and its status: that of the last
      finish after it, if there was one. */
  function History<K(==)>(ops: seq<Operation<K>>, id: K): Option<Receipt>
    decreases |ops|
  {
    if ops == [] then None
    else
      var before, last := History(ops[..|ops| - 1], id), ops[|ops| - 1];
      match last
      case Accepting(k, claim) =>
        if k == id && before.None? && claim.named && claim.observation != "" && claim.source != "" && claim.action != ""
        then Some(Receipt(claim, Accepted)) else before
      case Finishing(k, status) =>
        if k == id && before.Some? then Some(Receipt(before.value.claim, status)) else before
  }

  function Run<K(==)>(receipts: map<K, Receipt>, ops: seq<Operation<K>>): map<K, Receipt>
    decreases |ops|
  {
    if ops == [] then receipts else Step(Run(receipts, ops[..|ops| - 1]), ops[|ops| - 1])
  }

  /** Every stored receipt tells the history of its step: later claims, equal or
      not, never touch it. */
  lemma {:induction false} ReceiptsTellTheHistory<K>(ops: seq<Operation<K>>, id: K)
    ensures var receipts := Run(map[], ops);
            (id in receipts <==> History(ops, id).Some?)
            && (id in receipts ==> receipts[id] == History(ops, id).value)
    decreases |ops|
  {
    if ops != [] { ReceiptsTellTheHistory(ops[..|ops| - 1], id); }
  }

  /** What a claim is answered: nothing is wrong with it only if it is complete;
      a step that is known is a duplicate exactly if the claims agree. */
  lemma AnsweredExactlyWhen<K>(receipts: map<K, Receipt>, id: K, claim: Claim)
    ensures var answer := AnswerTo(receipts, id, claim);
            var complete := claim.named && claim.observation != "" && claim.source != "" && claim.action != "";
            && (answer.Incomplete? <==> !complete)
            && (answer.New? <==> complete && id !in receipts)
            && (answer.Duplicate? <==>
                  && complete && id in receipts && receipts[id].claim.observation == claim.observation
                  && receipts[id].claim.source == claim.source && receipts[id].claim.action == claim.action)
            && (answer.Duplicate? || answer.Conflict? ==> answer.existing == receipts[id])
  {
  }
}
