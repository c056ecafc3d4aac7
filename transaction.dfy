/**
 * The transaction record (include/Transaction.hpp): an immutable value holding what was done,
 * for which card, the amount and the fee. The record's identifier comes from a generator that
 * is not part of this model; here it is the record's position in its session's history.
 */
module Transactions {

  import opened Constants

  datatype Transaction = Transaction(
    id: nat,
    card: string,
    kind: TransactionType,
    amount: int,
    fee: int := 0,
    details: string := "")

  /** A record built without a fee or details carries fee 0 and empty details. */
  lemma ConstructorDefaults(id: nat, card: string, kind: TransactionType, amount: int)
    ensures var t := Transaction(id, card, kind, amount);
      t.id == id && t.card == card && t.kind == kind && t.amount == amount && t.fee == 0 && t.details == ""
  {
  }
}
