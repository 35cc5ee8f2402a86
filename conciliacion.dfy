/** How the reconciler and the audit meet: once `buscar_transaction_id` has
    written a transaction id back into the ledger, the audit no longer reports
    that transaction as missing. */
module Conciliacion {
  import opened Base
  import opened Tablas
  import opened BuscarTransaccion
  import opened BuscarTransaccionesFaltantes

  /** After a successful reconciliation of a SEQ_NUM that some ledger row carries,
      the audit query runs (the qpay_transac_id column exists) and none of its
      rows has the transaction id that was written back. */
  lemma ConciliadaNoFalta(s: State, txs: seq<Transaction>, gws: seq<PaymentGateway>, pms: seq<PaymentMethod>, seqNum: string, row: nat)
    requires row < |s.ledger| && s.ledger[row].seqNum == Some(seqNum)
    ensures var r := Reconciliar(s, txs, seqNum, NoFault);
            r.id.Some? ==>
              && BuscarFaltantes(r.s, txs, gws, pms, false).Some?
              && forall x :: x in BuscarFaltantes(r.s, txs, gws, pms, false).value ==> x.transactionId != r.id.value
  {
    var r := Reconciliar(s, txs, seqNum, NoFault);
    if r.id.Some? {
      assert r.s.ledger[row].qpayTransacId == Some(r.id.value);
      assert r.id.value in ReconciledIds(r.s.ledger);
    }
  }
}
