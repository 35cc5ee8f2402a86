/** The reconciler: `buscar_transaction_id` looks a ledger SEQ_NUM up among the
    gateway's transactions by their `referencs` and writes the transaction id
    back into the matching ledger rows; `buscar_por_authorization_code` is a
    read-only lookup by authorization code. */
module BuscarTransaccion {
  import opened Base
  import opened Tablas

  /** `WHERE referencs = seq_num`. */
  predicate MatchesSeq(t: Transaction, seqNum: string)
  {
    t.referencs == seqNum
  }

  predicate HasMatch(txs: seq<Transaction>, seqNum: string)
  {
    exists i :: 0 <= i < |txs| && MatchesSeq(txs[i], seqNum)
  }

  /** `UPDATE LiquidacionesSV SET qpay_transac_id = id WHERE SEQ_NUM = seq_num`. */
  function WriteBack(ledger: seq<Row>, seqNum: string, id: string): (r: seq<Row>)
    ensures |r| == |ledger|
  {
    seq(|ledger|, i requires 0 <= i < |ledger| =>
      if ledger[i].seqNum == Some(seqNum) then ledger[i].(qpayTransacId := Some(id)) else ledger[i])
  }

  /** The database errors `buscar_transaction_id` may meet: the lookup fails, the
      column check or the `ALTER TABLE` fails, or the `UPDATE` or its commit fails. */
  datatype ReconcileFault = NoFault | LookupFails | SchemaFails | UpdateFails

  datatype ReconcileOutcome = ReconcileOutcome(s: State, id: Option<string>)

  /** The schema once qpay_transac_id has been made sure of. */
  function WithQpayColumn(schema: Schema): Schema
  {
    schema.(ledgerHasQpayTransacId := true)
  }

  /** `buscar_transaction_id`. The `LIMIT 1` without `ORDER BY` is read as the
      first match in table order. */
  function Reconciliar(s: State, txs: seq<Transaction>, seqNum: string, fault: ReconcileFault): (r: ReconcileOutcome)
    ensures r.s.parents == s.parents && r.s.children == s.children
    ensures r.s.nextParentId == s.nextParentId && r.s.nextChildId == s.nextChildId
    ensures r.id.Some? ==> exists i :: 0 <= i < |txs| && MatchesSeq(txs[i], seqNum) && txs[i].transactionId == r.id.value
    ensures r.id.Some? ==> r.s.schema == WithQpayColumn(s.schema) && r.s.ledger == WriteBack(s.ledger, seqNum, r.id.value)
    ensures r.id.None? <==> !HasMatch(txs, seqNum) || fault != NoFault
    ensures r.id.None? ==> r.s.ledger == s.ledger
    ensures r.id.None? ==> r.s.schema == s.schema || (HasMatch(txs, seqNum) && fault == UpdateFails && r.s.schema == WithQpayColumn(s.schema))
    ensures !HasMatch(txs, seqNum) ==> r.s == s
    ensures ValidState(s) ==> ValidState(r.s)
  {
    if fault == LookupFails then ReconcileOutcome(s, None)
    else
      match FirstMatch(txs, t => MatchesSeq(t, seqNum))
      case None => ReconcileOutcome(s, None)
      case Some(j) =>
        assert MatchesSeq(txs[j], seqNum);
        if fault == SchemaFails then ReconcileOutcome(s, None)
        else
          var s1 := s.(schema := WithQpayColumn(s.schema));
          if fault == UpdateFails then ReconcileOutcome(s1, None)
          else
            assert HasMatch(txs, seqNum);
            assert fault == NoFault;
            var id := txs[j].transactionId;
            ReconcileOutcome(s1.(ledger := WriteBack(s.ledger, seqNum, id)), Some(id))
  }

  /** `buscar_transaction_id` against the session; `fault` stands for the
      exception it catches, if one is raised. */
  method BuscarTransactionId(db: Db, seqNum: string, fault: ReconcileFault) returns (id: Option<string>)
    requires db.Valid()
    modifies db`schema, db`ledger
    ensures db.Valid()
    ensures ReconcileOutcome(db.Snapshot(), id) == Reconciliar(old(db.Snapshot()), db.transactions, seqNum, fault)
  {
    if fault == LookupFails {
      return None;
    }
    var found := FirstMatch(db.transactions, t => MatchesSeq(t, seqNum));
    if found.None? {
      return None;
    }
    if fault == SchemaFails {
      return None;
    }
    if !db.schema.ledgerHasQpayTransacId {
      db.schema := db.schema.(ledgerHasQpayTransacId := true);
    }
    if fault == UpdateFails {
      return None;
    }
    var txId := db.transactions[found.value].transactionId;
    db.ledger := WriteBack(db.ledger, seqNum, txId);
    return Some(txId);
  }

  /** Writing the same id back twice is writing it once. */
  lemma WriteBackIdempotente(ledger: seq<Row>, seqNum: string, id: string)
    ensures WriteBack(WriteBack(ledger, seqNum, id), seqNum, id) == WriteBack(ledger, seqNum, id)
  {
  }

  /** The write-back touches exactly the rows with that SEQ_NUM and only their
      qpay_transac_id. */
  lemma WriteBackFilas(ledger: seq<Row>, seqNum: string, id: string)
    ensures var r := WriteBack(ledger, seqNum, id);
            forall i :: 0 <= i < |ledger| ==>
              && (ledger[i].seqNum == Some(seqNum) ==> r[i].qpayTransacId == Some(id))
              && (ledger[i].seqNum != Some(seqNum) ==> r[i] == ledger[i])
              && r[i].(qpayTransacId := ledger[i].qpayTransacId) == ledger[i]
  {
  }

  /** Reconciling the same SEQ_NUM twice without errors returns the same id and
      changes nothing the second time. */
  lemma ReconciliarIdempotente(s: State, txs: seq<Transaction>, seqNum: string)
    ensures var r1 := Reconciliar(s, txs, seqNum, NoFault);
            Reconciliar(r1.s, txs, seqNum, NoFault) == r1
  {
    var r1 := Reconciliar(s, txs, seqNum, NoFault);
    if HasMatch(txs, seqNum) {
      WriteBackIdempotente(s.ledger, seqNum, r1.id.value);
    }
  }

  /** The columns `SELECT transaction_id, orderNumber, referencs, amount,
      autorizationCode, status` returns. */
  datatype AuthRecord = AuthRecord(
    transactionId: string,
    orderNumber: string,
    referencs: string,
    amount: Cents,
    autorizationCode: string,
    status: int)

  function Proyeccion(t: Transaction): AuthRecord
  {
    AuthRecord(t.transactionId, t.orderNumber, t.referencs, t.amount, t.autorizationCode, t.status)
  }

  /** `buscar_por_authorization_code`: the projected row of a transaction with
      that authorization code, or `None` when there is none or the query fails
      (`fails`). It reads the transactions only. */
  function BuscarPorAuthorizationCode(txs: seq<Transaction>, code: string, fails: bool): (r: Option<AuthRecord>)
    ensures r.Some? ==> exists i :: 0 <= i < |txs| && txs[i].autorizationCode == code && r.value == Proyeccion(txs[i])
    ensures r.Some? ==> r.value.autorizationCode == code
    ensures r.None? <==> fails || forall i :: 0 <= i < |txs| ==> txs[i].autorizationCode != code
  {
    if fails then None
    else
      match FirstMatch(txs, (t: Transaction) => t.autorizationCode == code)
      case None => None
      case Some(j) => Some(Proyeccion(txs[j]))
  }
}
