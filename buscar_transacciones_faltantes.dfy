/** The audit of gateway transactions missing from the ledger: the query of
    `buscar_transacciones_faltantes` (successful transactions of payment
    method 10 whose id no ledger row carries as qpay_transac_id, newest first),
    the sheet `generar_reporte_excel` builds from its rows, and the rule that a
    notification goes out only when something is missing. */
module BuscarTransaccionesFaltantes {
  import opened Base
  import opened Tablas

  /** `WHERE pg.payment_method_id = 10`. */
  const MetodoPagoAuditado := 10

  /** `AND t.status = 1`: successful transactions. */
  const StatusExitoso := 1

  /** One row of the audit query (its thirteen selected columns). */
  datatype Faltante = Faltante(
    transactionId: string,
    orderNumber: string,
    referencs: string,
    amount: Cents,
    autorizationCode: string,
    currency: string,
    status: int,
    createdAt: Timestamp,
    updatedAt: Timestamp,
    paymentMethodId: int,
    paymentMethodName: string,
    email: string,
    billToName: string)

  /** `SELECT qpay_transac_id FROM LiquidacionesSV WHERE qpay_transac_id IS NOT NULL`. */
  function ReconciledIds(ledger: seq<Row>): set<string>
  {
    set i | 0 <= i < |ledger| && ledger[i].qpayTransacId.Some? :: ledger[i].qpayTransacId.value
  }

  /** The joined triple passes the `ON` conditions and the `WHERE` clause. */
  predicate Qualifies(t: Transaction, g: PaymentGateway, m: PaymentMethod, reconciled: set<string>)
  {
    && t.paymentGatewayId == g.paymentGatewayId
    && g.paymentMethodId == m.paymentMethodId
    && g.paymentMethodId == MetodoPagoAuditado
    && t.transactionId !in reconciled
    && t.status == StatusExitoso
  }

  function Fila(t: Transaction, g: PaymentGateway, m: PaymentMethod): Faltante
  {
    Faltante(t.transactionId, t.orderNumber, t.referencs, t.amount, t.autorizationCode, t.currency,
             t.status, t.createdAt, t.updatedAt, g.paymentMethodId, m.name, t.email, t.billToName)
  }

  /** `x` is the result row of a qualifying triple. */
  predicate FromTriple(x: Faltante, t: Transaction, g: PaymentGateway, m: PaymentMethod, reconciled: set<string>)
  {
    Qualifies(t, g, m, reconciled) && x == Fila(t, g, m)
  }

  function JoinMethods(t: Transaction, g: PaymentGateway, pms: seq<PaymentMethod>, reconciled: set<string>): (r: seq<Faltante>)
    ensures forall x :: x in r <==> exists k :: 0 <= k < |pms| && FromTriple(x, t, g, pms[k], reconciled)
  {
    if pms == [] then []
    else
      var pre := pms[..|pms| - 1];
      var m := pms[|pms| - 1];
      assert forall k :: 0 <= k < |pre| ==> pre[k] == pms[k];
      JoinMethods(t, g, pre, reconciled) + (if Qualifies(t, g, m, reconciled) then [Fila(t, g, m)] else [])
  }

  function JoinGateways(t: Transaction, gws: seq<PaymentGateway>, pms: seq<PaymentMethod>, reconciled: set<string>): (r: seq<Faltante>)
    ensures forall x :: x in r <==>
              exists j, k :: 0 <= j < |gws| && 0 <= k < |pms| && FromTriple(x, t, gws[j], pms[k], reconciled)
  {
    if gws == [] then []
    else
      var pre := gws[..|gws| - 1];
      var g := gws[|gws| - 1];
      assert forall j :: 0 <= j < |pre| ==> pre[j] == gws[j];
      JoinGateways(t, pre, pms, reconciled) + JoinMethods(t, g, pms, reconciled)
  }

  /** `transactions INNER JOIN payment_gateway INNER JOIN payment_method WHERE ...`,
      before ordering. */
  function Join(txs: seq<Transaction>, gws: seq<PaymentGateway>, pms: seq<PaymentMethod>, reconciled: set<string>): (r: seq<Faltante>)
    ensures forall x :: x in r <==>
              exists i, j, k :: 0 <= i < |txs| && 0 <= j < |gws| && 0 <= k < |pms| && FromTriple(x, txs[i], gws[j], pms[k], reconciled)
  {
    if txs == [] then []
    else
      var pre := txs[..|txs| - 1];
      var t := txs[|txs| - 1];
      assert forall i :: 0 <= i < |pre| ==> pre[i] == txs[i];
      Join(pre, gws, pms, reconciled) + JoinGateways(t, gws, pms, reconciled)
  }

  /** `ORDER BY t.created_at DESC`. */
  predicate SortedDesc(xs: seq<Faltante>)
  {
    forall i, j :: 0 <= i < j < |xs| ==> NotAfter(xs[j].createdAt, xs[i].createdAt)
  }

  /** A row not older than any of a sorted list can go in front of it. */
  lemma SortedCons(y: Faltante, ys: seq<Faltante>)
    requires SortedDesc(ys)
    requires forall k :: 0 <= k < |ys| ==> NotAfter(ys[k].createdAt, y.createdAt)
    ensures SortedDesc([y] + ys)
  {
    var r := [y] + ys;
    forall i, j | 0 <= i < j < |r|
      ensures NotAfter(r[j].createdAt, r[i].createdAt)
    {
      assert r[j] == ys[j - 1];
      if i > 0 {
        assert r[i] == ys[i - 1];
      }
    }
  }

  function Insertar(x: Faltante, xs: seq<Faltante>): (r: seq<Faltante>)
    requires SortedDesc(xs)
    ensures SortedDesc(r)
    ensures multiset(r) == multiset(xs) + multiset{x}
    ensures forall k :: 0 <= k < |r| ==> r[k] == x || r[k] in xs
  {
    if xs == [] then [x]
    else if NotAfter(xs[0].createdAt, x.createdAt) then
      assert forall k :: 0 <= k < |xs| ==> NotAfter(xs[k].createdAt, x.createdAt);
      SortedCons(x, xs);
      [x] + xs
    else
      var rest := Insertar(x, xs[1..]);
      assert xs == [xs[0]] + xs[1..];
      assert forall k :: 0 <= k < |rest| ==> NotAfter(rest[k].createdAt, xs[0].createdAt);
      SortedCons(xs[0], rest);
      [xs[0]] + rest
  }

  /** The rows newest first; rows with the same created_at keep no particular order. */
  function OrdenarDesc(xs: seq<Faltante>): (r: seq<Faltante>)
    ensures SortedDesc(r)
    ensures multiset(r) == multiset(xs)
  {
    if xs == [] then []
    else
      assert xs == [xs[0]] + xs[1..];
      Insertar(xs[0], OrdenarDesc(xs[1..]))
  }

  /** The rows `buscar_transacciones_faltantes` returns. */
  function Faltantes(s: State, txs: seq<Transaction>, gws: seq<PaymentGateway>, pms: seq<PaymentMethod>): seq<Faltante>
  {
    OrdenarDesc(Join(txs, gws, pms, ReconciledIds(s.ledger)))
  }

  /** `buscar_transacciones_faltantes`: `None` when the query fails (`fails`), which
      it also does when LiquidacionesSV has no qpay_transac_id column. */
  function BuscarFaltantes(s: State, txs: seq<Transaction>, gws: seq<PaymentGateway>, pms: seq<PaymentMethod>, fails: bool): (r: Option<seq<Faltante>>)
    ensures r.None? <==> fails || !s.schema.ledgerHasQpayTransacId
    ensures r.Some? ==> SortedDesc(r.value)
    ensures r.Some? ==> forall x :: x in r.value ==>
              x.paymentMethodId == MetodoPagoAuditado && x.status == StatusExitoso && x.transactionId !in ReconciledIds(s.ledger)
  {
    if fails || !s.schema.ledgerHasQpayTransacId then None
    else
      var r := Faltantes(s, txs, gws, pms);
      forall x | x in r
        ensures x.paymentMethodId == MetodoPagoAuditado && x.status == StatusExitoso && x.transactionId !in ReconciledIds(s.ledger)
      {
        var rec := ReconciledIds(s.ledger);
        assert x in multiset(r);
        var joined := Join(txs, gws, pms, rec);
        assert multiset(r) == multiset(joined);
        assert x in multiset(joined);
        assert x in joined;
        var i, j, k :| 0 <= i < |txs| && 0 <= j < |gws| && 0 <= k < |pms| && FromTriple(x, txs[i], gws[j], pms[k], rec);
        assert Qualifies(txs[i], gws[j], pms[k], rec);
        assert x == Fila(txs[i], gws[j], pms[k]);
        assert x.paymentMethodId == gws[j].paymentMethodId;
      }
      Some(r)
  }

  /** The audit query against the session; it changes nothing. */
  method BuscarTransaccionesFaltantesEn(db: Db, fails: bool) returns (r: Option<seq<Faltante>>)
    requires db.Valid()
    ensures r == BuscarFaltantes(db.Snapshot(), db.transactions, db.gateways, db.methods, fails)
  {
    if fails || !db.schema.ledgerHasQpayTransacId {
      return None;
    }
    var rec := ReconciledIds(db.ledger);
    var joined := Join(db.transactions, db.gateways, db.methods, rec);
    return Some(OrdenarDesc(joined));
  }

  /** Exactly the qualifying joined rows are reported, each as often as the join
      produces it: soundness, completeness, and no row lost or duplicated by the ordering. */
  lemma FaltantesExactos(s: State, txs: seq<Transaction>, gws: seq<PaymentGateway>, pms: seq<PaymentMethod>)
    ensures var r := Faltantes(s, txs, gws, pms);
            && multiset(r) == multiset(Join(txs, gws, pms, ReconciledIds(s.ledger)))
            && (forall i, j, k ::
                  (0 <= i < |txs| && 0 <= j < |gws| && 0 <= k < |pms|
                   && Qualifies(txs[i], gws[j], pms[k], ReconciledIds(s.ledger))) ==> Fila(txs[i], gws[j], pms[k]) in r)
            && (forall x :: x in r ==>
                  exists i, j, k :: (0 <= i < |txs| && 0 <= j < |gws| && 0 <= k < |pms|
                                     && FromTriple(x, txs[i], gws[j], pms[k], ReconciledIds(s.ledger))))
  {
    var rec := ReconciledIds(s.ledger);
    var joined := Join(txs, gws, pms, rec);
    var r := Faltantes(s, txs, gws, pms);
    forall x
      ensures x in r <==> x in joined
    {
      assert x in r <==> x in multiset(r);
      assert x in joined <==> x in multiset(joined);
    }
    forall i, j, k | 0 <= i < |txs| && 0 <= j < |gws| && 0 <= k < |pms| && Qualifies(txs[i], gws[j], pms[k], rec)
      ensures Fila(txs[i], gws[j], pms[k]) in r
    {
      assert FromTriple(Fila(txs[i], gws[j], pms[k]), txs[i], gws[j], pms[k], rec);
    }
  }

  // ---------------------------------------------------------------------------
  // The report sheet.

  datatype Cell = Text(text: string) | Money(cents: Cents) | Int(value: int) | Time(at: Timestamp)

  /** The column labels of the sheet, in order. */
  const Encabezados: seq<string> := [
    "Transaction ID", "Order Number", "Referencs", "Amount", "Authorization Code", "Currency",
    "Status", "Payment Method", "Email", "Bill To Name", "Created At", "Updated At"]

  /** One sheet row: the twelve reported columns in the sheet's order
      (payment_method_id is dropped). */
  function FilaReporte(x: Faltante): (r: seq<Cell>)
    ensures |r| == |Encabezados|
  {
    [Text(x.transactionId), Text(x.orderNumber), Text(x.referencs), Money(x.amount),
     Text(x.autorizationCode), Text(x.currency), Int(x.status), Text(x.paymentMethodName),
     Text(x.email), Text(x.billToName), Time(x.createdAt), Time(x.updatedAt)]
  }

  datatype Reporte = Reporte(header: seq<string>, rows: seq<seq<Cell>>)

  /** The cell of `row` under the column labelled `name`, if the sheet has one. */
  function Columna(header: seq<string>, row: seq<Cell>, name: string): (c: Option<Cell>)
    ensures c.Some? ==> name in header
  {
    match FirstMatch(header, (h: string) => h == name)
    case None => None
    case Some(i) => if i < |row| then Some(row[i]) else None
  }

  /** `generar_reporte_excel`: no sheet for an empty result or when writing the
      file fails (`writeFails`), otherwise one row per result row, in order. */
  function GenerarReporte(xs: seq<Faltante>, writeFails: bool): (r: Option<Reporte>)
    ensures r.None? <==> xs == [] || writeFails
    ensures r.Some? ==> r.value.header == Encabezados && |r.value.rows| == |xs|
  {
    if xs == [] || writeFails then None
    else Some(Reporte(Encabezados, seq(|xs|, i requires 0 <= i < |xs| => FilaReporte(xs[i]))))
  }

  /** The labels are pairwise different. */
  lemma EncabezadosDistintos()
    ensures forall j, k :: 0 <= j < k < |Encabezados| ==> Encabezados[j] != Encabezados[k]
  {
  }

  /** The cell under the `k`-th label is the `k`-th cell when no earlier label repeats it. */
  lemma ColumnaEn(header: seq<string>, row: seq<Cell>, k: nat)
    requires k < |header| && k < |row|
    requires forall j :: 0 <= j < k ==> header[j] != header[k]
    ensures Columna(header, row, header[k]) == Some(row[k])
  {
    var m := FirstMatch(header, (h: string) => h == header[k]);
    assert m.Some? && m.value <= k;
  }

  /** Row `i` of the sheet holds, under each label, the cell built for that
      label from result row `i`. */
  lemma ReporteColumnas(xs: seq<Faltante>, i: nat)
    requires i < |xs|
    ensures var rep := GenerarReporte(xs, false).value;
            forall k :: 0 <= k < |Encabezados| ==>
              Columna(rep.header, rep.rows[i], Encabezados[k]) == Some(FilaReporte(xs[i])[k])
  {
    var rep := GenerarReporte(xs, false).value;
    assert rep.rows[i] == FilaReporte(xs[i]);
    EncabezadosDistintos();
    forall k | 0 <= k < |Encabezados|
      ensures Columna(rep.header, rep.rows[i], Encabezados[k]) == Some(FilaReporte(xs[i])[k])
    {
      ColumnaEn(rep.header, rep.rows[i], k);
    }
  }

  /** The "Transaction ID" and "Created At" columns hold the transaction id and the
      creation time of the result row. */
  lemma ReporteIdYFecha(xs: seq<Faltante>, i: nat)
    requires i < |xs|
    ensures var rep := GenerarReporte(xs, false).value;
            && Columna(rep.header, rep.rows[i], "Transaction ID") == Some(Text(xs[i].transactionId))
            && Columna(rep.header, rep.rows[i], "Created At") == Some(Time(xs[i].createdAt))
  {
    ReporteColumnas(xs, i);
    assert Encabezados[0] == "Transaction ID";
    assert Encabezados[10] == "Created At";
  }

  /** The sheet of an audit lists the missing transactions newest first: its
      "Created At" column never increases down the sheet. */
  lemma ReporteOrdenado(xs: seq<Faltante>, i: nat, j: nat)
    requires SortedDesc(xs) && i < j < |xs|
    ensures var rep := GenerarReporte(xs, false).value;
            match (Columna(rep.header, rep.rows[i], "Created At"), Columna(rep.header, rep.rows[j], "Created At"))
            case (Some(Time(a)), Some(Time(b))) => NotAfter(b, a)
            case _ => false
  {
    ReporteIdYFecha(xs, i);
    ReporteIdYFecha(xs, j);
  }

  // ---------------------------------------------------------------------------
  // The run of `main`.

  /** What a run produces: the sheet, if one was written, and whether the
      notification email is sent. */
  datatype Auditoria = Auditoria(reporte: Option<Reporte>, notifica: bool)

  /** `main`: stop when the query failed; otherwise build the sheet and send the
      notification only when some transaction is missing, even if the sheet
      could not be written. */
  function EjecutarAuditoria(result: Option<seq<Faltante>>, writeFails: bool): (a: Auditoria)
    ensures a.notifica <==> result.Some? && |result.value| > 0
    ensures a.reporte.Some? ==> a.notifica
    ensures result.Some? && !writeFails ==> (a.reporte.Some? <==> a.notifica)
  {
    match result
    case None => Auditoria(None, false)
    case Some(xs) => Auditoria(GenerarReporte(xs, writeFails), |xs| > 0)
  }
}
