/** The tables the reconciliation layer reads and writes, as in-memory records,
    and the database connection as one object holding them. */
module Tablas {
  import opened Base

  /** The monetary columns of a LiquidacionesSV row that batches total up. */
  datatype Measure =
    | MontoTran | MontoAjus | MontoTexe | Subtotal | MontoIva | Comisionab
    | ComMonto | ComMtoiva | Retencion2 | Retenido | MontoDebi | Deposito

  const AllMeasures: set<Measure> :=
    {MontoTran, MontoAjus, MontoTexe, Subtotal, MontoIva, Comisionab,
     ComMonto, ComMtoiva, Retencion2, Retenido, MontoDebi, Deposito}

  lemma AllMeasuresComplete(m: Measure)
    ensures m in AllMeasures
  {
    match m
    case MontoTran => case MontoAjus => case MontoTexe => case Subtotal =>
    case MontoIva => case Comisionab => case ComMonto => case ComMtoiva =>
    case Retencion2 => case Retenido => case MontoDebi => case Deposito =>
  }

  /** A VAT percentage. `Percent(v)` is a stored DECIMAL value (in its column's
      smallest unit); `AvgOf(parts)` stands for the SQL `AVG` of `parts`, kept
      symbolic so that no division or rounding is modelled. */
  datatype Rate = Percent(value: int) | AvgOf(parts: seq<Rate>)

  /** `AVG` over the non-null values `parts`: NULL exactly when there are none. */
  function Avg(parts: seq<Rate>): (r: Option<Rate>)
    ensures r.None? <==> parts == []
  {
    if parts == [] then None else Some(AvgOf(parts))
  }

  datatype Estado = Pendiente | Procesado

  /** A LiquidacionesSV (ledger) row, reduced to the columns the core reads or
      writes. A NULL monetary column has no entry in `amounts`. */
  datatype Row = Row(
    seqNum: Option<string>,
    fechaTran: Timestamp,
    businessId: Option<string>,
    loteId: Option<nat>,
    qpayTransacId: Option<string>,
    amounts: map<Measure, Cents>,
    ivaPorc: Option<int>)

  /** A Lote_sv_business row: one merchant's batch for one day. */
  datatype Child = Child(
    id: nat,
    businessId: string,
    loteSvId: nat,
    fechaLote: Date,
    totalTransacciones: nat,
    totals: map<Measure, Cents>,
    ivaPorc: Option<Rate>,
    estado: Estado)

  /** The total columns a Lote_sv table may have. `Total(m)` is `total_<m>`, so
      `Total(Deposito)` is `total_deposito`; `TotalMontoDeposito` is the
      production name of the deposit total. */
  datatype ParentColumn =
    | TotalComercios
    | TotalTransacciones
    | Total(measure: Measure)
    | TotalMontoDeposito
    | IvaPorc

  /** A Lote_sv row (parent batch). `values` holds the integer and money total
      columns written so far; a column never written keeps its table default. */
  datatype Parent = Parent(
    id: nat,
    fechaLote: Date,
    businessId: Option<string>,
    estado: Estado,
    values: map<ParentColumn, int>,
    ivaPorc: Option<Rate>)

  /** What the INFORMATION_SCHEMA queries would report. */
  datatype Schema = Schema(
    ledgerHasLoteId: bool,
    ledgerHasQpayTransacId: bool,
    childTableExists: bool,
    parentTableExists: bool,
    parentHasBusinessId: bool,
    parentColumns: set<ParentColumn>)

  /** The total columns of the Lote_sv table as the aggregator creates it. */
  const CreatedParentColumns: set<ParentColumn> :=
    {TotalComercios, TotalTransacciones, TotalMontoDeposito}

  /** A row of the external `transactions` table (read only). */
  datatype Transaction = Transaction(
    transactionId: string,
    orderNumber: string,
    referencs: string,
    amount: Cents,
    autorizationCode: string,
    currency: string,
    status: int,
    createdAt: Timestamp,
    updatedAt: Timestamp,
    email: string,
    billToName: string,
    paymentGatewayId: int)

  datatype PaymentGateway = PaymentGateway(paymentGatewayId: int, paymentMethodId: int)

  datatype PaymentMethod = PaymentMethod(paymentMethodId: int, name: string)

  /** The part of the database the aggregator reads and writes. The two counters
      stand for the AUTO_INCREMENT values of Lote_sv and Lote_sv_business. */
  datatype State = State(
    schema: Schema,
    ledger: seq<Row>,
    parents: seq<Parent>,
    children: seq<Child>,
    nextParentId: nat,
    nextChildId: nat)

  /** Facts every database state satisfies: AUTO_INCREMENT ids start at 1 and are
      below the counter, a missing table is empty, and a missing column reads as
      NULL (so adding it changes no row). */
  predicate ValidState(s: State)
  {
    && 1 <= s.nextParentId
    && 1 <= s.nextChildId
    && (forall j :: 0 <= j < |s.parents| ==> 1 <= s.parents[j].id < s.nextParentId)
    && (forall j :: 0 <= j < |s.children| ==> 1 <= s.children[j].id < s.nextChildId)
    && (!s.schema.parentTableExists ==> s.parents == [])
    && (!s.schema.childTableExists ==> s.children == [])
    && (!s.schema.ledgerHasLoteId ==> forall i :: 0 <= i < |s.ledger| ==> s.ledger[i].loteId.None?)
    && (!s.schema.ledgerHasQpayTransacId ==>
          forall i :: 0 <= i < |s.ledger| ==> s.ledger[i].qpayTransacId.None?)
  }

  /** The database session shared by all operations. */
  class Db {
    var schema: Schema
    var ledger: seq<Row>
    var parents: seq<Parent>
    var children: seq<Child>
    var nextParentId: nat
    var nextChildId: nat
    var transactions: seq<Transaction>
    var gateways: seq<PaymentGateway>
    var methods: seq<PaymentMethod>

    function Snapshot(): State
      reads this
    {
      State(schema, ledger, parents, children, nextParentId, nextChildId)
    }

    ghost predicate Valid()
      reads this
    {
      ValidState(Snapshot())
    }

    constructor (s: State, txs: seq<Transaction>, gws: seq<PaymentGateway>, pms: seq<PaymentMethod>)
      requires ValidState(s)
      ensures Valid() && Snapshot() == s
      ensures transactions == txs && gateways == gws && methods == pms
    {
      schema, ledger, parents, children := s.schema, s.ledger, s.parents, s.children;
      nextParentId, nextChildId := s.nextParentId, s.nextChildId;
      transactions, gateways, methods := txs, gws, pms;
    }
  }
}
