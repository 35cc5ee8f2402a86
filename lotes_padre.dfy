/** The parent batches (Lote_sv): `obtener_o_crear_lote_sv_padre` and
    `actualizar_totales_lote_sv_padre`. */
module LotesPadre {
  import opened Base
  import opened Tablas

  /** The lookup of an existing parent: by date and business id, or by date
      alone on the legacy table that has no business_id column. */
  predicate ParentMatches(schema: Schema, p: Parent, fecha: Date, businessId: string)
  {
    p.fechaLote == fecha && (schema.parentHasBusinessId ==> p.businessId == Some(businessId))
  }

  /** The schema after `CREATE TABLE IF NOT EXISTS Lote_sv`: the created table has a
      business_id column and the total columns `CreatedParentColumns`. */
  function WithParentTable(schema: Schema): Schema
  {
    if schema.parentTableExists then schema
    else schema.(parentTableExists := true, parentHasBusinessId := true, parentColumns := CreatedParentColumns)
  }

  /** The row the `INSERT INTO Lote_sv` adds: state `pendiente`, totals at their defaults. */
  function NewParent(id: nat, schema: Schema, fecha: Date, businessId: string): Parent
  {
    Parent(id, fecha, if schema.parentHasBusinessId then Some(businessId) else None, Pendiente, map[], None)
  }

  /** Some parent in `parents` has id `id` and matches the key. */
  predicate IsParentFor(parents: seq<Parent>, schema: Schema, id: nat, fecha: Date, businessId: string)
  {
    exists j :: 0 <= j < |parents| && parents[j].id == id && ParentMatches(schema, parents[j], fecha, businessId)
  }

  /** A parent for the key already exists (looked up once the table exists). */
  predicate HasParent(s: State, fecha: Date, businessId: string)
  {
    exists j :: 0 <= j < |s.parents| && ParentMatches(WithParentTable(s.schema), s.parents[j], fecha, businessId)
  }

  datatype ParentOutcome = ParentOutcome(s: State, id: nat)

  /** Get-or-create of the parent batch for (fecha, business id), when no
      exception is raised. */
  function ObtenerPadre(s: State, fecha: Date, businessId: string): (r: ParentOutcome)
    ensures r.s.ledger == s.ledger && r.s.children == s.children && r.s.nextChildId == s.nextChildId
    ensures r.s.schema == WithParentTable(s.schema)
    ensures IsParentFor(r.s.parents, r.s.schema, r.id, fecha, businessId)
    ensures HasParent(s, fecha, businessId) ==>
              r.s.parents == s.parents && r.s.nextParentId == s.nextParentId
    ensures !HasParent(s, fecha, businessId) ==>
              && r.id == s.nextParentId
              && r.s.parents == s.parents + [NewParent(r.id, r.s.schema, fecha, businessId)]
              && r.s.nextParentId == s.nextParentId + 1
    ensures ValidState(s) ==> ValidState(r.s) && r.id >= 1
  {
    var schema := WithParentTable(s.schema);
    match FirstMatch(s.parents, p => ParentMatches(schema, p, fecha, businessId))
    case Some(j) =>
      ParentOutcome(s.(schema := schema), s.parents[j].id)
    case None =>
      var p := NewParent(s.nextParentId, schema, fecha, businessId);
      var parents := s.parents + [p];
      assert parents[|s.parents|] == p;
      ParentOutcome(s.(schema := schema, parents := parents, nextParentId := s.nextParentId + 1), s.nextParentId)
  }

  /** Where an exception raised inside `obtener_o_crear_lote_sv_padre` strikes:
      at the catalog query or the `CREATE TABLE` itself, or after the table step,
      when a missing Lote_sv has already been created (DDL commits implicitly). */
  datatype ParentFailure = BeforeTable | AfterTable

  /** The state the get-or-create leaves when it raises: a Lote_sv it created
      before the exception stays, and nothing else changes. */
  function PadreFallido(s: State, failure: ParentFailure): (r: State)
    ensures r.ledger == s.ledger && r.parents == s.parents && r.children == s.children
    ensures r.nextParentId == s.nextParentId && r.nextChildId == s.nextChildId
    ensures r.schema == s.schema || r.schema == WithParentTable(s.schema)
    ensures failure == BeforeTable ==> r == s
    ensures failure == AfterTable ==> r.schema.parentTableExists
    ensures r.schema.ledgerHasLoteId == s.schema.ledgerHasLoteId && r.schema.childTableExists == s.schema.childTableExists
  {
    if failure == AfterTable then s.(schema := WithParentTable(s.schema)) else s
  }

  /** A table created before the exception is empty, so the state stays valid. */
  lemma PadreFallidoValido(s: State, failure: ParentFailure)
    requires ValidState(s)
    ensures ValidState(PadreFallido(s, failure))
  {
  }

  /** `obtener_o_crear_lote_sv_padre`. `fault` stands for an exception raised by
      the database, which the function turns into `None`. */
  method ObtenerOCrearLoteSvPadre(db: Db, fecha: Date, businessId: string, fault: Option<ParentFailure>) returns (id: Option<nat>)
    requires db.Valid()
    modifies db`schema, db`parents, db`nextParentId
    ensures db.Valid()
    ensures fault.Some? ==> id.None? && db.Snapshot() == PadreFallido(old(db.Snapshot()), fault.value)
    ensures fault.None? ==> id == Some(ObtenerPadre(old(db.Snapshot()), fecha, businessId).id)
    ensures fault.None? ==> db.Snapshot() == ObtenerPadre(old(db.Snapshot()), fecha, businessId).s
  {
    ghost var s0 := db.Snapshot();
    PadreFallidoValido(s0, AfterTable);
    if fault == Some(BeforeTable) {
      return None;
    }
    if !db.schema.parentTableExists {
      db.schema := WithParentTable(db.schema);
    }
    if fault.Some? {
      return None;
    }
    var schema := db.schema;
    var found := FirstMatch(db.parents, p => ParentMatches(schema, p, fecha, businessId));
    if found.Some? {
      return Some(db.parents[found.value].id);
    }
    var nuevo := db.nextParentId;
    db.parents := db.parents + [NewParent(nuevo, schema, fecha, businessId)];
    db.nextParentId := db.nextParentId + 1;
    return Some(nuevo);
  }

  // ---------------------------------------------------------------------------
  // Roll-up of the children's totals into their parents.

  /** `SELECT DISTINCT lote_sv_id FROM Lote_sv_business`, in order of first appearance. */
  function ParentIds(children: seq<Child>): (ids: seq<nat>)
    ensures forall x :: x in ids <==> exists j :: 0 <= j < |children| && children[j].loteSvId == x
    ensures forall i, j :: 0 <= i < j < |ids| ==> ids[i] != ids[j]
  {
    if children == [] then []
    else
      var pre := children[..|children| - 1];
      var c := children[|children| - 1];
      var ids := ParentIds(pre);
      assert forall j :: 0 <= j < |pre| ==> pre[j] == children[j];
      if c.loteSvId in ids then ids else ids + [c.loteSvId]
  }

  /** The children of parent `pid` (`WHERE lote_sv_id = pid`), in table order. */
  function ChildrenOf(children: seq<Child>, pid: nat): (kids: seq<Child>)
    ensures forall c :: c in kids <==> c in children && c.loteSvId == pid
  {
    if children == [] then []
    else
      var pre := children[..|children| - 1];
      var c := children[|children| - 1];
      assert children == pre + [c];
      ChildrenOf(pre, pid) + (if c.loteSvId == pid then [c] else [])
  }

  /** `COUNT(DISTINCT business_id)`. */
  function BusinessIds(kids: seq<Child>): set<string>
  {
    set c | c in kids :: c.businessId
  }

  /** `SUM(total_transacciones)`, 0 when there is no child. */
  function SumTransacciones(kids: seq<Child>): int
  {
    if kids == [] then 0
    else SumTransacciones(kids[..|kids| - 1]) + kids[|kids| - 1].totalTransacciones
  }

  function ChildTotal(c: Child, m: Measure): Cents
  {
    if m in c.totals then c.totals[m] else 0
  }

  /** `SUM(total_<m>)`, 0 when there is no child. */
  function SumTotal(kids: seq<Child>, m: Measure): Cents
  {
    if kids == [] then 0
    else SumTotal(kids[..|kids| - 1], m) + ChildTotal(kids[|kids| - 1], m)
  }

  /** The non-null `iva_porc` values that `AVG(iva_porc)` averages. */
  function IvaParts(kids: seq<Child>): seq<Rate>
  {
    if kids == [] then []
    else
      var c := kids[|kids| - 1];
      IvaParts(kids[..|kids| - 1]) + (if c.ivaPorc.Some? then [c.ivaPorc.value] else [])
  }

  /** The aggregate row the roll-up reads for one parent. */
  datatype Totales = Totales(comercios: nat, transacciones: int, money: map<Measure, Cents>, ivaPorc: Option<Rate>)

  function TotalesDe(kids: seq<Child>): Totales
  {
    Totales(|BusinessIds(kids)|, SumTransacciones(kids),
            map m | m in AllMeasures :: SumTotal(kids, m), Avg(IvaParts(kids)))
  }

  /** The integer and money columns the roll-up writes: those the table has,
      with the deposit going to `total_monto_deposito` when present and to
      `total_deposito` only otherwise. */
  predicate Written(cols: set<ParentColumn>, c: ParentColumn)
  {
    c in cols && c != IvaPorc && (c == Total(Deposito) ==> TotalMontoDeposito !in cols)
  }

  /** The value the roll-up writes into column `c`. */
  function ValueFor(c: ParentColumn, t: Totales): int
  {
    match c
    case TotalComercios => t.comercios
    case TotalTransacciones => t.transacciones
    case Total(m) => if m in t.money then t.money[m] else 0
    case TotalMontoDeposito => if Deposito in t.money then t.money[Deposito] else 0
    case IvaPorc => 0
  }

  /** The `SET` list built in `campos_update` / `valores_update`. */
  function CamposUpdate(cols: set<ParentColumn>, t: Totales): map<ParentColumn, int>
  {
    map c | c in cols && Written(cols, c) :: ValueFor(c, t)
  }

  /** One parent row after its `UPDATE Lote_sv SET ...`; `iva_porc` is written only
      when the column exists and the average is not NULL. */
  function ApplyTotales(p: Parent, cols: set<ParentColumn>, t: Totales): Parent
  {
    p.(values := p.values + CamposUpdate(cols, t),
       ivaPorc := if IvaPorc in cols && t.ivaPorc.Some? then t.ivaPorc else p.ivaPorc)
  }

  /** `UPDATE Lote_sv SET ... WHERE id = pid`. */
  function UpdateParent(parents: seq<Parent>, pid: nat, cols: set<ParentColumn>, t: Totales): (r: seq<Parent>)
    ensures |r| == |parents|
  {
    seq(|parents|, j requires 0 <= j < |parents| =>
      if parents[j].id == pid then ApplyTotales(parents[j], cols, t) else parents[j])
  }

  /** The parents after the roll-up has updated those whose id is in `done`. */
  function RollUp(parents: seq<Parent>, children: seq<Child>, cols: set<ParentColumn>, done: set<nat>): (r: seq<Parent>)
    ensures |r| == |parents|
  {
    seq(|parents|, j requires 0 <= j < |parents| =>
      if parents[j].id in done
      then ApplyTotales(parents[j], cols, TotalesDe(ChildrenOf(children, parents[j].id)))
      else parents[j])
  }

  /** How many parent ids the roll-up gets through: all of them, or those before
      the one whose processing raises. */
  function Stop(n: nat, failsAt: Option<nat>): (k: nat)
    ensures k <= n
  {
    if failsAt.Some? && failsAt.value < n then failsAt.value else n
  }

  function Prefix(ids: seq<nat>, k: nat): set<nat>
    requires k <= |ids|
  {
    set i | 0 <= i < k :: ids[i]
  }

  /** The state after `actualizar_totales_lote_sv_padre`; `failsAt` is the position
      of the parent id whose processing raises, if one does. */
  function RollUpState(s: State, failsAt: Option<nat>): State
  {
    var ids := ParentIds(s.children);
    s.(parents := RollUp(s.parents, s.children, s.schema.parentColumns, Prefix(ids, Stop(|ids|, failsAt))))
  }

  /** `actualizar_totales_lote_sv_padre`. */
  method ActualizarTotalesLoteSvPadre(db: Db, failsAt: Option<nat>)
    requires db.Valid()
    modifies db`parents
    ensures db.Valid()
    ensures db.Snapshot() == RollUpState(old(db.Snapshot()), failsAt)
  {
    var ids := ParentIds(db.children);
    ghost var p0 := db.parents;
    if |ids| == 0 {
      assert Prefix(ids, 0) == {};
      assert db.parents == RollUp(p0, db.children, db.schema.parentColumns, {});
      return;
    }
    var stop := Stop(|ids|, failsAt);
    var cols := db.schema.parentColumns;
    var i := 0;
    assert Prefix(ids, 0) == {};
    while i < stop
      invariant 0 <= i <= stop
      invariant db.parents == RollUp(p0, db.children, cols, Prefix(ids, i))
    {
      var pid := ids[i];
      var totales := TotalesDe(ChildrenOf(db.children, pid));
      ghost var before := db.parents;
      db.parents := UpdateParent(db.parents, pid, cols, totales);
      assert Prefix(ids, i + 1) == Prefix(ids, i) + {pid};
      assert pid !in Prefix(ids, i);
      assert db.parents == RollUp(p0, db.children, cols, Prefix(ids, i + 1));
      i := i + 1;
    }
  }
}
