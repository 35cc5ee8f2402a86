/** `crear_lotes_por_business_id` and its column guard: group the unbatched
    ledger rows, get or create one child batch per group under its parent, stamp
    the child's id onto the rows, then roll the totals up into the parents. */
module CrearLotes {
  import opened Base
  import opened Tablas
  import opened Agrupacion
  import opened LotesPadre

  // ---------------------------------------------------------------------------
  // Column guard.

  datatype GuardOutcome = GuardOutcome(s: State, ok: bool)

  /** `verificar_y_agregar_columna_lote_id`; `fails` stands for an exception raised
      by the catalog query or by the `ALTER TABLE`. */
  function GuardSpec(s: State, fails: bool): (r: GuardOutcome)
    ensures r.ok <==> !fails
    ensures r.ok ==> r.s.schema.ledgerHasLoteId
    ensures r.s.ledger == s.ledger && r.s.parents == s.parents && r.s.children == s.children
    ensures r.s.nextParentId == s.nextParentId && r.s.nextChildId == s.nextChildId
    ensures r.s.schema == s.schema || r.s.schema == s.schema.(ledgerHasLoteId := true)
    ensures !r.ok || s.schema.ledgerHasLoteId ==> r.s == s
    ensures ValidState(s) ==> ValidState(r.s)
  {
    if fails then GuardOutcome(s, false)
    else if s.schema.ledgerHasLoteId then GuardOutcome(s, true)
    else GuardOutcome(s.(schema := s.schema.(ledgerHasLoteId := true)), true)
  }

  method VerificarYAgregarColumnaLoteId(db: Db, fails: bool) returns (ok: bool)
    requires db.Valid()
    modifies db`schema
    ensures db.Valid()
    ensures GuardOutcome(db.Snapshot(), ok) == GuardSpec(old(db.Snapshot()), fails)
  {
    if fails {
      return false;
    }
    if !db.schema.ledgerHasLoteId {
      db.schema := db.schema.(ledgerHasLoteId := true);
    }
    return true;
  }

  // ---------------------------------------------------------------------------
  // Child batches and stamping.

  /** `UPDATE LiquidacionesSV SET lote_id = id WHERE business_id = .. AND
      DATE(FECHA_TRAN) = .. AND lote_id IS NULL`. */
  function Stamp(rows: seq<Row>, k: Key, id: nat): (r: seq<Row>)
    ensures |r| == |rows|
  {
    seq(|rows|, i requires 0 <= i < |rows| =>
      if InGroup(rows[i], k) then rows[i].(loteId := Some(id)) else rows[i])
  }

  /** The lookup of an existing child batch for the group under parent `pid`. */
  predicate ChildMatches(c: Child, k: Key, pid: nat)
  {
    c.businessId == k.businessId && c.fechaLote == k.fecha && c.loteSvId == pid
  }

  predicate HasChild(children: seq<Child>, k: Key, pid: nat)
  {
    exists j :: 0 <= j < |children| && ChildMatches(children[j], k, pid)
  }

  /** Some child in `children` has id `id` and matches the group key and parent. */
  predicate IsChildFor(children: seq<Child>, id: nat, k: Key, pid: nat)
  {
    exists j :: 0 <= j < |children| && children[j].id == id && ChildMatches(children[j], k, pid)
  }

  /** The row the `INSERT INTO Lote_sv_business` adds: the group's count, sums and
      average, state `pendiente`. */
  function NewChild(id: nat, g: Group, pid: nat): Child
  {
    Child(id, g.key.businessId, pid, g.key.fecha, g.count, g.totals, g.ivaPorc, Pendiente)
  }

  datatype ChildOutcome = ChildOutcome(s: State, id: nat, created: nat)

  /** Get-or-create of the child batch for group `g` under parent `pid`. */
  function ChildStep(s: State, g: Group, pid: nat): (r: ChildOutcome)
    ensures r.s.ledger == s.ledger && r.s.parents == s.parents && r.s.schema == s.schema
    ensures r.s.nextParentId == s.nextParentId
    ensures IsChildFor(r.s.children, r.id, g.key, pid)
    ensures HasChild(s.children, g.key, pid) ==> r.s == s && r.created == 0
    ensures !HasChild(s.children, g.key, pid) ==>
              && r.created == 1 && r.id == s.nextChildId
              && r.s.children == s.children + [NewChild(r.id, g, pid)]
              && r.s.nextChildId == s.nextChildId + 1
    ensures ValidState(s) && s.schema.childTableExists ==> ValidState(r.s)
  {
    match FirstMatch(s.children, c => ChildMatches(c, g.key, pid))
    case Some(j) =>
      ChildOutcome(s, s.children[j].id, 0)
    case None =>
      var c := NewChild(s.nextChildId, g, pid);
      var children := s.children + [c];
      assert children[|s.children|] == c;
      ChildOutcome(s.(children := children, nextChildId := s.nextChildId + 1), s.nextChildId, 1)
  }

  // ---------------------------------------------------------------------------
  // The group loop.

  /** Where an exception escapes the group loop: before the child lookup or
      insert of group `group`, or at its stamping `UPDATE`. */
  datatype Abort = NoAbort | BeforeChild(group: nat) | BeforeStamp(group: nat)

  /** The database errors of one call: the column guard fails, the parent
      get-or-create fails for the groups with the keys in `parentFails` (after
      creating a missing Lote_sv for those also in `failsAfterTable`), an exception escapes
      the group loop, the roll-up raises at this parent. */
  datatype Faults = Faults(guardFails: bool, parentFails: set<Key>, failsAfterTable: set<Key>, abort: Abort, rollUpFailsAt: Option<nat>)

  const NoFaults := Faults(false, {}, {}, NoAbort, None)

  /** Where the parent get-or-create of group key `k` raises. */
  function PuntoDeFallo(f: Faults, k: Key): ParentFailure
  {
    if k in f.failsAfterTable then AfterTable else BeforeTable
  }

  datatype Progress = Progress(s: State, created: nat, aborted: bool)

  /** One iteration of the loop over `grupos`, for the group at position `i`. */
  function ProcessGroup(s: State, g: Group, i: nat, f: Faults): Progress
  {
    if g.key in f.parentFails then Progress(PadreFallido(s, PuntoDeFallo(f, g.key)), 0, false)
    else
      var p := ObtenerPadre(s, g.key.fecha, g.key.businessId);
      if p.id == 0 then Progress(p.s, 0, false)
      else if f.abort == BeforeChild(i) then Progress(p.s, 0, true)
      else
        var c := ChildStep(p.s, g, p.id);
        if f.abort == BeforeStamp(i) then Progress(c.s, c.created, true)
        else Progress(c.s.(ledger := Stamp(c.s.ledger, g.key, c.id)), c.created, false)
  }

  /** The loop over `gs`, up to its end or to the exception that escapes it. */
  function ProcessGroups(s: State, gs: seq<Group>, f: Faults): Progress
  {
    if gs == [] then Progress(s, 0, false)
    else
      var p := ProcessGroups(s, gs[..|gs| - 1], f);
      if p.aborted then p
      else
        var q := ProcessGroup(p.s, gs[|gs| - 1], |gs| - 1, f);
        Progress(q.s, p.created + q.created, q.aborted)
  }

  /** The state and the `(ok, lotes_creados)` pair `crear_lotes_por_business_id` returns. */
  datatype Outcome = Outcome(s: State, ok: bool, created: nat)

  function CrearLotesSpec(s: State, f: Faults): Outcome
  {
    var guard := GuardSpec(s, f.guardFails);
    if !guard.ok then Outcome(guard.s, false, 0)
    else if !guard.s.schema.childTableExists then Outcome(guard.s, false, 0)
    else
      var gs := Grupos(guard.s.ledger);
      if gs == [] then Outcome(guard.s, true, 0)
      else
        var p := ProcessGroups(guard.s, gs, f);
        if p.aborted then Outcome(p.s, false, 0)
        else Outcome(RollUpState(p.s, f.rollUpFailsAt), true, p.created)
  }

  /** Once the loop has been aborted, later groups change nothing. */
  lemma {:induction false} AbortIsFinal(s: State, gs: seq<Group>, f: Faults, i: nat)
    requires i <= |gs|
    requires ProcessGroups(s, gs[..i], f).aborted
    ensures ProcessGroups(s, gs, f) == ProcessGroups(s, gs[..i], f)
  {
    if i < |gs| {
      var pre := gs[..|gs| - 1];
      assert pre[..i] == gs[..i];
      AbortIsFinal(s, pre, f, i);
      assert ProcessGroups(s, pre, f).aborted;
    } else {
      assert gs[..i] == gs;
    }
  }

  /** One more group after a loop that was not aborted. */
  lemma ProcessGroupsSnoc(s: State, gs: seq<Group>, g: Group, f: Faults)
    requires !ProcessGroups(s, gs, f).aborted
    ensures var p := ProcessGroups(s, gs, f);
            var q := ProcessGroup(p.s, g, |gs|, f);
            ProcessGroups(s, gs + [g], f) == Progress(q.s, p.created + q.created, q.aborted)
  {
    assert (gs + [g])[..|gs|] == gs;
  }

  /** Stamping rows once the lote_id column exists keeps the database facts. */
  lemma StampValid(s: State, k: Key, id: nat)
    requires ValidState(s) && s.schema.ledgerHasLoteId
    ensures ValidState(s.(ledger := Stamp(s.ledger, k, id)))
  {
    var st := Stamp(s.ledger, k, id);
    assert forall i :: 0 <= i < |st| ==> st[i].qpayTransacId == s.ledger[i].qpayTransacId;
  }

  /** One iteration keeps the database facts and the columns the loop relies on. */
  lemma ProcessGroupValid(s: State, g: Group, i: nat, f: Faults)
    requires ValidState(s) && s.schema.ledgerHasLoteId && s.schema.childTableExists
    ensures var q := ProcessGroup(s, g, i, f).s;
            ValidState(q) && q.schema.ledgerHasLoteId && q.schema.childTableExists
  {
    if g.key in f.parentFails {
      PadreFallidoValido(s, PuntoDeFallo(f, g.key));
    } else {
      var p := ObtenerPadre(s, g.key.fecha, g.key.businessId);
      assert ValidState(p.s) && p.id != 0 && p.s.schema.ledgerHasLoteId && p.s.schema.childTableExists;
      if f.abort == BeforeChild(i) {
        assert ProcessGroup(s, g, i, f) == Progress(p.s, 0, true);
      } else {
        var c := ChildStep(p.s, g, p.id);
        assert ValidState(c.s) && c.s.schema == p.s.schema;
        if f.abort == BeforeStamp(i) {
          assert ProcessGroup(s, g, i, f) == Progress(c.s, c.created, true);
        } else {
          StampValid(c.s, g.key, c.id);
          assert ProcessGroup(s, g, i, f) == Progress(c.s.(ledger := Stamp(c.s.ledger, g.key, c.id)), c.created, false);
        }
      }
    }
  }

  /** The child get-or-create of the loop body. */
  method ObtenerOCrearLoteBusiness(db: Db, g: Group, pid: nat) returns (hijo: nat, creado: nat)
    requires db.Valid() && db.schema.childTableExists
    modifies db`children, db`nextChildId
    ensures db.Valid()
    ensures ChildOutcome(db.Snapshot(), hijo, creado) == ChildStep(old(db.Snapshot()), g, pid)
  {
    var found := FirstMatch(db.children, c => ChildMatches(c, g.key, pid));
    if found.Some? {
      return db.children[found.value].id, 0;
    }
    hijo := db.nextChildId;
    db.children := db.children + [NewChild(hijo, g, pid)];
    db.nextChildId := db.nextChildId + 1;
    creado := 1;
  }

  /** The body of the loop over `grupos`, for the group at position `i`. */
  method ProcesarGrupo(db: Db, g: Group, i: nat, f: Faults) returns (creado: nat, abortado: bool)
    requires db.Valid() && db.schema.ledgerHasLoteId && db.schema.childTableExists
    modifies db`schema, db`ledger, db`parents, db`children, db`nextParentId, db`nextChildId
    ensures db.Valid() && db.schema.ledgerHasLoteId && db.schema.childTableExists
    ensures Progress(db.Snapshot(), creado, abortado) == ProcessGroup(old(db.Snapshot()), g, i, f)
  {
    ghost var s0 := db.Snapshot();
    ProcessGroupValid(s0, g, i, f);
    var fallo := if g.key in f.parentFails then Some(PuntoDeFallo(f, g.key)) else None;
    var padre := ObtenerOCrearLoteSvPadre(db, g.key.fecha, g.key.businessId, fallo);
    if padre.None? {
      assert g.key in f.parentFails && db.Snapshot() == PadreFallido(s0, PuntoDeFallo(f, g.key));
      return 0, false;
    }
    ghost var p := ObtenerPadre(s0, g.key.fecha, g.key.businessId);
    assert g.key !in f.parentFails;
    assert db.Snapshot() == p.s && padre.value == p.id && p.id >= 1;
    var pid := padre.value;
    if f.abort == BeforeChild(i) {
      assert ProcessGroup(s0, g, i, f) == Progress(p.s, 0, true);
      return 0, true;
    }
    var hijo;
    hijo, creado := ObtenerOCrearLoteBusiness(db, g, pid);
    ghost var c := ChildStep(p.s, g, pid);
    assert db.Snapshot() == c.s && hijo == c.id && creado == c.created;
    if f.abort == BeforeStamp(i) {
      assert ProcessGroup(s0, g, i, f) == Progress(c.s, c.created, true);
      return creado, true;
    }
    assert ProcessGroup(s0, g, i, f) == Progress(c.s.(ledger := Stamp(c.s.ledger, g.key, c.id)), c.created, false);
    db.ledger := Stamp(db.ledger, g.key, hijo);
    abortado := false;
  }

  /** One pass of the loop over `grupos`: the group `g` at position `i`,
      after the groups `hechos` before it have been processed without an
      exception escaping. */
  method SiguienteGrupo(db: Db, g: Group, i: nat, f: Faults, ghost s1: State, ghost hechos: seq<Group>, creados: nat)
    returns (total: nat, abortado: bool)
    requires i == |hechos|
    requires db.Valid() && db.schema.ledgerHasLoteId && db.schema.childTableExists
    requires ProcessGroups(s1, hechos, f) == Progress(db.Snapshot(), creados, false)
    modifies db`schema, db`ledger, db`parents, db`children, db`nextParentId, db`nextChildId
    ensures db.Valid() && db.schema.ledgerHasLoteId && db.schema.childTableExists
    ensures ProcessGroups(s1, hechos + [g], f) == Progress(db.Snapshot(), total, abortado)
  {
    ProcessGroupsSnoc(s1, hechos, g, f);
    var creado;
    creado, abortado := ProcesarGrupo(db, g, i, f);
    total := creados + creado;
  }

  /** The loop over `grupos`, up to its end or to the exception that escapes it. */
  method ProcesarGrupos(db: Db, grupos: seq<Group>, f: Faults) returns (creados: nat, abortado: bool)
    requires db.Valid() && db.schema.ledgerHasLoteId && db.schema.childTableExists
    modifies db`schema, db`ledger, db`parents, db`children, db`nextParentId, db`nextChildId
    ensures db.Valid() && db.schema.ledgerHasLoteId && db.schema.childTableExists
    ensures Progress(db.Snapshot(), creados, abortado) == ProcessGroups(old(db.Snapshot()), grupos, f)
  {
    ghost var s1 := db.Snapshot();
    creados := 0;
    var i := 0;
    ghost var hechos: seq<Group> := [];
    while i < |grupos|
      invariant 0 <= i <= |grupos| && hechos == grupos[..i]
      invariant db.Valid() && db.schema.ledgerHasLoteId && db.schema.childTableExists
      invariant ProcessGroups(s1, hechos, f) == Progress(db.Snapshot(), creados, false)
    {
      creados, abortado := SiguienteGrupo(db, grupos[i], i, f, s1, hechos, creados);
      hechos := hechos + [grupos[i]];
      if abortado {
        assert hechos == grupos[..i + 1];
        AbortIsFinal(s1, grupos, f, i + 1);
        return;
      }
      i := i + 1;
    }
    assert hechos == grupos;
    abortado := false;
  }

  /** `crear_lotes_por_business_id`. The exceptions it may meet are given by `f`. */
  method CrearLotesPorBusinessId(db: Db, f: Faults) returns (ok: bool, creados: nat)
    requires db.Valid()
    modifies db`schema, db`ledger, db`parents, db`children, db`nextParentId, db`nextChildId
    ensures db.Valid()
    ensures Outcome(db.Snapshot(), ok, creados) == CrearLotesSpec(old(db.Snapshot()), f)
  {
    ghost var s0 := db.Snapshot();
    var guardOk := VerificarYAgregarColumnaLoteId(db, f.guardFails);
    ghost var guard := GuardSpec(s0, f.guardFails);
    assert db.Snapshot() == guard.s && guardOk == guard.ok;
    if !guardOk {
      return false, 0;
    }
    if !db.schema.childTableExists {
      return false, 0;
    }
    var grupos := Grupos(db.ledger);
    if |grupos| == 0 {
      return true, 0;
    }
    var abortado;
    creados, abortado := ProcesarGrupos(db, grupos, f);
    if abortado {
      return false, 0;
    }
    ActualizarTotalesLoteSvPadre(db, f.rollUpFailsAt);
    ok := true;
  }
}
