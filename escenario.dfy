/** A worked run: two ledger rows of merchant B1 on the same day, 100.00 and
    50.00, give one child batch with two transactions and 150.00, one parent
    batch rolled up to the same totals, and both rows stamped with the child. */
module Escenario {
  import opened Base
  import opened Tablas
  import opened Agrupacion
  import opened LotesPadre
  import opened CrearLotes
  import LotesPadrePropiedades

  /** 2024-01-05, as a day number. */
  const Dia: Date := 19727

  const Fila1001 := Row(Some("1001"), Timestamp(Dia, 36000), Some("B1"), None, None, map[MontoTran := 10000], None)
  const Fila1002 := Row(Some("1002"), Timestamp(Dia, 54000), Some("B1"), None, None, map[MontoTran := 5000], None)

  const Columnas: set<ParentColumn> := {TotalComercios, TotalTransacciones, Total(MontoTran)}

  const Inicial := State(Schema(true, true, true, true, true, Columnas), [Fila1001, Fila1002], [], [], 1, 1)

  const Clave := Key("B1", Dia)

  lemma ClavesDelEscenario()
    ensures GroupKeys(Inicial.ledger) == [Clave]
  {
    var rows := Inicial.ledger;
    assert rows[..1] == [Fila1001];
    assert GroupKeys([Fila1001]) == [Clave];
  }

  lemma MiembrosDelEscenario()
    ensures Members(Inicial.ledger, Clave) == [Fila1001, Fila1002]
  {
    var rows := Inicial.ledger;
    assert rows[..1] == [Fila1001];
    assert Members([Fila1001], Clave) == [Fila1001];
  }

  lemma SumaDelEscenario()
    ensures SumOf([Fila1001, Fila1002], MontoTran) == 15000
  {
    assert [Fila1001, Fila1002][..1] == [Fila1001];
    assert SumOf([Fila1001], MontoTran) == 10000;
  }

  /** The grouping query yields one group (B1, 2024-01-05) of two rows totalling 150.00. */
  lemma GrupoDelEscenario()
    ensures var gs := Grupos(Inicial.ledger);
            && |gs| == 1 && gs[0].key == Clave && gs[0].count == 2
            && MontoTran in gs[0].totals && gs[0].totals[MontoTran] == 15000
  {
    var rows := Inicial.ledger;
    GruposUnfold(rows);
    ClavesDelEscenario();
    MiembrosDelEscenario();
    SumaDelEscenario();
    var g := GroupOf(rows, Clave);
    assert g.count == 2;
    assert MontoTran in AllMeasures;
    assert g.totals[MontoTran] == 15000;
  }

  const Padre := NewParent(1, Inicial.schema, Dia, "B1")

  /** The state once the parent batch exists. */
  const ConPadre := Inicial.(parents := [Padre], nextParentId := 2)

  /** The state once the child batch of group `g` exists and the rows are stamped. */
  function TrasElBucle(g: Group): State
  {
    ConPadre.(ledger := Stamp(Inicial.ledger, g.key, 1), children := [NewChild(1, g, 1)], nextChildId := 2)
  }

  lemma PadreDelEscenario()
    ensures ObtenerPadre(Inicial, Dia, "B1") == ParentOutcome(ConPadre, 1)
  {
    assert !HasParent(Inicial, Dia, "B1");
  }

  lemma HijoDelEscenario(g: Group)
    ensures ChildStep(ConPadre, g, 1) == ChildOutcome(ConPadre.(children := [NewChild(1, g, 1)], nextChildId := 2), 1, 1)
  {
    assert !HasChild(ConPadre.children, g.key, 1);
  }

  /** The loop over the single group creates the parent and the child and stamps the rows. */
  lemma BucleDelEscenario()
    ensures var g := Grupos(Inicial.ledger)[0];
            ProcessGroups(Inicial, Grupos(Inicial.ledger), NoFaults) == Progress(TrasElBucle(g), 1, false)
  {
    GrupoDelEscenario();
    var gs := Grupos(Inicial.ledger);
    var g := gs[0];
    PadreDelEscenario();
    HijoDelEscenario(g);
    assert gs[..0] == [];
  }

  /** Both rows get the child's id. */
  lemma SelloDelEscenario()
    ensures var st := Stamp(Inicial.ledger, Clave, 1);
            |st| == 2 && st[0].loteId == Some(1) && st[1].loteId == Some(1)
  {
  }

  /** The roll-up writes the child's totals into the parent. */
  lemma TotalesDelEscenario(g: Group)
    requires g.key == Clave && g.count == 2 && MontoTran in g.totals && g.totals[MontoTran] == 15000
    ensures var p := RollUpState(TrasElBucle(g), None).parents;
            && |p| == 1 && p[0].fechaLote == Dia
            && TotalTransacciones in p[0].values && p[0].values[TotalTransacciones] == 2
            && Total(MontoTran) in p[0].values && p[0].values[Total(MontoTran)] == 15000
            && TotalComercios in p[0].values && p[0].values[TotalComercios] == 1
  {
    var st := TrasElBucle(g);
    var kids := st.children;
    assert kids[0].loteSvId == st.parents[0].id;
    assert ChildrenOf(kids, 1) == kids;
    assert BusinessIds(kids) == {"B1"};
    assert SumTransacciones(kids) == 2;
    assert SumTotal(kids, MontoTran) == 15000;
    LotesPadrePropiedades.RollUpInvariante(st, 0);
  }

  /** The whole call: success, one batch created, the child and the parent carry
      two transactions and 150.00, one merchant, and both rows point to the child. */
  lemma EscenarioDosFilas()
    ensures var r := CrearLotesSpec(Inicial, NoFaults);
            && r.ok && r.created == 1
            && |r.s.children| == 1
            && r.s.children[0].businessId == "B1" && r.s.children[0].fechaLote == Dia
            && r.s.children[0].totalTransacciones == 2
            && MontoTran in r.s.children[0].totals && r.s.children[0].totals[MontoTran] == 15000
            && |r.s.parents| == 1 && r.s.parents[0].fechaLote == Dia
            && TotalTransacciones in r.s.parents[0].values && r.s.parents[0].values[TotalTransacciones] == 2
            && Total(MontoTran) in r.s.parents[0].values && r.s.parents[0].values[Total(MontoTran)] == 15000
            && TotalComercios in r.s.parents[0].values && r.s.parents[0].values[TotalComercios] == 1
            && |r.s.ledger| == 2 && r.s.ledger[0].loteId == Some(1) && r.s.ledger[1].loteId == Some(1)
  {
    GrupoDelEscenario();
    var g := Grupos(Inicial.ledger)[0];
    BucleDelEscenario();
    SelloDelEscenario();
    TotalesDelEscenario(g);
    assert CrearLotesSpec(Inicial, NoFaults) == Outcome(RollUpState(TrasElBucle(g), None), true, 1);
  }
}
