/** Properties of the parent batches: the get-or-create returns the same batch
    when asked twice, and the roll-up writes into each parent the totals of its
    own children, leaves childless parents alone, and can be repeated. */
module LotesPadrePropiedades {
  import opened Base
  import opened Tablas
  import opened LotesPadre
  import opened CrearLotes

  /** Some child batch hangs from parent `pid`. */
  predicate HasChildren(children: seq<Child>, pid: nat)
  {
    exists j :: 0 <= j < |children| && children[j].loteSvId == pid
  }

  /** Asking twice for the parent of the same (fecha, business id) returns the
      same id and changes nothing the second time. */
  lemma ObtenerPadreIdempotente(s: State, fecha: Date, businessId: string)
    ensures var r1 := ObtenerPadre(s, fecha, businessId);
            ObtenerPadre(r1.s, fecha, businessId) == r1
  {
    var r1 := ObtenerPadre(s, fecha, businessId);
    var schema := WithParentTable(s.schema);
    assert WithParentTable(r1.s.schema) == schema;
    var m1 := FirstMatch(s.parents, p => ParentMatches(schema, p, fecha, businessId));
    var m2 := FirstMatch(r1.s.parents, p => ParentMatches(schema, p, fecha, businessId));
    if m1.Some? {
      assert m2.Some? && m2.value <= m1.value;
    } else {
      var n := |s.parents|;
      assert r1.s.parents[n] == NewParent(s.nextParentId, schema, fecha, businessId);
      assert ParentMatches(schema, r1.s.parents[n], fecha, businessId);
      assert m2.Some? && m2.value <= n;
      assert forall j :: 0 <= j < n ==> r1.s.parents[j] == s.parents[j];
    }
  }

  /** Asking twice for the child of the same group under the same parent
      returns the same id, and the second time creates nothing. */
  lemma ChildStepIdempotente(s: State, g: Agrupacion.Group, pid: nat)
    ensures var c1 := ChildStep(s, g, pid);
            ChildStep(c1.s, g, pid) == ChildOutcome(c1.s, c1.id, 0)
  {
    var c1 := ChildStep(s, g, pid);
    var m1 := FirstMatch(s.children, c => ChildMatches(c, g.key, pid));
    var m2 := FirstMatch(c1.s.children, c => ChildMatches(c, g.key, pid));
    if m1.Some? {
      assert m2.Some? && m2.value <= m1.value;
    } else {
      var n := |s.children|;
      assert c1.s.children[n] == NewChild(s.nextChildId, g, pid);
      assert m2.Some? && m2.value <= n;
      assert forall j :: 0 <= j < n ==> c1.s.children[j] == s.children[j];
    }
  }

  /** Every parent id the roll-up visits is in `Prefix(ids, |ids|)`. */
  lemma PrefixAll(ids: seq<nat>, x: nat)
    ensures x in Prefix(ids, |ids|) <==> x in ids
  {
    if x in ids {
      var i :| 0 <= i < |ids| && ids[i] == x;
      assert ids[i] in Prefix(ids, |ids|);
    }
  }

  /** A roll-up that raises nothing writes into every parent that has children
      the totals of exactly its children, and leaves every other parent as it was. */
  lemma RollUpCompleto(s: State)
    ensures var t := RollUpState(s, None);
            && t.children == s.children && t.ledger == s.ledger && |t.parents| == |s.parents|
            && forall j :: 0 <= j < |s.parents| ==>
                 t.parents[j] == (if HasChildren(s.children, s.parents[j].id)
                                  then ApplyTotales(s.parents[j], s.schema.parentColumns,
                                                    TotalesDe(ChildrenOf(s.children, s.parents[j].id)))
                                  else s.parents[j])
  {
    var ids := ParentIds(s.children);
    forall j | 0 <= j < |s.parents|
      ensures s.parents[j].id in Prefix(ids, |ids|) <==> HasChildren(s.children, s.parents[j].id)
    {
      PrefixAll(ids, s.parents[j].id);
    }
  }

  /** A roll-up that raises at the parent id in position `n` has updated the
      parents of the ids before it and left those of the ids from it on as they were. */
  lemma RollUpParcial(s: State, n: nat)
    requires n < |ParentIds(s.children)|
    ensures var ids := ParentIds(s.children);
            var t := RollUpState(s, Some(n));
            forall j :: 0 <= j < |s.parents| ==>
              && (forall k :: 0 <= k < n && ids[k] == s.parents[j].id ==>
                    t.parents[j] == ApplyTotales(s.parents[j], s.schema.parentColumns,
                                                 TotalesDe(ChildrenOf(s.children, s.parents[j].id))))
              && (forall k :: n <= k < |ids| && ids[k] == s.parents[j].id ==> t.parents[j] == s.parents[j])
  {
    var ids := ParentIds(s.children);
    forall j, k | 0 <= j < |s.parents| && 0 <= k < n && ids[k] == s.parents[j].id
      ensures s.parents[j].id in Prefix(ids, n)
    {
      assert ids[k] in Prefix(ids, n);
    }
    forall j, k | 0 <= j < |s.parents| && n <= k < |ids| && ids[k] == s.parents[j].id
      ensures s.parents[j].id !in Prefix(ids, n)
    {
    }
  }

  /** Writing the same totals twice is writing them once. */
  lemma ApplyTotalesIdempotente(p: Parent, cols: set<ParentColumn>, t: Totales)
    ensures ApplyTotales(ApplyTotales(p, cols, t), cols, t) == ApplyTotales(p, cols, t)
  {
    var u := CamposUpdate(cols, t);
    assert (p.values + u) + u == p.values + u;
  }

  /** Running the roll-up twice gives the same parents as running it once. */
  lemma RollUpIdempotente(s: State)
    ensures RollUpState(RollUpState(s, None), None) == RollUpState(s, None)
  {
    var t := RollUpState(s, None);
    var t2 := RollUpState(t, None);
    var ids := ParentIds(s.children);
    var done := Prefix(ids, Stop(|ids|, None));
    var cols := s.schema.parentColumns;
    forall j | 0 <= j < |s.parents|
      ensures t2.parents[j] == t.parents[j]
    {
      var kids := ChildrenOf(s.children, s.parents[j].id);
      if s.parents[j].id in done {
        ApplyTotalesIdempotente(s.parents[j], cols, TotalesDe(kids));
      }
    }
  }

  /** `COUNT(DISTINCT business_id)` over a non-empty set of children is between
      one and their number. */
  lemma {:induction false} ComerciosAcotado(kids: seq<Child>)
    requires kids != []
    ensures 1 <= TotalesDe(kids).comercios <= |kids|
  {
    BusinessIdsBound(kids);
    assert kids[0].businessId in BusinessIds(kids);
  }

  lemma {:induction false} BusinessIdsBound(kids: seq<Child>)
    ensures |BusinessIds(kids)| <= |kids|
  {
    if kids != [] {
      var pre := kids[..|kids| - 1];
      var c := kids[|kids| - 1];
      assert kids == pre + [c];
      assert BusinessIds(kids) == BusinessIds(pre) + {c.businessId};
      BusinessIdsBound(pre);
    }
  }

  /** The columns one parent's `UPDATE` writes: every total column the table has
      gets its total, the deposit goes to `total_monto_deposito` when the table
      has it (and `total_deposito` then keeps its value), columns the table does
      not have keep theirs, and `iva_porc` is written only with a non-NULL average. */
  lemma ColumnasEscritas(p: Parent, cols: set<ParentColumn>, t: Totales)
    ensures var r := ApplyTotales(p, cols, t);
            && r.id == p.id && r.fechaLote == p.fechaLote && r.businessId == p.businessId && r.estado == p.estado
            && (forall c :: c in cols && c != IvaPorc && c != Total(Deposito) ==> c in r.values && r.values[c] == ValueFor(c, t))
            && (TotalMontoDeposito in cols ==>
                  && (Total(Deposito) in r.values <==> Total(Deposito) in p.values)
                  && (Total(Deposito) in p.values ==> r.values[Total(Deposito)] == p.values[Total(Deposito)]))
            && (Total(Deposito) in cols && TotalMontoDeposito !in cols ==>
                  Total(Deposito) in r.values && r.values[Total(Deposito)] == ValueFor(Total(Deposito), t))
            && (forall c :: c !in cols ==> (c in r.values <==> c in p.values))
            && (forall c :: c !in cols && c in p.values ==> r.values[c] == p.values[c])
            && (IvaPorc in cols && t.ivaPorc.Some? ==> r.ivaPorc == t.ivaPorc)
            && (IvaPorc !in cols || t.ivaPorc.None? ==> r.ivaPorc == p.ivaPorc)
  {
  }

  lemma {:induction false} IvaPartsVacio(kids: seq<Child>)
    ensures IvaParts(kids) == [] <==> forall i :: 0 <= i < |kids| ==> kids[i].ivaPorc.None?
  {
    if kids != [] {
      var pre := kids[..|kids| - 1];
      IvaPartsVacio(pre);
      assert forall i :: 0 <= i < |pre| ==> pre[i] == kids[i];
    }
  }

  /** The children's `AVG(iva_porc)` is NULL exactly when none of them has a value,
      so a parent's iva_porc is left alone only then (or when the column is missing). */
  lemma IvaDelPadre(kids: seq<Child>)
    ensures TotalesDe(kids).ivaPorc.None? <==> forall i :: 0 <= i < |kids| ==> kids[i].ivaPorc.None?
  {
    IvaPartsVacio(kids);
    assert TotalesDe(kids).ivaPorc == Avg(IvaParts(kids));
  }

  /** The roll-up invariant: after a roll-up that raises nothing, every parent
      with children holds in each total column its table has the sum of that
      total over exactly its children (the deposit in `total_monto_deposito`
      when present), and the number of distinct merchants among them. */
  lemma RollUpInvariante(s: State, j: nat)
    requires j < |s.parents| && HasChildren(s.children, s.parents[j].id)
    ensures var p := RollUpState(s, None).parents[j];
            var kids := ChildrenOf(s.children, s.parents[j].id);
            var cols := s.schema.parentColumns;
            && (TotalComercios in cols ==>
                  TotalComercios in p.values && p.values[TotalComercios] == |BusinessIds(kids)|)
            && (TotalTransacciones in cols ==>
                  TotalTransacciones in p.values && p.values[TotalTransacciones] == SumTransacciones(kids))
            && (forall m :: Total(m) in cols && m != Deposito ==>
                  Total(m) in p.values && p.values[Total(m)] == SumTotal(kids, m))
            && (TotalMontoDeposito in cols ==>
                  TotalMontoDeposito in p.values && p.values[TotalMontoDeposito] == SumTotal(kids, Deposito))
            && (Total(Deposito) in cols && TotalMontoDeposito !in cols ==>
                  Total(Deposito) in p.values && p.values[Total(Deposito)] == SumTotal(kids, Deposito))
  {
    RollUpDelPadre(s, j);
    TotalesEscritos(s.parents[j], s.schema.parentColumns, ChildrenOf(s.children, s.parents[j].id));
  }

  /** The total columns one parent's `UPDATE` leaves, in terms of its children. */
  lemma TotalesEscritos(p: Parent, cols: set<ParentColumn>, kids: seq<Child>)
    ensures var r := ApplyTotales(p, cols, TotalesDe(kids));
            && (TotalComercios in cols ==>
                  TotalComercios in r.values && r.values[TotalComercios] == |BusinessIds(kids)|)
            && (TotalTransacciones in cols ==>
                  TotalTransacciones in r.values && r.values[TotalTransacciones] == SumTransacciones(kids))
            && (forall m :: Total(m) in cols && m != Deposito ==>
                  Total(m) in r.values && r.values[Total(m)] == SumTotal(kids, m))
            && (TotalMontoDeposito in cols ==>
                  TotalMontoDeposito in r.values && r.values[TotalMontoDeposito] == SumTotal(kids, Deposito))
            && (Total(Deposito) in cols && TotalMontoDeposito !in cols ==>
                  Total(Deposito) in r.values && r.values[Total(Deposito)] == SumTotal(kids, Deposito))
  {
    ColumnasEscritas(p, cols, TotalesDe(kids));
    TotalesMoney(kids);
  }

  /** The roll-up of one parent that has children. */
  lemma RollUpDelPadre(s: State, j: nat)
    requires j < |s.parents| && HasChildren(s.children, s.parents[j].id)
    ensures RollUpState(s, None).parents[j] ==
            ApplyTotales(s.parents[j], s.schema.parentColumns, TotalesDe(ChildrenOf(s.children, s.parents[j].id)))
  {
    var ids := ParentIds(s.children);
    PrefixAll(ids, s.parents[j].id);
  }

  /** The aggregate row has a sum for every money column. */
  lemma TotalesMoney(kids: seq<Child>)
    ensures forall m :: m in TotalesDe(kids).money && TotalesDe(kids).money[m] == SumTotal(kids, m)
  {
    forall m
      ensures m in TotalesDe(kids).money && TotalesDe(kids).money[m] == SumTotal(kids, m)
    {
      Tablas.AllMeasuresComplete(m);
    }
  }
}
