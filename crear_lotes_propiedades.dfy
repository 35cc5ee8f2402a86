/** What a run of `crear_lotes_por_business_id` does to the ledger and to the
    child batches: only unbatched rows get a lote_id, the lote_id they get names
    a child batch of their merchant and day, no group is left unbatched after a
    successful run, no (merchant, day, parent) gets two children, and a second
    run creates nothing. */
module CrearLotesPropiedades {
  import opened Base
  import opened Tablas
  import opened Agrupacion
  import opened LotesPadre
  import opened CrearLotes

  /** The states the group loop runs in: the guard has added lote_id and the
      child table exists. */
  predicate Ready(s: State)
  {
    ValidState(s) && s.schema.ledgerHasLoteId && s.schema.childTableExists
  }

  /** `children` holds a batch with id `id` for merchant and day `k`. */
  predicate ChildOf(children: seq<Child>, id: nat, k: Key)
  {
    exists j :: 0 <= j < |children| && children[j].id == id
                && children[j].businessId == k.businessId && children[j].fechaLote == k.fecha
  }

  /** A ledger row after a run: unchanged, or an unbatched row of a key whose
      parent lookup did not fail that got only its lote_id set, to a child batch
      of its own merchant and day. */
  predicate RowOutcome(before: Row, after: Row, children: seq<Child>, f: Faults)
  {
    || after == before
    || (&& Eligible(before) && KeyOf(before) !in f.parentFails
        && after.loteId.Some? && after == before.(loteId := after.loteId)
        && ChildOf(children, after.loteId.value, KeyOf(before)))
  }

  predicate RowsOutcome(before: seq<Row>, after: seq<Row>, children: seq<Child>, f: Faults)
  {
    |after| == |before| && forall r :: 0 <= r < |before| ==> RowOutcome(before[r], after[r], children, f)
  }

  /** No two child batches share merchant, day and parent. */
  predicate UniqueChildren(cs: seq<Child>)
  {
    forall a, b :: 0 <= a < b < |cs| ==>
      !(cs[a].businessId == cs[b].businessId && cs[a].fechaLote == cs[b].fechaLote && cs[a].loteSvId == cs[b].loteSvId)
  }

  /** The row still waits for a batch although the loop had a group for its key
      and that group's parent lookup did not fail. */
  predicate Pending(row: Row, gs: seq<Group>, f: Faults)
  {
    Eligible(row) && KeyOf(row) !in f.parentFails && HasGroup(gs, KeyOf(row))
  }

  predicate NoEligible(rows: seq<Row>)
  {
    forall r :: 0 <= r < |rows| ==> !Eligible(rows[r])
  }

  // ---------------------------------------------------------------------------
  // Helpers.

  lemma ChildOfGrows(c1: seq<Child>, c2: seq<Child>, id: nat, k: Key)
    requires c1 <= c2 && ChildOf(c1, id, k)
    ensures ChildOf(c2, id, k)
  {
    var j :| 0 <= j < |c1| && c1[j].id == id && c1[j].businessId == k.businessId && c1[j].fechaLote == k.fecha;
    assert c2[j] == c1[j];
  }

  /** Two runs one after the other compose row by row: a row stamped by the first
      is no longer eligible, so the second leaves it alone. */
  lemma RowOutcomeTrans(a: Row, b: Row, c: Row, c1: seq<Child>, c2: seq<Child>, f: Faults)
    requires c1 <= c2
    requires RowOutcome(a, b, c1, f) && RowOutcome(b, c, c2, f)
    ensures RowOutcome(a, c, c2, f)
  {
    if b != a {
      assert !Eligible(b);
      ChildOfGrows(c1, c2, b.loteId.value, KeyOf(a));
    }
  }

  lemma RowsOutcomeTrans(a: seq<Row>, b: seq<Row>, c: seq<Row>, c1: seq<Child>, c2: seq<Child>, f: Faults)
    requires c1 <= c2
    requires RowsOutcome(a, b, c1, f) && RowsOutcome(b, c, c2, f)
    ensures RowsOutcome(a, c, c2, f)
  {
    forall r | 0 <= r < |a|
      ensures RowOutcome(a[r], c[r], c2, f)
    {
      RowOutcomeTrans(a[r], b[r], c[r], c1, c2, f);
    }
  }

  lemma RowsOutcomeSame(rows: seq<Row>, children: seq<Child>, f: Faults)
    ensures RowsOutcome(rows, rows, children, f)
  {
  }

  /** The parent get-or-create keeps the loop's precondition. */
  lemma ObtenerPadreReady(s: State, fecha: Date, businessId: string)
    requires Ready(s)
    ensures Ready(ObtenerPadre(s, fecha, businessId).s)
    ensures ObtenerPadre(s, fecha, businessId).id >= 1
  {
  }

  /** The stamping `UPDATE` keeps the state valid and sets the lote_id of exactly
      the group's rows. */
  lemma StampFacts(s: State, g: Group, pid: nat, c: ChildOutcome)
    requires Ready(s) && c == ChildStep(s, g, pid)
    ensures var t := c.s.(ledger := Stamp(c.s.ledger, g.key, c.id));
            && Ready(t)
            && RowsOutcome(s.ledger, t.ledger, t.children, Faults(false, {}, {}, NoAbort, None))
            && forall r :: 0 <= r < |s.ledger| && InGroup(s.ledger[r], g.key) ==> t.ledger[r].loteId.Some?
  {
    var t := c.s.(ledger := Stamp(c.s.ledger, g.key, c.id));
    var j :| 0 <= j < |c.s.children| && c.s.children[j].id == c.id && ChildMatches(c.s.children[j], g.key, pid);
    forall r | 0 <= r < |s.ledger|
      ensures RowOutcome(s.ledger[r], t.ledger[r], t.children, Faults(false, {}, {}, NoAbort, None))
    {
      if InGroup(s.ledger[r], g.key) {
        assert t.children[j].id == c.id;
      }
    }
  }

  /** A row stamped under no failed key is also a valid outcome for any `f` whose
      failed keys exclude the group. */
  lemma RowsOutcomeFaults(before: seq<Row>, after: seq<Row>, children: seq<Child>, k: Key, f: Faults)
    requires RowsOutcome(before, after, children, Faults(false, {}, {}, NoAbort, None))
    requires k !in f.parentFails
    requires forall r :: 0 <= r < |before| && after[r] != before[r] ==> InGroup(before[r], k)
    ensures RowsOutcome(before, after, children, f)
  {
  }

  /** The child get-or-create only appends, and only a child whose key is new. */
  lemma ChildStepFacts(s: State, g: Group, pid: nat)
    requires Ready(s)
    ensures var c := ChildStep(s, g, pid);
            && Ready(c.s)
            && s.children <= c.s.children
            && |c.s.children| == |s.children| + c.created
            && (UniqueChildren(s.children) ==> UniqueChildren(c.s.children))
  {
    var c := ChildStep(s, g, pid);
    if !HasChild(s.children, g.key, pid) && UniqueChildren(s.children) {
      var cs := c.s.children;
      forall a, b | 0 <= a < b < |cs|
        ensures !(cs[a].businessId == cs[b].businessId && cs[a].fechaLote == cs[b].fechaLote && cs[a].loteSvId == cs[b].loteSvId)
      {
        if b == |s.children| {
          assert cs[a] == s.children[a];
          assert !ChildMatches(s.children[a], g.key, pid);
        } else {
          assert cs[a] == s.children[a] && cs[b] == s.children[b];
        }
      }
    }
  }

  // ---------------------------------------------------------------------------
  // One group, then the whole loop.

  /** One iteration of the loop: the precondition is kept, children are only
      appended (as many as it reports created), rows change only by getting a
      lote_id, and unless an exception escapes or the parent lookup fails the
      group's rows are all batched. */
  lemma {:induction false} ProcessGroupFacts(s: State, g: Group, i: nat, f: Faults)
    requires Ready(s)
    ensures var q := ProcessGroup(s, g, i, f);
            && Ready(q.s)
            && s.children <= q.s.children
            && |q.s.children| == |s.children| + q.created
            && RowsOutcome(s.ledger, q.s.ledger, q.s.children, f)
            && (!q.aborted && g.key !in f.parentFails ==>
                  forall r :: 0 <= r < |s.ledger| && InGroup(s.ledger[r], g.key) ==> q.s.ledger[r].loteId.Some?)
            && (UniqueChildren(s.children) ==> UniqueChildren(q.s.children))
  {
    var q := ProcessGroup(s, g, i, f);
    if g.key in f.parentFails {
      RowsOutcomeSame(s.ledger, s.children, f);
    } else {
      var p := ObtenerPadre(s, g.key.fecha, g.key.businessId);
      ObtenerPadreReady(s, g.key.fecha, g.key.businessId);
      if f.abort == BeforeChild(i) {
        RowsOutcomeSame(s.ledger, s.children, f);
      } else {
        var c := ChildStep(p.s, g, p.id);
        ChildStepFacts(p.s, g, p.id);
        if f.abort == BeforeStamp(i) {
          RowsOutcomeSame(s.ledger, c.s.children, f);
        } else {
          StampFacts(p.s, g, p.id, c);
          var t := c.s.(ledger := Stamp(c.s.ledger, g.key, c.id));
          assert q.s == t;
          RowsOutcomeFaults(s.ledger, t.ledger, t.children, g.key, f);
        }
      }
    }
  }

  /** The loop over `gs`: the precondition is kept, children are only appended
      (as many as it reports created), and rows change only by getting a lote_id
      naming a child of their merchant and day. */
  lemma {:induction false} ProcessGroupsFacts(s: State, gs: seq<Group>, f: Faults)
    requires Ready(s)
    ensures var p := ProcessGroups(s, gs, f);
            && Ready(p.s)
            && s.children <= p.s.children
            && |p.s.children| == |s.children| + p.created
            && RowsOutcome(s.ledger, p.s.ledger, p.s.children, f)
            && (UniqueChildren(s.children) ==> UniqueChildren(p.s.children))
  {
    if gs == [] {
      RowsOutcomeSame(s.ledger, s.children, f);
    } else {
      var pre := gs[..|gs| - 1];
      var p := ProcessGroups(s, pre, f);
      ProcessGroupsFacts(s, pre, f);
      if !p.aborted {
        var q := ProcessGroup(p.s, gs[|gs| - 1], |gs| - 1, f);
        ProcessGroupFacts(p.s, gs[|gs| - 1], |gs| - 1, f);
        RowsOutcomeTrans(s.ledger, p.s.ledger, q.s.ledger, p.s.children, q.s.children, f);
      }
    }
  }

  /** A row that has a lote_id keeps it. */
  lemma StaysBatched(before: Row, after: Row, children: seq<Child>, f: Faults)
    requires before.loteId.Some? && RowOutcome(before, after, children, f)
    ensures after.loteId.Some?
  {
  }

  /** The row is batched after the last group when that group is its own. */
  lemma BatchedByLast(row: Row, mid: Row, after: Row, cm: seq<Child>, ca: seq<Child>, k: Key, f: Faults)
    requires InGroup(row, k) && RowOutcome(row, mid, cm, f)
    requires InGroup(mid, k) ==> after.loteId.Some?
    requires RowOutcome(mid, after, ca, f)
    ensures after.loteId.Some?
  {
    if mid != row {
      StaysBatched(mid, after, ca, f);
    }
  }

  /** A row pending after `gs` was pending before its last group or belongs to it. */
  lemma PendingStep(row: Row, gs: seq<Group>, f: Faults)
    requires gs != [] && Pending(row, gs, f)
    ensures Pending(row, gs[..|gs| - 1], f) || InGroup(row, gs[|gs| - 1].key)
  {
    var j :| 0 <= j < |gs| && gs[j].key == KeyOf(row);
    if j < |gs| - 1 {
      assert gs[..|gs| - 1][j] == gs[j];
    }
  }

  /** The rows batched by the loop up to its last group, and then by that group. */
  lemma BatchedAfterLast(before: seq<Row>, mid: seq<Row>, after: seq<Row>, cm: seq<Child>, ca: seq<Child>,
                         gs: seq<Group>, f: Faults)
    requires gs != []
    requires RowsOutcome(before, mid, cm, f) && RowsOutcome(mid, after, ca, f)
    requires forall r :: 0 <= r < |before| && Pending(before[r], gs[..|gs| - 1], f) ==> mid[r].loteId.Some?
    requires gs[|gs| - 1].key !in f.parentFails ==>
               forall r :: 0 <= r < |mid| && InGroup(mid[r], gs[|gs| - 1].key) ==> after[r].loteId.Some?
    ensures forall r :: 0 <= r < |before| && Pending(before[r], gs, f) ==> after[r].loteId.Some?
  {
    var k := gs[|gs| - 1].key;
    forall r | 0 <= r < |before| && Pending(before[r], gs, f)
      ensures after[r].loteId.Some?
    {
      assert RowOutcome(before[r], mid[r], cm, f) && RowOutcome(mid[r], after[r], ca, f);
      PendingStep(before[r], gs, f);
      if Pending(before[r], gs[..|gs| - 1], f) {
        StaysBatched(mid[r], after[r], ca, f);
      } else {
        BatchedByLast(before[r], mid[r], after[r], cm, ca, k, f);
      }
    }
  }

  /** When no exception escaped the loop over `gs`, every row of a processed key
      whose parent lookup succeeded has been batched. */
  lemma {:induction false} ProcessGroupsBatched(s: State, gs: seq<Group>, f: Faults)
    requires Ready(s)
    ensures var p := ProcessGroups(s, gs, f);
            && |p.s.ledger| == |s.ledger|
            && (!p.aborted ==> forall r :: 0 <= r < |s.ledger| && Pending(s.ledger[r], gs, f) ==> p.s.ledger[r].loteId.Some?)
  {
    ProcessGroupsFacts(s, gs, f);
    if gs != [] {
      var pre := gs[..|gs| - 1];
      var g := gs[|gs| - 1];
      var p := ProcessGroups(s, pre, f);
      ProcessGroupsFacts(s, pre, f);
      ProcessGroupsBatched(s, pre, f);
      if !p.aborted {
        var q := ProcessGroup(p.s, g, |gs| - 1, f);
        ProcessGroupFacts(p.s, g, |gs| - 1, f);
        assert ProcessGroups(s, gs, f) == Progress(q.s, p.created + q.created, q.aborted);
        if !q.aborted {
          BatchedAfterLast(s.ledger, p.s.ledger, q.s.ledger, p.s.children, q.s.children, gs, f);
        }
      }
    }
  }

  // ---------------------------------------------------------------------------
  // The whole call.

  /** The roll-up writes totals only, so the state stays valid. */
  lemma RollUpValid(s: State, failsAt: Option<nat>)
    requires ValidState(s)
    ensures ValidState(RollUpState(s, failsAt))
  {
    var t := RollUpState(s, failsAt);
    forall j | 0 <= j < |t.parents|
      ensures 1 <= t.parents[j].id < t.nextParentId
    {
      assert t.parents[j].id == s.parents[j].id;
    }
  }

  /** Every row of a ledger without eligible rows leaves the grouping query empty. */
  lemma SinElegiblesSinGrupos(rows: seq<Row>)
    requires NoEligible(rows)
    ensures Grupos(rows) == []
  {
    var gs := Grupos(rows);
    assert |gs| > 0 ==> HasGroup(gs, gs[0].key);
  }

  /** A call of `crear_lotes_por_business_id`: rows change only by getting a
      lote_id that names a child batch of their merchant and day (rows whose
      parent lookup failed are never touched), child batches are only appended,
      a successful call reports exactly how many it appended, no
      (merchant, day, parent) ever gets a second child, and after a successful
      call in which no parent lookup failed no row is left unbatched. */
  lemma {:induction false} CrearLotesEfecto(s: State, f: Faults)
    requires ValidState(s)
    ensures var r := CrearLotesSpec(s, f);
            && ValidState(r.s)
            && (r.ok ==> r.s.schema.ledgerHasLoteId && r.s.schema.childTableExists)
            && RowsOutcome(s.ledger, r.s.ledger, r.s.children, f)
            && s.children <= r.s.children
            && (r.ok ==> |r.s.children| == |s.children| + r.created)
            && (UniqueChildren(s.children) ==> UniqueChildren(r.s.children))
            && (r.ok && f.parentFails == {} ==> NoEligible(r.s.ledger))
  {
    var r := CrearLotesSpec(s, f);
    var guard := GuardSpec(s, f.guardFails);
    RowsOutcomeSame(s.ledger, s.children, f);
    if guard.ok && guard.s.schema.childTableExists {
      var gs := Grupos(guard.s.ledger);
      if gs != [] {
        var p := ProcessGroups(guard.s, gs, f);
        ProcessGroupsFacts(guard.s, gs, f);
        ProcessGroupsBatched(guard.s, gs, f);
        if !p.aborted {
          assert r.s == RollUpState(p.s, f.rollUpFailsAt);
          RollUpValid(p.s, f.rollUpFailsAt);
          if f.parentFails == {} {
            forall i | 0 <= i < |r.s.ledger|
              ensures !Eligible(r.s.ledger[i])
            {
              var row := s.ledger[i];
              if Eligible(row) {
                assert InGroup(row, KeyOf(row));
                assert HasMember(guard.s.ledger, KeyOf(row));
                assert Pending(row, gs, f);
              } else {
                assert RowOutcome(row, r.s.ledger[i], r.s.children, f);
              }
            }
          }
        }
      } else if r.ok && f.parentFails == {} {
        forall i | 0 <= i < |s.ledger|
          ensures !Eligible(s.ledger[i])
        {
          assert Eligible(s.ledger[i]) ==> InGroup(guard.s.ledger[i], KeyOf(s.ledger[i]));
          assert Eligible(s.ledger[i]) ==> HasGroup(gs, KeyOf(s.ledger[i]));
        }
      }
    }
  }

  /** The early returns: `(False, 0)` with nothing but possibly the new column
      when the guard fails or Lote_sv_business is missing, and `(True, 0)` with
      nothing changed when no row waits for a batch. */
  lemma SalidasTempranas(s: State, f: Faults)
    ensures var r := CrearLotesSpec(s, f);
            && (f.guardFails ==> r == Outcome(s, false, 0))
            && (!s.schema.childTableExists ==> !r.ok && r.created == 0 && r.s.ledger == s.ledger
                                               && r.s.parents == s.parents && r.s.children == s.children)
            && (!f.guardFails && s.schema.childTableExists && NoEligible(s.ledger) ==>
                  r.ok && r.created == 0 && r.s.ledger == s.ledger && r.s.parents == s.parents && r.s.children == s.children)
  {
    if !f.guardFails && s.schema.childTableExists && NoEligible(s.ledger) {
      SinElegiblesSinGrupos(s.ledger);
    }
  }

  /** The stamping `UPDATE` gives exactly the group's rows the child id, and
      afterwards no row of the group is left without a lote_id. */
  lemma StampEfecto(rows: seq<Row>, k: Key, id: nat)
    ensures var r := Stamp(rows, k, id);
            && |r| == |rows|
            && (forall i :: 0 <= i < |rows| && InGroup(rows[i], k) ==> r[i] == rows[i].(loteId := Some(id)))
            && (forall i :: 0 <= i < |rows| && !InGroup(rows[i], k) ==> r[i] == rows[i])
            && (forall i :: 0 <= i < |r| ==> !InGroup(r[i], k))
  {
  }

  /** Running `crear_lotes_por_business_id` again after a successful run without
      errors changes nothing and creates no batch. */
  lemma SegundaEjecucion(s: State)
    requires ValidState(s)
    ensures var r1 := CrearLotesSpec(s, NoFaults);
            r1.ok ==> CrearLotesSpec(r1.s, NoFaults) == Outcome(r1.s, true, 0)
  {
    var r1 := CrearLotesSpec(s, NoFaults);
    CrearLotesEfecto(s, NoFaults);
    if r1.ok {
      assert r1.s.schema.ledgerHasLoteId && r1.s.schema.childTableExists;
      SinElegiblesSinGrupos(r1.s.ledger);
    }
  }
}
