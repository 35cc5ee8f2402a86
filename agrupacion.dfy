/** The grouping query of `crear_lotes_por_business_id`: the LiquidacionesSV rows
    that have a business_id and no lote_id yet, grouped by
    (business_id, DATE(FECHA_TRAN)) with their count, sums and average VAT. */
module Agrupacion {
  import opened Base
  import opened Tablas

  /** A group key: one merchant on one day. */
  datatype Key = Key(businessId: string, fecha: Date)

  /** `business_id IS NOT NULL AND lote_id IS NULL`. */
  predicate Eligible(r: Row)
  {
    r.businessId.Some? && r.loteId.None?
  }

  function KeyOf(r: Row): Key
    requires r.businessId.Some?
  {
    Key(r.businessId.value, r.fechaTran.day)
  }

  /** The row belongs to the group `k` of the grouping query; this is also the
      `WHERE` clause of the stamping `UPDATE`. */
  predicate InGroup(r: Row, k: Key)
  {
    Eligible(r) && KeyOf(r) == k
  }

  /** The distinct group keys, in order of first appearance. */
  function GroupKeys(rows: seq<Row>): (ks: seq<Key>)
    ensures forall k :: k in ks <==> exists i :: 0 <= i < |rows| && InGroup(rows[i], k)
    ensures forall i, j :: 0 <= i < j < |ks| ==> ks[i] != ks[j]
  {
    if rows == [] then []
    else
      var pre := rows[..|rows| - 1];
      var r := rows[|rows| - 1];
      var ks := GroupKeys(pre);
      assert forall i :: 0 <= i < |pre| ==> pre[i] == rows[i];
      if Eligible(r) && KeyOf(r) !in ks then ks + [KeyOf(r)] else ks
  }

  /** The rows of group `k`, in table order. */
  function Members(rows: seq<Row>, k: Key): (ms: seq<Row>)
    ensures forall r :: r in ms <==> r in rows && InGroup(r, k)
  {
    if rows == [] then []
    else
      var pre := rows[..|rows| - 1];
      var r := rows[|rows| - 1];
      assert rows == pre + [r];
      Members(pre, k) + (if InGroup(r, k) then [r] else [])
  }

  /** The column value as `SUM` sees it: a NULL contributes nothing. */
  function AmountOf(r: Row, m: Measure): Cents
  {
    if m in r.amounts then r.amounts[m] else 0
  }

  /** `COALESCE(SUM(m), 0)` over `rows`. */
  function SumOf(rows: seq<Row>, m: Measure): Cents
  {
    if rows == [] then 0
    else SumOf(rows[..|rows| - 1], m) + AmountOf(rows[|rows| - 1], m)
  }

  /** The non-null IVA_PORC values of `rows`, which `AVG(IVA_PORC)` averages. */
  function IvaSamples(rows: seq<Row>): seq<Rate>
  {
    if rows == [] then []
    else
      var r := rows[|rows| - 1];
      IvaSamples(rows[..|rows| - 1]) + (if r.ivaPorc.Some? then [Percent(r.ivaPorc.value)] else [])
  }

  /** One result row of the grouping query. */
  datatype Group = Group(key: Key, count: nat, totals: map<Measure, Cents>, ivaPorc: Option<Rate>)

  function GroupOf(rows: seq<Row>, k: Key): Group
  {
    var ms := Members(rows, k);
    Group(k, |ms|, map m | m in AllMeasures :: SumOf(ms, m), Avg(IvaSamples(ms)))
  }

  function GroupsFor(rows: seq<Row>, ks: seq<Key>): (gs: seq<Group>)
    ensures |gs| == |ks|
    ensures forall i :: 0 <= i < |ks| ==> gs[i] == GroupOf(rows, ks[i])
  {
    if ks == [] then []
    else GroupsFor(rows, ks[..|ks| - 1]) + [GroupOf(rows, ks[|ks| - 1])]
  }

  /** Some row of `rows` belongs to group `k`. */
  predicate HasMember(rows: seq<Row>, k: Key)
  {
    exists i :: 0 <= i < |rows| && InGroup(rows[i], k)
  }

  /** `gs` has a group with key `k`. */
  predicate HasGroup(gs: seq<Group>, k: Key)
  {
    exists i :: 0 <= i < |gs| && gs[i].key == k
  }

  /** The result of the grouping query: one group per distinct key of an eligible
      row, none twice, and never an empty group. */
  function Grupos(rows: seq<Row>): (gs: seq<Group>)
    ensures forall k :: HasGroup(gs, k) <==> HasMember(rows, k)
    ensures forall i, j :: 0 <= i < j < |gs| ==> gs[i].key != gs[j].key
    ensures forall i :: 0 <= i < |gs| ==> gs[i].count >= 1
  {
    var ks := GroupKeys(rows);
    var gs := GroupsFor(rows, ks);
    forall i | 0 <= i < |gs|
      ensures gs[i].count >= 1
    {
      assert ks[i] in ks;
      var j :| 0 <= j < |rows| && InGroup(rows[j], ks[i]);
      assert rows[j] in Members(rows, ks[i]);
    }
    forall k | HasMember(rows, k)
      ensures HasGroup(gs, k)
    {
      assert k in ks;
      var i :| 0 <= i < |ks| && ks[i] == k;
      assert gs[i].key == k;
    }
    forall k | HasGroup(gs, k)
      ensures HasMember(rows, k)
    {
      var i :| 0 <= i < |gs| && gs[i].key == k;
      assert ks[i] in ks;
    }
    gs
  }

  /** The eligible rows, in table order. */
  function EligibleRows(rows: seq<Row>): seq<Row>
  {
    if rows == [] then []
    else
      var r := rows[|rows| - 1];
      EligibleRows(rows[..|rows| - 1]) + (if Eligible(r) then [r] else [])
  }

  function CountOf(gs: seq<Group>): nat
  {
    if gs == [] then 0 else CountOf(gs[..|gs| - 1]) + gs[|gs| - 1].count
  }

  function TotalOf(gs: seq<Group>, m: Measure): Cents
  {
    if gs == [] then 0
    else
      var g := gs[|gs| - 1];
      TotalOf(gs[..|gs| - 1], m) + (if m in g.totals then g.totals[m] else 0)
  }

  lemma MembersAppend(pre: seq<Row>, r: Row, k: Key)
    ensures Members(pre + [r], k) == Members(pre, k) + (if InGroup(r, k) then [r] else [])
  {
    assert (pre + [r])[..|pre|] == pre;
  }

  lemma SumOfAppend(rows: seq<Row>, r: Row, m: Measure)
    ensures SumOf(rows + [r], m) == SumOf(rows, m) + AmountOf(r, m)
  {
    assert (rows + [r])[..|rows|] == rows;
  }

  /** The aggregate of group `k` after appending `r` to the ledger. */
  lemma GroupOfAppend(pre: seq<Row>, r: Row, k: Key, m: Measure)
    requires m in AllMeasures
    ensures GroupOf(pre + [r], k).count == GroupOf(pre, k).count + (if InGroup(r, k) then 1 else 0)
    ensures GroupOf(pre + [r], k).totals[m] ==
            GroupOf(pre, k).totals[m] + (if InGroup(r, k) then AmountOf(r, m) else 0)
  {
    var ms := Members(pre, k);
    MembersAppend(pre, r, k);
    if InGroup(r, k) {
      SumOfAppend(ms, r, m);
      assert GroupOf(pre + [r], k).totals[m] == SumOf(ms + [r], m);
    } else {
      assert Members(pre + [r], k) == ms + [] == ms;
    }
    assert GroupOf(pre, k).totals[m] == SumOf(ms, m);
  }

  lemma GroupKeysAppend(pre: seq<Row>, r: Row)
    ensures GroupKeys(pre + [r]) ==
            if Eligible(r) && KeyOf(r) !in GroupKeys(pre) then GroupKeys(pre) + [KeyOf(r)] else GroupKeys(pre)
  {
    assert (pre + [r])[..|pre|] == pre;
  }

  lemma GruposUnfold(rows: seq<Row>)
    ensures Grupos(rows) == GroupsFor(rows, GroupKeys(rows))
  {
  }

  lemma GroupsForSnoc(rows: seq<Row>, ks: seq<Key>, k: Key)
    ensures GroupsFor(rows, ks + [k]) == GroupsFor(rows, ks) + [GroupOf(rows, k)]
  {
    assert (ks + [k])[..|ks|] == ks;
  }

  lemma CountOfSnoc(gs: seq<Group>, g: Group, m: Measure)
    ensures CountOf(gs + [g]) == CountOf(gs) + g.count
    ensures TotalOf(gs + [g], m) == TotalOf(gs, m) + (if m in g.totals then g.totals[m] else 0)
  {
    assert (gs + [g])[..|gs|] == gs;
  }

  /** Appending one row to the ledger adds it to the aggregate of its own group
      and of no other group. */
  lemma {:induction false} GroupsForAppend(pre: seq<Row>, r: Row, ks: seq<Key>, m: Measure)
    requires forall i, j :: 0 <= i < j < |ks| ==> ks[i] != ks[j]
    requires m in AllMeasures
    ensures CountOf(GroupsFor(pre + [r], ks)) ==
            CountOf(GroupsFor(pre, ks)) + (if Eligible(r) && KeyOf(r) in ks then 1 else 0)
    ensures TotalOf(GroupsFor(pre + [r], ks), m) ==
            TotalOf(GroupsFor(pre, ks), m) + (if Eligible(r) && KeyOf(r) in ks then AmountOf(r, m) else 0)
  {
    if ks != [] {
      var ks' := ks[..|ks| - 1];
      var k := ks[|ks| - 1];
      assert ks == ks' + [k];
      GroupsForAppend(pre, r, ks', m);
      GroupOfAppend(pre, r, k, m);
      GroupsForSnoc(pre + [r], ks', k);
      GroupsForSnoc(pre, ks', k);
      CountOfSnoc(GroupsFor(pre + [r], ks'), GroupOf(pre + [r], k), m);
      CountOfSnoc(GroupsFor(pre, ks'), GroupOf(pre, k), m);
    }
  }

  /** A key no row belongs to has no members. */
  lemma {:induction false} NoMembers(rows: seq<Row>, k: Key)
    ensures (forall i :: 0 <= i < |rows| ==> !InGroup(rows[i], k)) ==> Members(rows, k) == []
  {
    if rows != [] {
      var pre := rows[..|rows| - 1];
      NoMembers(pre, k);
      assert forall i :: 0 <= i < |pre| ==> pre[i] == rows[i];
    }
  }

  /** The group of a key no earlier row has holds just the new row. */
  lemma NewGroupOf(pre: seq<Row>, r: Row, m: Measure)
    requires Eligible(r) && KeyOf(r) !in GroupKeys(pre)
    requires m in AllMeasures
    ensures GroupOf(pre + [r], KeyOf(r)).count == 1
    ensures GroupOf(pre + [r], KeyOf(r)).totals[m] == AmountOf(r, m)
  {
    var k := KeyOf(r);
    assert forall i :: 0 <= i < |pre| ==> !InGroup(pre[i], k);
    NoMembers(pre, k);
    assert GroupOf(pre, k).count == 0;
    assert GroupOf(pre, k).totals[m] == SumOf([], m) == 0;
    GroupOfAppend(pre, r, k, m);
  }

  /** A row that opens a new group makes a group of its own, holding just it. */
  lemma NewGroup(pre: seq<Row>, r: Row, m: Measure)
    requires Eligible(r) && KeyOf(r) !in GroupKeys(pre)
    requires m in AllMeasures
    ensures GroupKeys(pre + [r]) == GroupKeys(pre) + [KeyOf(r)]
    ensures CountOf(Grupos(pre + [r])) == CountOf(GroupsFor(pre + [r], GroupKeys(pre))) + 1
    ensures TotalOf(Grupos(pre + [r]), m) == TotalOf(GroupsFor(pre + [r], GroupKeys(pre)), m) + AmountOf(r, m)
  {
    var rows := pre + [r];
    var k := KeyOf(r);
    var ks := GroupKeys(pre);
    GroupKeysAppend(pre, r);
    GruposUnfold(rows);
    NewGroupOf(pre, r, m);
    GroupsForSnoc(rows, ks, k);
    CountOfSnoc(GroupsFor(rows, ks), GroupOf(rows, k), m);
  }

  lemma EligibleRowsAppend(pre: seq<Row>, r: Row, m: Measure)
    ensures |EligibleRows(pre + [r])| == |EligibleRows(pre)| + (if Eligible(r) then 1 else 0)
    ensures SumOf(EligibleRows(pre + [r]), m) == SumOf(EligibleRows(pre), m) + (if Eligible(r) then AmountOf(r, m) else 0)
  {
    assert (pre + [r])[..|pre|] == pre;
    if Eligible(r) {
      SumOfAppend(EligibleRows(pre), r, m);
    } else {
      assert EligibleRows(pre + [r]) == EligibleRows(pre) + [] == EligibleRows(pre);
    }
  }

  /** Appending one row to the ledger adds it to exactly one group: a new one
      when its key is new, the existing group of its key otherwise. */
  lemma GruposStep(pre: seq<Row>, r: Row, m: Measure)
    requires m in AllMeasures
    ensures CountOf(Grupos(pre + [r])) == CountOf(Grupos(pre)) + (if Eligible(r) then 1 else 0)
    ensures TotalOf(Grupos(pre + [r]), m) == TotalOf(Grupos(pre), m) + (if Eligible(r) then AmountOf(r, m) else 0)
  {
    var ks := GroupKeys(pre);
    GroupsForAppend(pre, r, ks, m);
    GruposUnfold(pre);
    if Eligible(r) && KeyOf(r) !in ks {
      NewGroup(pre, r, m);
    } else {
      GroupKeysAppend(pre, r);
      GruposUnfold(pre + [r]);
    }
  }

  /** No eligible row is lost or counted twice by the grouping: the group counts
      add up to the number of eligible rows, and each group total adds up to the
      column's sum over the eligible rows. */
  lemma {:induction false} GruposConservan(rows: seq<Row>, m: Measure)
    ensures CountOf(Grupos(rows)) == |EligibleRows(rows)|
    ensures TotalOf(Grupos(rows), m) == SumOf(EligibleRows(rows), m)
  {
    AllMeasuresComplete(m);
    if rows != [] {
      var pre := rows[..|rows| - 1];
      var r := rows[|rows| - 1];
      assert rows == pre + [r];
      GruposConservan(pre, m);
      GruposStep(pre, r, m);
      EligibleRowsAppend(pre, r, m);
    }
  }

  /** No IVA sample means no IVA_PORC value among the rows. */
  lemma {:induction false} IvaSamplesVacio(rows: seq<Row>)
    ensures IvaSamples(rows) == [] <==> forall i :: 0 <= i < |rows| ==> rows[i].ivaPorc.None?
  {
    if rows != [] {
      var pre := rows[..|rows| - 1];
      IvaSamplesVacio(pre);
      assert forall i :: 0 <= i < |pre| ==> pre[i] == rows[i];
    }
  }

  /** A group's `AVG(IVA_PORC)` is NULL exactly when none of its rows has a value. */
  lemma IvaDelGrupo(rows: seq<Row>, k: Key)
    ensures GroupOf(rows, k).ivaPorc.None? <==> forall r :: r in rows && InGroup(r, k) ==> r.ivaPorc.None?
  {
    var ms := Members(rows, k);
    IvaSamplesVacio(ms);
    forall r | r in rows && InGroup(r, k)
      ensures (forall i :: 0 <= i < |ms| ==> ms[i].ivaPorc.None?) ==> r.ivaPorc.None?
    {
      assert r in ms;
    }
  }
}
