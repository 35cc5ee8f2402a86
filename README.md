# Batching and reconciliation of the Serfinsa settlement ledger

This project models the core of the Serfinsa settlement pipeline in Dafny. It
covers three parts.

- **Batching** (`CrearLotes.py`). The `LiquidacionesSV` ledger rows that carry
  a `business_id` but no `lote_id` are grouped by merchant and day. Each group
  gets one child batch (`Lote_sv_business`) under a parent batch (`Lote_sv`)
  for that day and merchant. The rows are stamped with the child's id. Then
  every parent's total columns are rewritten from the sums over its children.
  The column guard that adds `lote_id` to the ledger is modelled too.
- **Reconciliation** (`BuscarTransaccion.py`). A ledger `SEQ_NUM` is looked up
  among the gateway's `transactions` by `referencs`, and the transaction id is
  written back into `qpay_transac_id`. A read-only lookup by authorization code
  sits beside it.
- **Audit** (`BuscarTransaccionesFaltantes.py`). The query lists the
  successful transactions of payment method 10 that no ledger row has
  reconciled, newest first. The report sheet is built from its rows. A
  notification is sent only when the list is not empty.

The database is a `State` value: the schema flags that the `INFORMATION_SCHEMA`
queries would report, the ledger, the parent and child batch tables, and the
two `AUTO_INCREMENT` counters. The connection is the class `Tablas.Db`, which
holds these as fields. Each operation that writes the database is a method on a
`Db`. Its contract ties the new state to a pure function of the old state, and
the properties are proved about those functions. Money is counted in integer
cents. `AVG` is kept symbolic (`Tablas.Rate.AvgOf`), so only "NULL exactly when
there is no value" is claimed about it.

Database exceptions are parameters. `CrearLotes.Faults` says whether the guard
fails, for which group keys the parent get-or-create fails (and, for those
keys, whether it fails after creating a missing `Lote_sv` table), and whether an
exception escapes the group loop before a child or before a stamp. It also says
at which parent the roll-up raises. `BuscarTransaccion.ReconcileFault` and the
boolean `fails`/`writeFails` parameters play the same part elsewhere. A
`LIMIT 1` lookup without `ORDER BY` is read as the first match in table order
(`Base.FirstMatch`).

Modules, by file:

| file | module | contents |
|---|---|---|
| `base.dfy` | `Base` | Option, timestamps, cents, first match |
| `tablas.dfy` | `Tablas` | rows, batches, schema, `State`, the `Db` class |
| `agrupacion.dfy` | `Agrupacion` | the grouping query |
| `lotes_padre.dfy` | `LotesPadre` | parent get-or-create and the roll-up |
| `crear_lotes.dfy` | `CrearLotes` | guard, child batches, stamping, the group loop, the whole call |
| `crear_lotes_propiedades.dfy` | `CrearLotesPropiedades` | what a call does to rows and children |
| `lotes_padre_propiedades.dfy` | `LotesPadrePropiedades` | get-or-create idempotence and roll-up totals |
| `buscar_transaccion.dfy` | `BuscarTransaccion` | the reconciler and the lookup by authorization code |
| `buscar_transacciones_faltantes.dfy` | `BuscarTransaccionesFaltantes` | audit query, report and notification |
| `conciliacion.dfy` | `Conciliacion` | how reconciliation and audit meet |
| `escenario.dfy` | `Escenario` | a worked two-row run |

Two points about failures, as the code handles them:

- **Failures inside the group loop.** Only a failed parent get-or-create (a
  `None` result, `CrearLotes.py:197-201`) skips a group; the loop then goes on
  with the next group. An exception from the child lookup, the child insert or
  the stamping `UPDATE` reaches the outer `except` (`CrearLotes.py:273-277`).
  The call then returns `(False, 0)`, and the work already committed stays.
- **Failures in the roll-up.** One `try` wraps the whole loop over parent ids
  (`CrearLotes.py:300-423`). An exception at one parent ends the roll-up, so
  the parents after it keep their old totals.

## Model

| member | source | states |
|---|---|---|
| Base.FirstMatch | CrearLotes.py:93 | a `LIMIT 1` lookup finds a matching row exactly when one exists, and no earlier row matches |
| Tablas.Avg | CrearLotes.py:169 | `AVG` over a column is NULL exactly when there is no non-NULL value |
| Agrupacion.GroupKeys | CrearLotes.py:152-174 | the group keys are exactly the (business_id, day) pairs of eligible rows (business_id set, lote_id NULL), with no key twice |
| Agrupacion.Members | CrearLotes.py:152-174 | a group's rows are exactly the eligible ledger rows of its merchant and day |
| Agrupacion.Grupos | CrearLotes.py:152-176 | there is a group for a key iff some eligible row has that key; keys are distinct; every group counts at least one row |
| Agrupacion.GroupsFor | CrearLotes.py:152-176 | one aggregate row per key, in key order |
| Agrupacion.GroupOf | CrearLotes.py:152-173 | the aggregate row of one (business_id, day) key: the number of its eligible rows, each money column summed over them, and the average of their IVA_PORC |
| Agrupacion.SumOf | CrearLotes.py:157-168 | `COALESCE(SUM(col), 0)`: the sum of the column over the rows, a NULL counting as nothing and no rows giving 0 |
| Agrupacion.IvaSamples | CrearLotes.py:169 | the non-NULL IVA_PORC values of the rows, in order, which `AVG(IVA_PORC)` averages |
| Agrupacion.GruposStep | CrearLotes.py:152-176 | appending a ledger row adds 1 to the total count and its amount to each column sum when it is eligible, and nothing otherwise |
| Agrupacion.GruposConservan | CrearLotes.py:156-168 | the group counts add up to the number of eligible rows, and each `COALESCE(SUM(..), 0)` column adds up to the sum over eligible rows (no row lost or counted twice) |
| Agrupacion.GroupsForAppend | CrearLotes.py:156-168 | appending a row adds it to the aggregate of its own group only |
| Agrupacion.NewGroup | CrearLotes.py:152-174 | a row with a new key opens one new group, last in order, holding just that row |
| Agrupacion.IvaDelGrupo | CrearLotes.py:169 | a group's `AVG(IVA_PORC)` is NULL exactly when none of its rows has IVA_PORC |
| LotesPadre.ObtenerPadre | CrearLotes.py:43-124 | the returned id is a parent of that date (and business_id, when the table has the column); an existing one is reused with nothing changed, otherwise one new `pendiente` parent is appended with the next id; the table is created first when missing |
| LotesPadre.ObtenerOCrearLoteSvPadre | CrearLotes.py:43-124 | without an exception, its new state and returned id are those of `ObtenerPadre`; on an exception it returns None, and the state is that of `PadreFallido`: unchanged when the exception strikes at or before the `CREATE TABLE`, and with the created Lote_sv kept when it strikes after it |
| LotesPadre.PadreFallido | CrearLotes.py:49-124 | the state a failed get-or-create leaves: no ledger row, parent or child changes and no id is drawn; the schema is unchanged when the exception came before the table step, and Lote_sv exists when it came after it (the `CREATE TABLE` is DDL and commits by itself, line 80) |
| LotesPadre.PadreFallidoValido | CrearLotes.py:60-81 | a failed get-or-create, with or without the table created, keeps the database facts |
| LotesPadre.ParentIds | CrearLotes.py:288-296 | the distinct parent ids are exactly those some child names, each once |
| LotesPadre.ChildrenOf | CrearLotes.py:304-325 | a parent's children are exactly the child batches naming it |
| LotesPadre.TotalesDe | CrearLotes.py:304-325 | the aggregate row read for one parent: the number of distinct business_ids of its children, the sums of `total_transacciones` and of each money column (0 for no child), and `AVG(iva_porc)` over the non-NULL values |
| LotesPadre.CamposUpdate | CrearLotes.py:339-403 | the `SET` list: each integer and money column the table has, with its value; the deposit sum goes to `total_monto_deposito` when that column exists and to `total_deposito` only otherwise; iva_porc is not in this list |
| LotesPadre.ApplyTotales | CrearLotes.py:342-414 | one parent row after its `UPDATE`: the `SET` columns take their new values, the rest keep theirs, and iva_porc is overwritten only when the column exists and the average is not NULL |
| LotesPadre.UpdateParent | CrearLotes.py:405-414 | `UPDATE Lote_sv ... WHERE id = pid`: the rows with that id get the new totals, every other row stays, and the table keeps its length |
| LotesPadre.RollUp | CrearLotes.py:300-414 | the parent table after the loop has updated the parents whose ids are in the given set, each with the totals of its own children; the others stay |
| LotesPadre.RollUpState | CrearLotes.py:280-423 | `actualizar_totales_lote_sv_padre` as a function: the distinct parent ids are processed in order, up to the one whose processing raises; only the parent table changes |
| LotesPadre.ActualizarTotalesLoteSvPadre | CrearLotes.py:280-423 | the loop over the distinct parent ids leaves the state `RollUpState` gives: each parent before the one whose update raises gets its children's totals, and nothing else changes |
| LotesPadrePropiedades.ObtenerPadreIdempotente | CrearLotes.py:43-124 | asking twice for the same (fecha, business_id) returns the same id and changes nothing the second time |
| LotesPadrePropiedades.ChildStepIdempotente | CrearLotes.py:203-248 | asking twice for the child of the same group and parent returns the same id and creates nothing the second time |
| LotesPadrePropiedades.RollUpCompleto | CrearLotes.py:288-414 | without exceptions, every parent with children gets its children's totals, and every parent without children is left as it was |
| LotesPadrePropiedades.RollUpParcial | CrearLotes.py:300-423 | when the roll-up raises at the n-th parent id, the parents before it are updated and the rest are untouched |
| LotesPadrePropiedades.ApplyTotalesIdempotente | CrearLotes.py:342-414 | writing the same totals into a parent twice is writing them once |
| LotesPadrePropiedades.RollUpIdempotente | CrearLotes.py:280-423 | a second roll-up over the same children changes nothing |
| LotesPadrePropiedades.ComerciosAcotado | CrearLotes.py:306 | `COUNT(DISTINCT business_id)` over a parent's children is between 1 and their number |
| LotesPadrePropiedades.ColumnasEscritas | CrearLotes.py:342-414 | each total column the table has gets its total; the deposit goes to `total_monto_deposito` when that column exists and to `total_deposito` only otherwise; other columns, the id, date, business_id and estado keep their values; `iva_porc` is written only when the column exists and the average is not NULL |
| LotesPadrePropiedades.IvaDelPadre | CrearLotes.py:401-403 | the children's `AVG(iva_porc)` is NULL exactly when no child has a value, the only case (with the column missing) in which iva_porc is left alone |
| LotesPadrePropiedades.TotalesEscritos | CrearLotes.py:304-399 | one parent's update leaves in each of its total columns the sum of that column over the given children, and the distinct merchant count |
| LotesPadrePropiedades.RollUpDelPadre | CrearLotes.py:300-414 | without exceptions, a parent with children gets exactly the aggregate of its own children |
| LotesPadrePropiedades.RollUpInvariante | CrearLotes.py:280-423 | after a roll-up without exceptions, each parent with children holds in each of its total columns the sum over exactly its children, with the deposit routed as above, and the number of distinct merchants |
| CrearLotes.GuardSpec | CrearLotes.py:10-40 | the guard answers True iff no exception, whether or not the column existed; afterwards lote_id exists; it changes nothing but the schema, and nothing at all when the column existed or it failed |
| CrearLotes.VerificarYAgregarColumnaLoteId | CrearLotes.py:10-40 | the method's new state and answer are those of the guard function |
| CrearLotes.Stamp | CrearLotes.py:250-257 | the stamping `UPDATE`: every row with a business_id, no lote_id and the group's merchant and day gets the child id; the other rows stay, and the ledger keeps its length |
| CrearLotes.ChildStep | CrearLotes.py:203-248 | the returned id is a child for the group's merchant, day and parent; an existing one is reused with nothing changed and 0 created, otherwise one new child with the group's count, sums and average is appended with the next id and 1 created |
| CrearLotes.ObtenerOCrearLoteBusiness | CrearLotes.py:203-248 | the method's new state, id and created count are those of the child get-or-create |
| CrearLotes.ProcessGroup | CrearLotes.py:186-264 | one pass of the loop as a function: a failed parent get-or-create skips the group (leaving `PadreFallido`'s state); otherwise the parent is got or created, the child is got or created, and the group's rows are stamped, unless an exception escapes before the child or before the stamp, which aborts the loop |
| CrearLotes.ProcessGroups | CrearLotes.py:186-264 | the loop as a function: the groups are processed in order, the created counts add up, and processing stops at the first group whose exception escapes |
| CrearLotes.SiguienteGrupo | CrearLotes.py:186-264 | running one more group after a loop prefix without escaped exception gives the loop function over the prefix extended by that group |
| CrearLotes.AbortIsFinal | CrearLotes.py:186-277 | once an exception has escaped the loop, the later groups change nothing |
| CrearLotes.ProcesarGrupo | CrearLotes.py:186-264 | one loop iteration, whose new state, created count and abort flag are `ProcessGroup`'s: a failed parent get-or-create skips the group; otherwise the child is got or created and the group's rows are stamped, unless an exception escapes first |
| CrearLotes.ProcesarGrupos | CrearLotes.py:186-264 | the `for grupo in grupos` loop, whose final state, created count and abort flag are `ProcessGroups`': groups in order, stopping at the first exception that escapes |
| CrearLotes.CrearLotesPorBusinessId | CrearLotes.py:127-277 | the whole call, whose state and `(ok, lotes_creados)` are `CrearLotesSpec`'s |
| CrearLotes.CrearLotesSpec | CrearLotes.py:127-277 | `crear_lotes_por_business_id` as a function: `(False, 0)` when the guard fails or Lote_sv_business is missing; `(True, 0)` when no row is eligible; otherwise the group loop, then `(False, 0)` if an exception escaped it, else the roll-up and `(True, n)` with n the children created |
| CrearLotesPropiedades.StampEfecto | CrearLotes.py:250-260 | the stamping gives exactly the group's unbatched rows the child id, changes nothing else, and leaves no row of the group without a lote_id |
| CrearLotesPropiedades.StampFacts | CrearLotes.py:250-260 | after the stamp every stamped row names a child batch of its own merchant and day |
| CrearLotesPropiedades.ChildStepFacts | CrearLotes.py:203-248 | the child get-or-create only appends, as many as it reports, and never a second child for the same merchant, day and parent |
| CrearLotesPropiedades.ProcessGroupFacts | CrearLotes.py:186-264 | one iteration only appends children (as many as it reports) and only sets the lote_id of eligible rows to a child of their merchant and day; without exception or parent failure all the group's rows are batched |
| CrearLotesPropiedades.ProcessGroupsFacts | CrearLotes.py:186-264 | the whole loop only appends children, its count equals the children appended, rows change only by getting a lote_id naming a child of their own merchant and day, and no child is duplicated |
| CrearLotesPropiedades.ProcessGroupsBatched | CrearLotes.py:186-264 | after a loop without escaped exception, every eligible row of a processed key whose parent lookup succeeded has a lote_id |
| CrearLotesPropiedades.RollUpValid | CrearLotes.py:280-423 | the roll-up keeps the database facts |
| CrearLotesPropiedades.SinElegiblesSinGrupos | CrearLotes.py:152-180 | with no eligible row the grouping query is empty |
| CrearLotesPropiedades.CrearLotesEfecto | CrearLotes.py:127-277 | a call: rows change only by getting a lote_id naming a child of their merchant and day, and never when their parent lookup failed; children are only appended; a successful call reports exactly how many; no child is duplicated; after success with no parent failure no eligible row remains |
| CrearLotesPropiedades.SalidasTempranas | CrearLotes.py:131-180 | guard failure gives `(False, 0)` with nothing changed; a missing Lote_sv_business gives `(False, 0)` with no table row changed; no eligible row gives `(True, 0)` with no table row changed |
| CrearLotesPropiedades.SegundaEjecucion | CrearLotes.py:127-277 | a second call after a successful call without errors changes nothing and creates no batch |
| BuscarTransaccion.WriteBackFilas | BuscarTransaccion.py:30-33 | the write-back sets qpay_transac_id on exactly the rows with that SEQ_NUM and changes no other column or row |
| BuscarTransaccion.WriteBackIdempotente | BuscarTransaccion.py:30-33 | writing the same id back twice is writing it once |
| BuscarTransaccion.WriteBack | BuscarTransaccion.py:30-33 | the write-back `UPDATE`: every ledger row with that SEQ_NUM gets the transaction id in qpay_transac_id; the other rows stay, and the ledger keeps its length |
| BuscarTransaccion.Reconciliar | BuscarTransaccion.py:1-41 | an id is returned iff some transaction has that referencs and no exception occurs; it is that transaction's id, the column then exists, and exactly the rows of that SEQ_NUM carry it; with no match nothing changes; on an exception the ledger is unchanged, and only a failed `UPDATE` leaves the added column; batches are never touched |
| BuscarTransaccion.BuscarTransactionId | BuscarTransaccion.py:1-41 | the method's new state and result are those of the reconciliation function |
| BuscarTransaccion.ReconciliarIdempotente | BuscarTransaccion.py:1-41 | reconciling the same SEQ_NUM twice returns the same id and changes nothing the second time |
| BuscarTransaccion.BuscarPorAuthorizationCode | BuscarTransaccion.py:43-63 | a row is returned iff no exception and some transaction has that authorization code; it is that transaction's six selected columns |
| BuscarTransaccionesFaltantes.JoinMethods | BuscarTransaccionesFaltantes.py:47-54 | the joined rows of one transaction and gateway are exactly those of the qualifying payment methods |
| BuscarTransaccionesFaltantes.JoinGateways | BuscarTransaccionesFaltantes.py:46-54 | the joined rows of one transaction are exactly those of the qualifying gateway and method pairs |
| BuscarTransaccionesFaltantes.Join | BuscarTransaccionesFaltantes.py:30-54 | the joined rows are exactly those of the transaction, gateway and method triples that meet the join and `WHERE` conditions |
| BuscarTransaccionesFaltantes.Insertar | BuscarTransaccionesFaltantes.py:55 | inserting into a newest-first list keeps it newest first and adds exactly that row |
| BuscarTransaccionesFaltantes.OrdenarDesc | BuscarTransaccionesFaltantes.py:55 | `ORDER BY created_at DESC` gives a newest-first permutation of the rows |
| BuscarTransaccionesFaltantes.BuscarFaltantes | BuscarTransaccionesFaltantes.py:17-69 | None iff the query fails (also when the ledger has no qpay_transac_id column); otherwise newest first, and every row is a successful transaction of payment method 10 that no ledger row has reconciled |
| BuscarTransaccionesFaltantes.BuscarTransaccionesFaltantesEn | BuscarTransaccionesFaltantes.py:17-69 | the query against the session returns the audit function's result and changes nothing |
| BuscarTransaccionesFaltantes.ReconciledIds | BuscarTransaccionesFaltantes.py:49-53 | the `NOT IN` subquery: the non-NULL qpay_transac_id values of the ledger |
| BuscarTransaccionesFaltantes.Faltantes | BuscarTransaccionesFaltantes.py:30-56 | the query's rows: the join of transactions, gateways and methods filtered by the `WHERE` clause against the reconciled ids, sorted newest first |
| BuscarTransaccionesFaltantes.FaltantesExactos | BuscarTransaccionesFaltantes.py:30-56 | the result is the join's multiset of rows: every qualifying transaction is listed and every listed row comes from a qualifying one |
| BuscarTransaccionesFaltantes.GenerarReporte | BuscarTransaccionesFaltantes.py:71-127 | no sheet iff the list is empty or writing fails; otherwise the sheet has the twelve labels and one row per result row |
| BuscarTransaccionesFaltantes.FilaReporte | BuscarTransaccionesFaltantes.py:84-115 | one sheet row: the twelve selected columns in the sheet's order, payment_method_id dropped, one cell per label |
| BuscarTransaccionesFaltantes.Columna | BuscarTransaccionesFaltantes.py:102-115 | the cell of a row under a label, found only when the sheet has that label |
| BuscarTransaccionesFaltantes.EncabezadosDistintos | BuscarTransaccionesFaltantes.py:102-115 | the column labels are pairwise different |
| BuscarTransaccionesFaltantes.ColumnaEn | BuscarTransaccionesFaltantes.py:84-115 | the cell under the k-th label is the k-th cell |
| BuscarTransaccionesFaltantes.ReporteColumnas | BuscarTransaccionesFaltantes.py:84-115 | row i of the sheet holds under each label the cell built for it from result row i |
| BuscarTransaccionesFaltantes.ReporteIdYFecha | BuscarTransaccionesFaltantes.py:84-115 | the "Transaction ID" and "Created At" columns hold the row's transaction id and creation time |
| BuscarTransaccionesFaltantes.ReporteOrdenado | BuscarTransaccionesFaltantes.py:55 | the sheet's "Created At" column never increases down the sheet |
| BuscarTransaccionesFaltantes.EjecutarAuditoria | BuscarTransaccionesFaltantes.py:209-248 | the notification is sent iff the query succeeded with a non-empty list; a sheet exists only then, and whenever writing it did not fail |
| Conciliacion.ConciliadaNoFalta | BuscarTransaccion.py:30-36 | once a transaction id has been written back, the audit runs and no longer lists that transaction |
| Escenario.GrupoDelEscenario | CrearLotes.py:152-176 | two rows of merchant B1 on one day, 100.00 and 50.00, form one group of two rows totalling 150.00 |
| Escenario.EscenarioDosFilas | CrearLotes.py:127-277 | on those two rows the call succeeds with one batch created; the child and the parent carry two transactions, 150.00 and one merchant; both rows point to the child |

## Left out

- Printing, logging, email and SMTP, the Excel file format and the HTML body are not modelled. Writing the sheet is reduced to a `writeFails` flag.
- `ReadFile.py`, `conector.py` and `Main.py` are not part of this model. Neither is the ingestion of the settlement file.
- `buscar_transacciones_faltantes` when `create_connection` fails (`BuscarTransaccionesFaltantes.py:21-24`) is not modelled; it is the same `None` as a failing query. Closing the connection is left out.
- The `NOTIFICATION_EMAIL` environment check and the email's own failure are not modelled. The model decides only whether the email is attempted.
- Commits and transactions are not modelled: each statement's effect is final, as with autocommit. Work committed before an exception stays, which is what the code's per-step commits do.
- LotesPadre.ObtenerOCrearLoteSvPadre: an exception between the parent `INSERT` (`CrearLotes.py:99-115`) and its `commit` (line 117) leaves an uncommitted row that a later `commit` on the same connection could make permanent. The model drops that row: a failure after the table step keeps only the created Lote_sv.
- Collations and type coercion are not modelled: every SQL `=` and `GROUP BY` on strings is exact equality. Lote_sv is created with `utf8mb4_general_ci` (`CrearLotes.py:78`), under which `business_id = %s` (line 93) ignores case and trailing spaces, so a parent stored as `B1` would be reused for `b1` where the model appends a second one. The same holds for the child lookup (lines 204-208), the grouping and the stamp (lines 171-173, 251-256), `referencs = %s` and `SEQ_NUM = %s` (`BuscarTransaccion.py:7, 31`) and the audit's `NOT IN` (`BuscarTransaccionesFaltantes.py:49-53`), and MySQL's conversion of a string compared with a number is left out with it. This affects `LotesPadre.ParentMatches`, `CrearLotes.ChildMatches`, `Agrupacion.InGroup`, `CrearLotes.Stamp`, `BuscarTransaccion.MatchesSeq`, `BuscarTransaccion.WriteBack` and `BuscarTransaccionesFaltantes.ReconciledIds`.
- Agrupacion.GroupKeys: `GROUP BY` without `ORDER BY` (`CrearLotes.py:173`) returns the groups in no promised order; the model takes the order of first appearance in the ledger. The positions at which `CrearLotes.Abort` strikes and the order in which child ids are drawn depend on that choice; the properties of a whole call (`CrearLotesPropiedades.CrearLotesEfecto`) do not.
- Concurrency is not modelled. Neither are other writers of the same tables, nor the `UNIQUE` key on `Lote_sv`, which only matters for concurrent inserts.
- The text of the `CREATE TABLE` and `ALTER TABLE` statements is not modelled. Their effect is reduced to schema flags; the created `Lote_sv` has a business_id column and the total columns `CreatedParentColumns`.
- The coercion of `fecha_lote` from a string or datetime (`CrearLotes.py:191-194`) is not modelled. The day is already a `Date`.
- A NULL `FECHA_TRAN` is not modelled. Every ledger row has a timestamp.
- `Tablas.Avg`: the value of `AVG` and its `DECIMAL` rounding are kept symbolic. The model claims only when it is NULL.
- `Base.FirstMatch`: a `LIMIT 1` without `ORDER BY` may return any matching row. The model takes the first in table order, and no lemma depends on which match it is except the idempotence lemmas.
- `LotesPadre.ParentIds`: the order of `SELECT DISTINCT` is taken to be first appearance. Only `LotesPadrePropiedades.RollUpParcial` depends on that order.
- `BuscarTransaccionesFaltantes.OrdenarDesc`: rows with the same `created_at` come back in no particular order. The model fixes one, and its contract claims only the order by time and the permutation.
- Exceptions of the `INFORMATION_SCHEMA` check for `Lote_sv_business` and of the grouping query (`CrearLotes.py:138-176`) are not modelled separately. They end in the same `(False, 0)` as an exception in the loop.
- Nullability of the informational columns of `transactions` is not modelled; they are plain strings.
- A reused child batch's totals are never refreshed when new rows are stamped onto it (`CrearLotes.py:212-214`). The model keeps this behaviour and does not claim that a child's totals equal the sum over its rows.
