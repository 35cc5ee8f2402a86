/** Small vocabulary shared by every part of the model. */
module Base {

  datatype Option<T> = None | Some(value: T)

  /** A calendar day as `DATE(...)` yields it; consecutive days are consecutive integers. */
  type Date = int

  /** A DATETIME value split into its day and the time within that day, so that
      `DATE(ts)` is the projection `ts.day`. */
  datatype Timestamp = Timestamp(day: Date, time: nat)

  /** Chronological order of timestamps: `a` is not later than `b`. */
  predicate NotAfter(a: Timestamp, b: Timestamp)
  {
    a.day < b.day || (a.day == b.day && a.time <= b.time)
  }

  /** An exact DECIMAL(15,2) amount, counted in cents. */
  type Cents = int

  /** The position of the first element of `s` satisfying `p`. A `LIMIT 1` query
      without `ORDER BY` returns some matching row; the model picks the first one in
      table order, and callers rely only on the result being a match. */
  function FirstMatch<T>(s: seq<T>, p: T -> bool): (r: Option<nat>)
    ensures r.Some? ==> r.value < |s| && p(s[r.value])
    ensures r.Some? ==> forall j :: 0 <= j < r.value ==> !p(s[j])
    ensures r.None? <==> forall j :: 0 <= j < |s| ==> !p(s[j])
  {
    if s == [] then None
    else if p(s[0]) then Some(0)
    else match FirstMatch(s[1..], p)
      case None => None
      case Some(i) => Some(i + 1)
  }
}
