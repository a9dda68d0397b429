/** Calendar days of Go's proleptic Gregorian calendar, with the one-day
    steps that `time.Time.AddDate(0, 0, ±1)` takes. Reading the clock and
    the time zone is left to the caller, who passes the local date in. */
module Calendar {
  import opened Decimal

  datatype Date = Date(year: int, month: int, day: int)

  predicate IsLeap(y: int) { y % 4 == 0 && (y % 100 != 0 || y % 400 == 0) }

  function DaysIn(y: int, m: int): (n: int)
    requires 1 <= m <= 12
    ensures 28 <= n <= 31
  {
    if m == 2 then (if IsLeap(y) then 29 else 28)
    else if m == 4 || m == 6 || m == 9 || m == 11 then 30
    else 31
  }

  predicate Valid(d: Date) { 1 <= d.month <= 12 && 1 <= d.day <= DaysIn(d.year, d.month) }

  /** Chronological order: `a` is a strictly earlier day than `b`. */
  predicate Before(a: Date, b: Date)
  {
    a.year < b.year ||
    (a.year == b.year && (a.month < b.month || (a.month == b.month && a.day < b.day)))
  }

  /** The next calendar day. */
  function Succ(d: Date): (r: Date)
    requires Valid(d)
    ensures Valid(r) && Before(d, r)
  {
    if d.day < DaysIn(d.year, d.month) then Date(d.year, d.month, d.day + 1)
    else if d.month < 12 then Date(d.year, d.month + 1, 1)
    else Date(d.year + 1, 1, 1)
  }

  /** The previous calendar day. */
  function Pred(d: Date): (r: Date)
    requires Valid(d)
    ensures Valid(r) && Before(r, d)
  {
    if d.day > 1 then Date(d.year, d.month, d.day - 1)
    else if d.month > 1 then Date(d.year, d.month - 1, DaysIn(d.year, d.month - 1))
    else Date(d.year - 1, 12, 31)
  }

  /** Going back a day and forward again lands on the same day, and vice versa. */
  lemma SuccPred(d: Date)
    requires Valid(d)
    ensures Succ(Pred(d)) == d && Pred(Succ(d)) == d
  {
  }

  /** Nothing lies strictly between a day and the next one. */
  lemma SuccIsNext(d: Date, e: Date)
    requires Valid(d) && Valid(e) && Before(d, e)
    ensures !Before(e, Succ(d))
  {
  }

  /** `n` days before `d`, one `Pred` at a time (Go's `d.AddDate(0, 0, -n)`). */
  function Back(d: Date, n: nat): (r: Date)
    requires Valid(d)
    ensures Valid(r)
  {
    if n == 0 then d else Pred(Back(d, n - 1))
  }

  /** The further back, the earlier: `Back` is strictly decreasing in `n`. */
  lemma {:induction false} BackOrder(d: Date, i: nat, j: nat)
    requires Valid(d) && i < j
    ensures Before(Back(d, j), Back(d, i))
    decreases j
  {
    if j - 1 > i {
      BackOrder(d, i, j - 1);
    }
  }

  lemma BackNotAfter(d: Date, j: nat)
    requires Valid(d)
    ensures !Before(d, Back(d, j))
  {
    if j > 0 { BackOrder(d, 0, j); }
  }

  lemma BackInjective(d: Date, i: nat, j: nat)
    requires Valid(d) && Back(d, i) == Back(d, j)
    ensures i == j
  {
    if i < j { BackOrder(d, i, j); } else if j < i { BackOrder(d, j, i); }
  }

  /** The date as Go's layout "2006-01-02" writes it (the year is written with
      at least four digits, a minus sign in front when negative). */
  function LayoutDate(d: Date): string
  {
    var y := if d.year >= 0 then ZeroPad(Digits(d.year), 4) else "-" + ZeroPad(Digits(-d.year), 4);
    y + "-" + PadInt(d.month, 2) + "-" + PadInt(d.day, 2)
  }
}
