/**
 * The date-keyed intake log (app.py lines 127-148): overwrite by date, the
 * window of the seven most recent dates and the average intake over it.
 * A date is its day number, so the order of ISO date strings is the order of integers.
 */
module Ledger {

  datatype Option<T> = None | Some(value: T)

  type Date = int

  /** What was saved for one day: the selected food names and their calorie total. */
  datatype Entry = Entry(meals: seq<string>, intake: real)

  type Log = map<Date, Entry>

  /** Number of most recent days the chart shows. */
  const WindowDays: nat := 7

  /** The stored log; a missing or unreadable store reads as the empty log. */
  function LoadLog(stored: Option<Log>): (r: Log)
    ensures stored.None? ==> r == map[]
    ensures stored.Some? ==> r == stored.value
  {
    match stored
    case None => map[]
    case Some(log) => log
  }

  /** Saves `e` under `today`, replacing any entry for that date. */
  function Record(log: Log, today: Date, e: Entry): (r: Log)
    ensures today in r && r[today] == e
    ensures r.Keys == log.Keys + {today}
    ensures forall d :: d in log && d != today ==> r[d] == log[d]
  {
    log[today := e]
  }

  /** Saving twice on one date keeps only the later entry. */
  lemma RecordTwice(log: Log, today: Date, first: Entry, second: Entry)
    ensures Record(Record(log, today, first), today, second) == Record(log, today, second)
  {
  }

  /** Saving adds a date only when it was not in the log already. */
  lemma RecordSize(log: Log, today: Date, e: Entry)
    ensures |Record(log, today, e)| == if today in log then |log| else |log| + 1
  {
    if today in log {
      assert Record(log, today, e).Keys == log.Keys;
    } else {
      assert Record(log, today, e).Keys == log.Keys + {today};
    }
  }

  predicate Ascending(s: seq<Date>)
  {
    forall i, j :: 0 <= i < j < |s| ==> s[i] < s[j]
  }

  lemma {:induction false} MaxExists(keys: set<Date>)
    requires keys != {}
    ensures exists m :: m in keys && forall d :: d in keys ==> d <= m
    decreases |keys|
  {
    var x := PickElement(keys);
    var rest := keys - {x};
    if rest != {} {
      MaxExists(rest);
      var m :| m in rest && forall d :: d in rest ==> d <= m;
      var top := if x <= m then m else x;
      forall d | d in keys ensures d <= top {
        if d != x {
          assert d in rest;
        }
      }
    } else {
      forall d | d in keys ensures d <= x {
        assert d !in rest;
      }
    }
  }

  /** Some element of a non-empty set. */
  lemma PickElement<T>(keys: set<T>) returns (x: T)
    requires keys != {}
    ensures x in keys
  {
    x :| x in keys;
  }

  /** The greatest date of a non-empty set. */
  function MaxDate(keys: set<Date>): (m: Date)
    requires keys != {}
    ensures m in keys && forall d :: d in keys ==> d <= m
  {
    MaxExists(keys);
    var m :| m in keys && forall d :: d in keys ==> d <= m;
    m
  }

  /** The dates of a set in ascending order. */
  function SortedDates(keys: set<Date>): (r: seq<Date>)
    ensures |r| == |keys|
    ensures forall d :: d in r <==> d in keys
    ensures Ascending(r)
    decreases |keys|
  {
    if keys == {} then []
    else
      var m := MaxDate(keys);
      SortedDates(keys - {m}) + [m]
  }

  /** The chart window: the most recent dates of the log, at most seven, oldest first. */
  function Window(log: Log): (r: seq<Date>)
    ensures |r| == if |log| < WindowDays then |log| else WindowDays
    ensures Ascending(r)
    ensures forall d :: d in r ==> d in log
    ensures forall d, e :: d in log && d !in r && e in r ==> d < e
  {
    var ks := SortedDates(log.Keys);
    if |ks| <= WindowDays then ks
    else
      var r := ks[|ks| - WindowDays..];
      assert forall d, e :: d in log && d !in r && e in r ==> d < e by {
        forall d, e | d in log && d !in r && e in r ensures d < e {
          var i :| 0 <= i < |ks| && ks[i] == d;
          var j :| 0 <= j < |r| && r[j] == e;
          assert ks[|ks| - WindowDays + j] == e;
        }
      }
      r
  }

  /** A non-empty log always shows at least one day. */
  lemma WindowNonEmpty(log: Log)
    requires log != map[]
    ensures |Window(log)| > 0
  {
    var d := PickElement(log.Keys);
  }

  /** The intake recorded for each of the given dates. */
  function Intakes(log: Log, days: seq<Date>): (r: seq<real>)
    requires forall i :: 0 <= i < |days| ==> days[i] in log
    ensures |r| == |days|
    ensures forall i :: 0 <= i < |days| ==> r[i] == log[days[i]].intake
  {
    seq(|days|, i requires 0 <= i < |days| => log[days[i]].intake)
  }

  function Sum(xs: seq<real>): (r: real)
  {
    if xs == [] then 0.0 else xs[0] + Sum(xs[1..])
  }

  function MinOf(xs: seq<real>): (r: real)
    requires xs != []
    ensures r in xs && forall i :: 0 <= i < |xs| ==> r <= xs[i]
  {
    if |xs| == 1 then xs[0]
    else
      var m := MinOf(xs[1..]);
      assert forall i :: 1 <= i < |xs| ==> xs[i] == xs[1..][i - 1];
      if xs[0] <= m then xs[0] else m
  }

  function MaxOf(xs: seq<real>): (r: real)
    requires xs != []
    ensures r in xs && forall i :: 0 <= i < |xs| ==> xs[i] <= r
  {
    if |xs| == 1 then xs[0]
    else
      var m := MaxOf(xs[1..]);
      assert forall i :: 1 <= i < |xs| ==> xs[i] == xs[1..][i - 1];
      if xs[0] >= m then xs[0] else m
  }

  /** Mean of a non-empty list of intakes. */
  function Average(xs: seq<real>): (r: real)
    requires xs != []
  {
    Sum(xs) / (|xs| as real)
  }

  lemma {:induction false} SumBounds(xs: seq<real>, lo: real, hi: real)
    requires forall i :: 0 <= i < |xs| ==> lo <= xs[i] <= hi
    ensures (|xs| as real) * lo <= Sum(xs) <= (|xs| as real) * hi
  {
    if xs != [] {
      SumBounds(xs[1..], lo, hi);
    }
  }

  /** The average lies between the smallest and the largest intake. */
  lemma AverageBetween(xs: seq<real>)
    requires xs != []
    ensures MinOf(xs) <= Average(xs) <= MaxOf(xs)
  {
    var n := |xs| as real;
    SumBounds(xs, MinOf(xs), MaxOf(xs));
    QuotientBounds(Sum(xs), n, MinOf(xs), MaxOf(xs));
  }

  lemma QuotientBounds(s: real, n: real, lo: real, hi: real)
    requires n > 0.0 && n * lo <= s <= n * hi
    ensures lo <= s / n <= hi
  {
    var q := s / n;
    assert q * n == s;
  }

  /** What the chart shows: the window's dates, their intakes and the average. */
  datatype Summary = Summary(days: seq<Date>, intakes: seq<real>, average: real)

  /** The weekly chart, shown only when the log has an entry. */
  function WeeklySummary(log: Log): (r: Option<Summary>)
    ensures r.None? <==> log == map[]
    ensures r.Some? ==>
      && r.value.days == Window(log)
      && |r.value.intakes| == |r.value.days| > 0
      && (forall i :: 0 <= i < |r.value.days| ==> r.value.intakes[i] == log[r.value.days[i]].intake)
      && r.value.average == Average(r.value.intakes)
      && MinOf(r.value.intakes) <= r.value.average <= MaxOf(r.value.intakes)
  {
    if log == map[] then None
    else
      var days := Window(log);
      WindowNonEmpty(log);
      var intakes := Intakes(log, days);
      AverageBetween(intakes);
      Some(Summary(days, intakes, Average(intakes)))
  }
}
