/**
 * The date display shared by the two attendance pages: `fmtDate` splits an ISO date
 * on `-` and prints the pieces in reverse order separated by `/`. A missing piece
 * prints as `undefined`, as a template literal does.
 */
module DateDisplay {
  import opened Text
  import QrAttendance

  /** `parts[i]` inside a template literal. */
  function PieceOr(parts: seq<string>, i: nat): string {
    if i < |parts| then parts[i] else "undefined"
  }

  /** `fmtDate(d)`: `${parts[2]}/${parts[1]}/${parts[0]}` with `parts = d.split('-')`. */
  function FmtDate(d: string): string {
    var parts := Split(d, '-');
    PieceOr(parts, 2) + "/" + PieceOr(parts, 1) + "/" + PieceOr(parts, 0)
  }

  /** Three hyphen-free pieces come back in reverse order. */
  lemma FmtDatePieces(y: string, m: string, d: string)
    requires '-' !in y && '-' !in m && '-' !in d
    ensures FmtDate(y + "-" + m + "-" + d) == d + "/" + m + "/" + y
  {
    SplitThree(y, m, d, '-');
  }

  /** `YYYY-MM-DD` becomes `DD/MM/YYYY`: ten characters, slashes at positions 2 and 5,
      the day, month and year copied from the input. */
  lemma FmtDateIso(date: string)
    requires QrAttendance.DateShaped(date)
    ensures FmtDate(date) == date[8..10] + "/" + date[5..7] + "/" + date[..4]
    ensures |FmtDate(date)| == 10 && FmtDate(date)[2] == '/' && FmtDate(date)[5] == '/'
  {
    var y, m, d := date[..4], date[5..7], date[8..10];
    assert date == y + "-" + m + "-" + d;
    assert '-' !in y by { assert forall i :: 0 <= i < 4 ==> y[i] == date[i]; }
    assert '-' !in m by { assert m[0] == date[5] && m[1] == date[6]; }
    assert '-' !in d by { assert d[0] == date[8] && d[1] == date[9]; }
    FmtDatePieces(y, m, d);
  }

  /** The display is an inverse pair with the ISO form: distinct ISO dates display
      differently. */
  lemma FmtDateInjective(a: string, b: string)
    requires QrAttendance.DateShaped(a) && QrAttendance.DateShaped(b)
    requires FmtDate(a) == FmtDate(b)
    ensures a == b
  {
    FmtDateIso(a);
    FmtDateIso(b);
    var fa := FmtDate(a);
    assert a[8..10] == fa[..2] == b[8..10];
    assert a[5..7] == fa[3..5] == b[5..7];
    assert a[..4] == fa[6..] == b[..4];
    assert a == a[..4] + "-" + a[5..7] + "-" + a[8..10];
    assert b == b[..4] + "-" + b[5..7] + "-" + b[8..10];
  }

  /** A string without hyphens has one piece, so the day and month print as `undefined`. */
  lemma FmtDateNoHyphen(d: string)
    requires '-' !in d
    ensures FmtDate(d) == "undefined/undefined/" + d
  {
  }
}

/**
 * The admin attendance page: the search filter, the three counters and the query
 * string of its attendance request, over the list the attendance route returns.
 */
module AdminAttendance {
  import opened Wrappers
  import opened Text
  import opened Seqs
  import opened AttendanceRoute

  /** `r.workerName.toLowerCase().includes(search.toLowerCase())` */
  predicate Matches(r: Record, search: string) {
    Contains(ToLower(r.workerName), ToLower(search))
  }

  /** `filtered` */
  function Filtered(records: seq<Record>, search: string): (r: seq<Record>)
    ensures |r| <= |records|
    ensures forall x :: x in r <==> x in records && Matches(x, search)
  {
    Filter(records, x => Matches(x, search))
  }

  /** An empty search shows every record. */
  lemma FilteredEmptySearch(records: seq<Record>)
    ensures Filtered(records, "") == records
  {
    forall i | 0 <= i < |records| ensures Matches(records[i], "") {
      ContainsEmpty(ToLower(records[i].workerName));
    }
    FilterAll(records, x => Matches(x, ""));
  }

  /** The search ignores the letter case of the search text. */
  lemma FilteredCaseInsensitive(records: seq<Record>, search: string)
    ensures Filtered(records, ToLower(search)) == Filtered(records, search)
  {
    ToLowerIdempotent(search);
    FilterExt(records, x => Matches(x, ToLower(search)), x => Matches(x, search));
  }

  /** The search keeps the fetched order: filtering a list split in two filters each
      part and puts the results back in the same order. */
  lemma FilteredKeepsOrder(a: seq<Record>, b: seq<Record>, search: string)
    ensures Filtered(a + b, search) == Filtered(a, search) + Filtered(b, search)
  {
    FilterAppend(a, b, x => Matches(x, search));
  }

  /** `todayCount`: `today` is the date the QR endpoint returned. */
  function TodayCount(records: seq<Record>, today: string): nat {
    Count(records, (r: Record) => r.date == today)
  }

  function QrCount(records: seq<Record>): nat {
    Count(records, (r: Record) => r.checkMethod == "qr")
  }

  function ManualCount(records: seq<Record>): nat {
    Count(records, (r: Record) => r.checkMethod == "manual")
  }

  /** The two method counters never exceed the list, and add up to it when every method
      is one the schema accepts, which holds for every list the store can hold. */
  lemma MethodCounts(records: seq<Record>)
    ensures QrCount(records) + ManualCount(records) <= |records|
    ensures (forall i :: 0 <= i < |records| ==> IsSchemaMethod(records[i].checkMethod)) ==>
              QrCount(records) + ManualCount(records) == |records|
  {
    CountDisjoint(records, (r: Record) => r.checkMethod == "qr", (r: Record) => r.checkMethod == "manual");
  }

  /** The workers with a record on a date. */
  ghost function WorkersOn(records: seq<Record>, date: string): set<WorkerId> {
    set i | 0 <= i < |records| && records[i].date == date :: records[i].workerId
  }

  /** With one record per worker and day, the records of a day are as many as the
      workers who have one. */
  lemma {:induction false} TodayCountIsWorkers(records: seq<Record>, today: string)
    requires OnePerWorkerDay(records)
    ensures TodayCount(records, today) == |WorkersOn(records, today)|
    decreases |records|
  {
    if records != [] {
      var rest := records[1..];
      OnePerWorkerDayTail(records);
      TodayCountIsWorkers(rest, today);
      var p := (r: Record) => r.date == today;
      assert Filter(records, p) == (if p(records[0]) then [records[0]] else []) + Filter(rest, p);
      WorkersOnCons(records, today);
      if p(records[0]) {
        FirstNotLater(records, today);
      }
    }
  }

  /** The workers of a day, split into the oldest record and the rest. */
  lemma WorkersOnCons(records: seq<Record>, today: string)
    requires records != []
    ensures WorkersOn(records, today) ==
              (if records[0].date == today then {records[0].workerId} else {}) + WorkersOn(records[1..], today)
  {
    var rest := records[1..];
    forall x | x in WorkersOn(records, today)
      ensures x in (if records[0].date == today then {records[0].workerId} else {}) + WorkersOn(rest, today)
    {
      var i :| 0 <= i < |records| && records[i].date == today && records[i].workerId == x;
      if i > 0 { assert rest[i - 1] == records[i]; }
    }
    forall x | x in WorkersOn(rest, today) ensures x in WorkersOn(records, today) {
      var i :| 0 <= i < |rest| && rest[i].date == today && rest[i].workerId == x;
      assert records[i + 1] == rest[i];
    }
  }

  /** The oldest record's worker has no later record on the same day. */
  lemma FirstNotLater(records: seq<Record>, today: string)
    requires records != [] && OnePerWorkerDay(records) && records[0].date == today
    ensures records[0].workerId !in WorkersOn(records[1..], today)
  {
    var rest := records[1..];
    forall i | 0 <= i < |rest| && rest[i].date == today
      ensures rest[i].workerId != records[0].workerId
    {
      assert rest[i] == records[i + 1];
    }
  }

  /** The day's count never exceeds the number of workers: each worker checks in at most
      once a day, and only known workers check in. */
  lemma TodayCountBounded(records: seq<Record>, workers: map<WorkerId, string>, today: string)
    requires OnePerWorkerDay(records) && WellFormed(records, workers)
    ensures TodayCount(records, today) <= |workers|
  {
    TodayCountIsWorkers(records, today);
    var w := WorkersOn(records, today);
    assert w <= workers.Keys;
    SubsetSize(w, workers.Keys);
  }

  lemma {:induction false} SubsetSize<T>(a: set<T>, b: set<T>)
    requires a <= b
    ensures |a| <= |b|
    decreases |a|
  {
    if a != {} {
      var x :| x in a;
      SubsetSize(a - {x}, b - {x});
    }
  }

  /** The query string of `fetchData`: a filter is sent only when it is non-empty. */
  function QueryParams(filterDate: string, filterWorker: string): (ps: seq<(string, string)>)
    ensures |ps| <= 2
  {
    (if filterDate != "" then [("date", filterDate)] else [])
    + (if filterWorker != "" then [("workerId", filterWorker)] else [])
  }

  /** `searchParams.get(name)` on the server side. */
  function Lookup(ps: seq<(string, string)>, name: string): Option<string> {
    if ps == [] then None else if ps[0].0 == name then Some(ps[0].1) else Lookup(ps[1..], name)
  }

  /** The page's query string carries a filter exactly when it is non-empty, so the
      route filters by exactly the non-empty filters. */
  lemma QueryParamsRoundTrip(records: seq<Record>, filterDate: string, filterWorker: string)
    ensures Lookup(QueryParams(filterDate, filterWorker), "date")
              == (if filterDate != "" then Some(filterDate) else None)
    ensures Lookup(QueryParams(filterDate, filterWorker), "workerId")
              == (if filterWorker != "" then Some(filterWorker) else None)
    ensures Query(records, Lookup(QueryParams(filterDate, filterWorker), "date"),
                  Lookup(QueryParams(filterDate, filterWorker), "workerId"))
            == Query(records, Some(filterDate), Some(filterWorker))
  {
    var ps := QueryParams(filterDate, filterWorker);
    var tail := if filterWorker != "" then [("workerId", filterWorker)] else [];
    assert Lookup(tail, "date") == None;
    assert Lookup(tail, "workerId") == (if filterWorker != "" then Some(filterWorker) else None);
    if filterDate != "" {
      assert ps == [("date", filterDate)] + tail;
      assert ps[1..] == tail;
    } else {
      assert ps == tail;
    }
    FilterExt(records, x => MatchesQuery(x, Lookup(ps, "date"), Lookup(ps, "workerId")),
              x => MatchesQuery(x, Some(filterDate), Some(filterWorker)));
  }
}

/**
 * The worker's home page: the worker's own records as the attendance route returns
 * them, the "checked in today" flag, the first ten shown, and the counters.
 */
module WorkerHome {
  import opened Wrappers
  import opened Seqs
  import opened AttendanceRoute

  datatype Home = Home(shown: seq<Record>, todayMarked: bool)

  /** `att.some(a => a.date === today)` */
  predicate AnyOn(att: seq<Record>, today: string) {
    exists i :: 0 <= i < |att| && att[i].date == today
  }

  /** The fetch handler: `None` is a response that is not an array, which leaves the
      initial empty list and `false` in place. */
  function Load(att: Option<seq<Record>>, today: string): (h: Home)
    ensures att.None? ==> h == Home([], false)
    ensures att.Some? ==> h.shown == Take(att.value, 10)
    ensures att.Some? ==> (h.todayMarked <==> exists r :: r in att.value && r.date == today)
  {
    match att
    case None => Home([], false)
    case Some(a) => Home(Take(a, 10), AnyOn(a, today))
  }

  function TotalCount(h: Home): nat { |h.shown| }

  function QrCount(h: Home): nat { Count(h.shown, (r: Record) => r.checkMethod == "qr") }

  /** The counters are taken over the shown list: QR ≤ total ≤ 10. */
  lemma CountsBounded(att: Option<seq<Record>>, today: string)
    ensures QrCount(Load(att, today)) <= TotalCount(Load(att, today)) <= 10
  {
  }

  /** The scan prompt card is shown only while today is not marked. */
  predicate ShowScanPrompt(h: Home) { !h.todayMarked }

  /** The flag looks at the whole list, not the ten shown: with eleven records of which
      only the last is today's, the flag is set though no shown record is today's. */
  lemma TodayMarkedBeyondShown(old10: Record, todays: Record, today: string)
    requires old10.date != today && todays.date == today
    ensures var h := Load(Some(seq(10, _ => old10) + [todays]), today);
            h.todayMarked && |h.shown| == 10 && forall r :: r in h.shown ==> r.date != today
  {
    var a := seq(10, _ => old10) + [todays];
    assert a[10].date == today;
    assert Take(a, 10) == seq(10, _ => old10);
  }

  /** The home page reflects the store: fetching the worker's own records, the flag is
      set exactly when the store holds a record for that worker today, so the scan prompt
      disappears after a check-in. */
  lemma HomeReflectsStore(records: seq<Record>, id: WorkerId, today: string)
    requires id != ""
    ensures Load(Some(Query(records, None, Some(id))), today).todayMarked <==> HasRecord(records, id, today)
  {
    var q := Query(records, None, Some(id));
    if HasRecord(records, id, today) {
      var i :| 0 <= i < |records| && SameDay(records[i], id, today);
      assert records[i] in q;
    }
    if AnyOn(q, today) {
      var j :| 0 <= j < |q| && q[j].date == today;
      assert q[j] in records;
      var i :| 0 <= i < |records| && records[i] == q[j];
      assert SameDay(records[i], id, today);
    }
  }
}
