/**
 * The attendance API route: `GET` builds a filter from the optional `date` and
 * `workerId` query parameters and returns the matching records newest first; `POST`
 * is the check-in recorder, a worker lookup, an optional token validation, a
 * duplicate check on `(workerId, date)` and an insert.
 *
 * The attendance collection is the `records` field of an `AttendanceStore`, kept in
 * creation order; the worker collection is the `workers` map from id to current name.
 */
module AttendanceRoute {
  import opened Wrappers
  import opened Text
  import opened Seqs
  import QrAttendance

  type WorkerId = string

  /** An attendance document. `workerName` is a copy of the name at check-in time. */
  datatype Record = Record(
    workerId: WorkerId,
    workerName: string,
    date: string,
    checkInTime: string,
    checkMethod: string)

  /** The JSON body of a check-in: `{ workerId, qrValue, method }`; `None` is a missing
      field. */
  datatype CheckInRequest = CheckInRequest(
    workerId: WorkerId,
    qrValue: Option<string>,
    checkMethod: Option<string>)

  datatype Response =
    | Created(record: Record)          // 201 with the new record
    | Failed(status: nat, error: string)

  const MsgWorkerNotFound: string := "الموظف غير موجود"
  const MsgAlreadyCheckedIn: string := "تم تسجيل الحضور لهذا اليوم بالفعل"
  const MsgRecordFailed: string := "Failed to record attendance"

  /** Only the exact method `'qr'` runs the token validator. */
  predicate IsQr(m: Option<string>) { m == Some("qr") }

  /** `method || 'qr'`: the method written into the record. */
  function StoredMethod(m0: Option<string>): (m: string)
    ensures m != ""
    ensures m0.Some? && m0.value != "" ==> m == m0.value
  {
    if m0.None? || m0.value == "" then "qr" else m0.value
  }

  /** The schema's `enum: ['qr', 'manual']`; any other value fails the insert. */
  predicate IsSchemaMethod(m: string) { m == "qr" || m == "manual" }

  /** The date a check-in is recorded under: the validated token's embedded date for
      `'qr'`, the server's current date otherwise. */
  function CheckInDate(req: CheckInRequest, today: string, mac: QrAttendance.Mac): string {
    if IsQr(req.checkMethod) then QrAttendance.Validate(req.qrValue, today, mac).date else today
  }

  predicate SameDay(r: Record, workerId: WorkerId, date: string) {
    r.workerId == workerId && r.date == date
  }

  predicate HasRecord(records: seq<Record>, workerId: WorkerId, date: string) {
    exists i :: 0 <= i < |records| && SameDay(records[i], workerId, date)
  }

  /** The central invariant: at most one record per `(workerId, date)`. */
  predicate OnePerWorkerDay(records: seq<Record>) {
    forall i, j :: 0 <= i < j < |records| ==>
      !SameDay(records[i], records[j].workerId, records[j].date)
  }

  /** Every record names a known worker and carries a method the schema accepts. */
  predicate WellFormed(records: seq<Record>, workers: map<WorkerId, string>) {
    forall i :: 0 <= i < |records| ==>
      records[i].workerId in workers && IsSchemaMethod(records[i].checkMethod)
  }

  /** Dropping the oldest record keeps the invariant. */
  lemma OnePerWorkerDayTail(records: seq<Record>)
    requires records != [] && OnePerWorkerDay(records)
    ensures OnePerWorkerDay(records[1..])
  {
    var rest := records[1..];
    forall i, j | 0 <= i < j < |rest|
      ensures !SameDay(rest[i], rest[j].workerId, rest[j].date)
    {
      assert rest[i] == records[i + 1] && rest[j] == records[j + 1];
    }
  }

  /** How many records a worker has for a date. */
  function CountFor(records: seq<Record>, workerId: WorkerId, date: string): nat {
    Count(records, r => SameDay(r, workerId, date))
  }

  /** With the invariant, a worker has one record for a date if it has any. */
  lemma {:induction false} CountForAtMostOne(records: seq<Record>, workerId: WorkerId, date: string)
    requires OnePerWorkerDay(records)
    ensures CountFor(records, workerId, date) == if HasRecord(records, workerId, date) then 1 else 0
    decreases |records|
  {
    var p := (r: Record) => SameDay(r, workerId, date);
    if records != [] {
      var rest := records[1..];
      OnePerWorkerDayTail(records);
      CountForAtMostOne(rest, workerId, date);
      assert Filter(records, p) == (if p(records[0]) then [records[0]] else []) + Filter(rest, p);
      if p(records[0]) {
        forall k | 0 <= k < |rest| ensures !SameDay(rest[k], workerId, date) {
          assert rest[k] == records[k + 1];
        }
        assert !HasRecord(rest, workerId, date);
        assert HasRecord(records, workerId, date);
      } else {
        assert HasRecord(records, workerId, date) ==> HasRecord(rest, workerId, date) by {
          if HasRecord(records, workerId, date) {
            var i :| 0 <= i < |records| && SameDay(records[i], workerId, date);
            assert i > 0 && rest[i - 1] == records[i];
          }
        }
        assert HasRecord(rest, workerId, date) ==> HasRecord(records, workerId, date) by {
          if HasRecord(rest, workerId, date) {
            var i :| 0 <= i < |rest| && SameDay(rest[i], workerId, date);
            assert records[i + 1] == rest[i];
          }
        }
      }
    }
  }

  /** The GET filter: a parameter takes part only when it is present and non-empty. */
  predicate MatchesQuery(r: Record, date: Option<string>, workerId: Option<string>) {
    && (date.Some? && date.value != "" ==> r.date == date.value)
    && (workerId.Some? && workerId.value != "" ==> r.workerId == workerId.value)
  }

  /** `GET /api/attendance`: the matching records, newest first. */
  function Query(records: seq<Record>, date: Option<string>, workerId: Option<string>): (r: seq<Record>)
    ensures forall x :: x in r <==> x in records && MatchesQuery(x, date, workerId)
  {
    var f := Filter(records, x => MatchesQuery(x, date, workerId));
    assert forall x :: x in Reverse(f) <==> x in multiset(f);
    Reverse(f)
  }

  /** Without parameters the GET returns every record, newest first. */
  lemma QueryUnfiltered(records: seq<Record>, date: Option<string>, workerId: Option<string>)
    requires date.None? || date == Some("")
    requires workerId.None? || workerId == Some("")
    ensures Query(records, date, workerId) == Reverse(records)
  {
    FilterAll(records, x => MatchesQuery(x, date, workerId));
  }

  /** A record appended later comes earlier in the GET result. */
  lemma QueryNewestFirst(records: seq<Record>, rec: Record, date: Option<string>, workerId: Option<string>)
    requires MatchesQuery(rec, date, workerId)
    ensures Query(records + [rec], date, workerId) == [rec] + Query(records, date, workerId)
  {
    var p := (x: Record) => MatchesQuery(x, date, workerId);
    FilterAppend(records, [rec], p);
    assert Filter([rec], p) == [rec];
    ReverseSnoc(Filter(records, p), rec);
  }

  class AttendanceStore {
    var workers: map<WorkerId, string>
    var records: seq<Record>

    ghost predicate Valid()
      reads this
    {
      OnePerWorkerDay(records) && WellFormed(records, workers)
    }

    constructor(workers: map<WorkerId, string>)
      ensures Valid() && this.workers == workers && records == []
    {
      this.workers := workers;
      records := [];
    }

    /** `Attendance.findOne({ workerId, date })` */
    method FindExisting(workerId: WorkerId, date: string) returns (found: bool)
      ensures found <==> HasRecord(records, workerId, date)
    {
      var i := 0;
      found := false;
      while i < |records|
        invariant 0 <= i <= |records|
        invariant !found
        invariant forall k :: 0 <= k < i ==> !SameDay(records[k], workerId, date)
      {
        if SameDay(records[i], workerId, date) {
          found := true;
          return;
        }
        i := i + 1;
      }
    }

    /** `POST /api/attendance`. `today` is the server's local date and `time` its
        wall-clock time; `mac` is the keyed hash of the token scheme. */
    method Post(req: CheckInRequest, today: string, time: string, mac: QrAttendance.Mac)
      returns (resp: Response)
      requires Valid()
      modifies this`records
      ensures Valid()
      // 1. the worker must exist; nothing else is looked at otherwise
      ensures req.workerId !in workers ==>
                resp == Failed(404, MsgWorkerNotFound) && records == old(records)
      // 2. with method 'qr', an invalid token is refused with the validator's message
      ensures req.workerId in workers && IsQr(req.checkMethod)
              && !QrAttendance.Validate(req.qrValue, today, mac).valid ==>
                resp == Failed(400, QrAttendance.Validate(req.qrValue, today, mac).message)
                && records == old(records)
      // 3. otherwise a second check-in for the same day is refused
      ensures req.workerId in workers
              && (IsQr(req.checkMethod) ==> QrAttendance.Validate(req.qrValue, today, mac).valid)
              && HasRecord(old(records), req.workerId, CheckInDate(req, today, mac)) ==>
                resp == Failed(400, MsgAlreadyCheckedIn) && records == old(records)
      // 4. a method outside the schema's enum makes the insert fail
      ensures req.workerId in workers
              && (IsQr(req.checkMethod) ==> QrAttendance.Validate(req.qrValue, today, mac).valid)
              && !HasRecord(old(records), req.workerId, CheckInDate(req, today, mac))
              && !IsSchemaMethod(StoredMethod(req.checkMethod)) ==>
                resp == Failed(500, MsgRecordFailed) && records == old(records)
      // 5. success appends exactly one record
      ensures resp.Created? <==>
                && req.workerId in workers
                && (IsQr(req.checkMethod) ==> QrAttendance.Validate(req.qrValue, today, mac).valid)
                && !HasRecord(old(records), req.workerId, CheckInDate(req, today, mac))
                && IsSchemaMethod(StoredMethod(req.checkMethod))
      ensures resp.Created? ==>
                && resp.record == Record(req.workerId, workers[req.workerId],
                                         CheckInDate(req, today, mac), time, StoredMethod(req.checkMethod))
                && records == old(records) + [resp.record]
      ensures resp.Failed? ==> records == old(records)
    {
      if req.workerId !in workers {
        return Failed(404, MsgWorkerNotFound);
      }
      var attendanceDate: string;
      if req.checkMethod == Some("qr") {
        var validation := QrAttendance.Validate(req.qrValue, today, mac);
        if !validation.valid {
          return Failed(400, validation.message);
        }
        attendanceDate := validation.date;
      } else {
        attendanceDate := today;
      }
      var existing := FindExisting(req.workerId, attendanceDate);
      if existing {
        return Failed(400, MsgAlreadyCheckedIn);
      }
      var stored := StoredMethod(req.checkMethod);
      if !IsSchemaMethod(stored) {
        return Failed(500, MsgRecordFailed);
      }
      var record := Record(req.workerId, workers[req.workerId], attendanceDate, time, stored);
      records := records + [record];
      resp := Created(record);
    }
  }

  /** Every accepted check-in is for today: the QR path records the token's date, which
      the validator only accepts when it is today; the other paths record today. */
  lemma CheckInDateIsToday(req: CheckInRequest, today: string, mac: QrAttendance.Mac)
    requires IsQr(req.checkMethod) ==> QrAttendance.Validate(req.qrValue, today, mac).valid
    ensures CheckInDate(req, today, mac) == today
  {
  }

  /** Any method other than `'qr'` (a missing one included) is decided without the token:
      two requests differing only in `qrValue` get the same date. A missing method is
      stored as `'qr'`. */
  lemma NonQrIgnoresToken(req: CheckInRequest, qr: Option<string>, today: string, mac: QrAttendance.Mac)
    requires !IsQr(req.checkMethod)
    ensures CheckInDate(req, today, mac) == CheckInDate(req.(qrValue := qr), today, mac) == today
    ensures req.checkMethod.None? ==> StoredMethod(req.checkMethod) == "qr"
  {
  }

  /** Idempotent check-in: after a first manual check-in succeeds, a second one for the
      same worker on the same day fails and the store holds exactly one record for that
      worker and day. */
  method CheckInTwice(store: AttendanceStore, id: WorkerId, today: string, t1: string, t2: string,
                      mac: QrAttendance.Mac)
    returns (first: Response, second: Response)
    requires store.Valid()
    requires id in store.workers && !HasRecord(store.records, id, today)
    modifies store
    ensures first.Created? && second == Failed(400, MsgAlreadyCheckedIn)
    ensures CountFor(store.records, id, today) == 1
  {
    var req := CheckInRequest(id, None, Some("manual"));
    first := store.Post(req, today, t1, mac);
    assert HasRecord(store.records, id, today) by {
      assert store.records[|store.records| - 1] == first.record;
    }
    second := store.Post(req, today, t2, mac);
    CountForAtMostOne(store.records, id, today);
  }
}
