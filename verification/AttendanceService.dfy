/**
 The attendance collection, keyed by employee and UTC day, and the four requests that update it.
 A request reads the clock twice: once to find its day, once to stamp the record.
 */
module AttendanceService {
  import opened Outcomes
  import opened Attendance

  type Key = (nat, int)

  datatype Request = Request(employee: nat, kind: Kind, dayAt: int, at: int) {
    function Key(): Key { (employee, DayOf(dayAt)) }
    function Event(): Event { Attendance.Event(kind, at) }
  }

  function Lookup(records: map<Key, Record>, key: Key): Option<Record> {
    if key in records then Some(records[key]) else None
  }

  function Handle(records: map<Key, Record>, q: Request): map<Key, Record> {
    match Apply(Lookup(records, q.Key()), q.kind, q.at)
    case Success(r) => records[q.Key() := r]
    case Failure(_) => records
  }

  function HandleAll(requests: seq<Request>): map<Key, Record> {
    if requests == [] then map[]
    else Handle(HandleAll(requests[..|requests| - 1]), requests[|requests| - 1])
  }

  /** The requests that concern one record. */
  function Select(requests: seq<Request>, key: Key): seq<Event> {
    if requests == [] then []
    else
      var q := requests[|requests| - 1];
      Select(requests[..|requests| - 1], key) + if q.Key() == key then [q.Event()] else []
  }

  /** One clock that never runs backwards, read in turn by each request. */
  ghost predicate ClockRuns(requests: seq<Request>) {
    && (forall i :: 0 <= i < |requests| ==> requests[i].dayAt <= requests[i].at)
    && (forall i, j :: 0 <= i < j < |requests| ==> requests[i].at <= requests[j].dayAt)
  }

  /** Records are independent: each holds what its own requests alone would have made it. */
  lemma {:induction false} RecordsAreIndependent(requests: seq<Request>, key: Key)
    ensures Lookup(HandleAll(requests), key) == After(Select(requests, key))
  {
    if requests != [] {
      var before, q := requests[..|requests| - 1], requests[|requests| - 1];
      RecordsAreIndependent(before, key);
      if q.Key() == key {
        assert Select(requests, key)[..|Select(before, key)|] == Select(before, key);
      } else {
        assert Select(requests, key) == Select(before, key);
      }
    }
  }

  lemma {:induction false} SelectIsOrdered(requests: seq<Request>, key: Key)
    requires ClockRuns(requests)
    ensures Ordered(Select(requests, key))
    ensures Select(requests, key) != [] ==>
      requests != [] && LastAt(Select(requests, key)) <= requests[|requests| - 1].at
  {
    if requests != [] {
      var before, q := requests[..|requests| - 1], requests[|requests| - 1];
      SelectIsOrdered(before, key);
      if before != [] {
        assert requests[|before| - 1].at <= requests[|before|].dayAt;
      }
      assert q.dayAt <= q.at;
    }
  }

  lemma {:induction false} StampsFrom(history: seq<Event>, from: int)
    requires forall i :: 0 <= i < |history| ==> history[i].at >= from
    ensures After(history).Some? && After(history).value.checkInAt.Some? ==> After(history).value.checkInAt.value >= from
  {
    if history != [] {
      StampsFrom(history[..|history| - 1], from);
    }
  }

  function DayStart(day: int): int {
    day * MS_PER_DAY
  }

  lemma DayBounds(instant: int)
    ensures DayStart(DayOf(instant)) <= instant < DayStart(DayOf(instant)) + MS_PER_DAY
  {
  }

  /** A record is stamped from its day's first instant on. */
  lemma {:induction false} SelectFromDay(requests: seq<Request>, key: Key)
    requires ClockRuns(requests)
    ensures forall i :: 0 <= i < |Select(requests, key)| ==> Select(requests, key)[i].at >= DayStart(key.1)
  {
    if requests != [] {
      var before, q := requests[..|requests| - 1], requests[|requests| - 1];
      SelectFromDay(before, key);
      DayBounds(q.dayAt);
      assert q.dayAt <= q.at;
    }
  }

  /**
   Every stored record that is checked out carries non-negative minutes that add up to its whole
   length in minutes or one less.
   */
  lemma StoredMinutes(requests: seq<Request>, key: Key)
    requires ClockRuns(requests) && key in HandleAll(requests)
    ensures var r := HandleAll(requests)[key];
            r.checkInAt.Some? && (r.checkOutAt.Some? ==> MinutesFit(r))
  {
    RecordsAreIndependent(requests, key);
    SelectIsOrdered(requests, key);
    AlwaysKept(Select(requests, key));
  }

  /** What a record says was worked and rested, in minutes. */
  function Credit(r: Record): int {
    (if r.workingMinutes.Some? then r.workingMinutes.value else 0) + if r.breakMinutes.Some? then r.breakMinutes.value else 0
  }

  /** The record is checked out, with a stamp less than `late` milliseconds past its day's end. */
  predicate StampedWithin(records: map<Key, Record>, key: Key, late: nat) {
    && key in records && records[key].checkOutAt.Some?
    && records[key].checkOutAt.value < DayStart(key.1) + MS_PER_DAY + late
  }

  /** The most whole minutes between a day's first instant and `late` milliseconds past its end. */
  function MostMinutes(late: nat): int {
    (MS_PER_DAY + late - 1) / MS_PER_MINUTE
  }

  /** A record checked out on its own day credits at most 1439 minutes; a late stamp can only add the delay. */
  lemma DayFits(requests: seq<Request>, key: Key, late: nat)
    requires ClockRuns(requests) && StampedWithin(HandleAll(requests), key, late)
    ensures var r := HandleAll(requests)[key];
            && r.workingMinutes.Some? && r.breakMinutes.Some?
            && Credit(r) == r.workingMinutes.value + r.breakMinutes.value <= MostMinutes(late)
    ensures late == 0 ==> MostMinutes(late) == 1439
  {
    StoredMinutes(requests, key);
    RecordsAreIndependent(requests, key);
    SelectFromDay(requests, key);
    StampsFrom(Select(requests, key), DayStart(key.1));
  }

  lemma {:induction false} StampOnDay(requests: seq<Request>, key: Key)
    requires forall i :: 0 <= i < |requests| && requests[i].Key() == key && requests[i].kind == CheckOut ==>
               requests[i].dayAt == requests[i].at
    requires key in HandleAll(requests) && HandleAll(requests)[key].checkOutAt.Some?
    ensures DayOf(HandleAll(requests)[key].checkOutAt.value) == key.1
  {
    var before, q := HandleAll(requests[..|requests| - 1]), requests[|requests| - 1];
    if key in before && before[key].checkOutAt.Some? {
      StampOnDay(requests[..|requests| - 1], key);
    } else {
      assert q.Key() == key && q.kind == CheckOut;
    }
  }

  /** A record whose check-outs read the clock once, for the day and for the stamp, credits at most 1439 minutes. */
  lemma OneReadingFits(requests: seq<Request>, key: Key)
    requires ClockRuns(requests)
    requires forall i :: 0 <= i < |requests| && requests[i].Key() == key && requests[i].kind == CheckOut ==>
               requests[i].dayAt == requests[i].at
    requires key in HandleAll(requests) && HandleAll(requests)[key].checkOutAt.Some?
    ensures Credit(HandleAll(requests)[key]) <= 1439
  {
    StampOnDay(requests, key);
    DayBounds(HandleAll(requests)[key].checkOutAt.value);
    DayFits(requests, key, 0);
  }

  /** Check in with the day, read the day just before midnight, and stamp the check-out `late` past it. */
  function LongDay(key: Key, late: nat): seq<Request> {
    var start := DayStart(key.1);
    [Request(key.0, CheckIn, start, start),
     Request(key.0, CheckOut, start + MS_PER_DAY - 1, start + MS_PER_DAY - 1 + late)]
  }

  /** Such a day credits all of it: 1439 minutes with one clock reading, 1440 when the stamp falls on midnight. */
  lemma MidnightOverflows(key: Key, late: nat)
    ensures ClockRuns(LongDay(key, late))
    ensures StampedWithin(HandleAll(LongDay(key, late)), key, late)
    ensures Credit(HandleAll(LongDay(key, late))[key]) == MostMinutes(late)
    ensures MostMinutes(1) == 1440
  {
    var a, b := LongDay(key, late)[0], LongDay(key, late)[1];
    assert a.Key() == key && b.Key() == key;
    assert [a, b][..1] == [a] && [a][..0] == [];
    assert HandleAll([a]) == Handle(map[], a);
    assert HandleAll([a, b]) == Handle(HandleAll([a]), b);
  }

  /** Over all runs, records of this key that are checked out in time never credit more than `bound`. */
  ghost predicate BoundsCredit(key: Key, late: nat, bound: int) {
    forall requests :: ClockRuns(requests) && StampedWithin(HandleAll(requests), key, late) ==>
      Credit(HandleAll(requests)[key]) <= bound
  }

  lemma CreditBoundIsExact(key: Key, late: nat, bound: int)
    ensures BoundsCredit(key, late, bound) <==> bound >= MostMinutes(late)
  {
    if bound >= MostMinutes(late) {
      forall requests | ClockRuns(requests) && StampedWithin(HandleAll(requests), key, late)
        ensures Credit(HandleAll(requests)[key]) <= bound
      {
        DayFits(requests, key, late);
      }
    } else {
      MidnightOverflows(key, late);
    }
  }

  /** The search for the first break without an end. */
  method FindOpen(breaks: seq<BreakEntry>) returns (found: Option<nat>)
    ensures found == FirstOpen(breaks)
  {
    for i := 0 to |breaks|
      invariant forall j :: 0 <= j < i ==> !breaks[j].Open()
    {
      if breaks[i].Open() {
        return Some(i);
      }
    }
    found := None;
  }

  /** The fold over the breaks that have an end. */
  method SumClosed(breaks: seq<BreakEntry>) returns (ms: int)
    ensures ms == ClosedMs(breaks)
  {
    ms := 0;
    for i := 0 to |breaks|
      invariant ms == ClosedMs(breaks[..i])
    {
      assert breaks[..i + 1][..i] == breaks[..i];
      if breaks[i].end.Some? {
        ms := ms + (breaks[i].end.value - breaks[i].start);
      }
    }
    assert breaks[..|breaks|] == breaks;
  }

  class Service {
    var records: map<Key, Record>

    constructor ()
      ensures records == HandleAll([])
    {
      records := map[];
    }

    method RecordCheckIn(employee: nat, dayAt: int, at: int) returns (result: Result<Record, Error>)
      modifies this
      ensures result == Apply(Lookup(old(records), (employee, DayOf(dayAt))), CheckIn, at)
      ensures records == Handle(old(records), Request(employee, CheckIn, dayAt, at))
    {
      var key := (employee, DayOf(dayAt));
      var existing := Lookup(records, key);
      if existing.Some? && existing.value.checkInAt.Some? {
        return Failure(AlreadyCheckedIn);
      }
      var record := if existing.Some? then existing.value else BLANK;
      record := record.(checkInAt := Some(at), status := Working);
      records := records[key := record];
      result := Success(record);
    }

    method RecordStartBreak(employee: nat, dayAt: int, at: int) returns (result: Result<Record, Error>)
      modifies this
      ensures result == Apply(Lookup(old(records), (employee, DayOf(dayAt))), StartBreak, at)
      ensures records == Handle(old(records), Request(employee, StartBreak, dayAt, at))
    {
      var key := (employee, DayOf(dayAt));
      if key !in records || records[key].checkInAt.None? {
        return Failure(NotCheckedIn);
      }
      var record := records[key];
      if record.status == OnBreak {
        return Failure(AlreadyOnBreak);
      }
      record := record.(breaks := record.breaks + [BreakEntry(at, None)]);
      record := record.(status := OnBreak);
      records := records[key := record];
      result := Success(record);
    }

    method RecordEndBreak(employee: nat, dayAt: int, at: int) returns (result: Result<Record, Error>)
      modifies this
      ensures result == Apply(Lookup(old(records), (employee, DayOf(dayAt))), EndBreak, at)
      ensures records == Handle(old(records), Request(employee, EndBreak, dayAt, at))
    {
      var key := (employee, DayOf(dayAt));
      if key !in records || records[key].status != OnBreak {
        return Failure(NotOnBreak);
      }
      var record := records[key];
      var open := FindOpen(record.breaks);
      if open.Some? {
        var ended := record.breaks[open.value].(end := Some(at));
        record := record.(breaks := record.breaks[open.value := ended]);
      }
      record := record.(status := Working);
      records := records[key := record];
      result := Success(record);
    }

    method RecordCheckOut(employee: nat, dayAt: int, at: int) returns (result: Result<Record, Error>)
      modifies this
      ensures result == Apply(Lookup(old(records), (employee, DayOf(dayAt))), CheckOut, at)
      ensures records == Handle(old(records), Request(employee, CheckOut, dayAt, at))
    {
      var key := (employee, DayOf(dayAt));
      if key !in records || records[key].checkInAt.None? {
        return Failure(NotCheckedIn);
      }
      var record := records[key];
      if record.checkOutAt.Some? {
        return Failure(AlreadyCheckedOut);
      }
      var totalMs := at - record.checkInAt.value;
      var breakMs := SumClosed(record.breaks);
      record := record.(checkOutAt := Some(at));
      record := record.(workingMinutes := Some((totalMs - breakMs) / MS_PER_MINUTE));
      record := record.(breakMinutes := Some(breakMs / MS_PER_MINUTE));
      record := record.(status := CheckedOut);
      records := records[key := record];
      result := Success(record);
    }
  }
}
