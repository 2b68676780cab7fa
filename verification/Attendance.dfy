/**
 One employee's attendance record for one UTC day: check-in, breaks and check-out.
 Instants are milliseconds since the epoch.
 */
module Attendance {
  import opened Outcomes

  const MS_PER_DAY: int := 86_400_000
  const MS_PER_MINUTE: int := 60_000

  /** The UTC calendar day of an instant. */
  function DayOf(instant: int): int {
    instant / MS_PER_DAY
  }

  datatype Status = Absent | Working | OnBreak | CheckedOut

  datatype BreakEntry = BreakEntry(start: int, end: Option<int>) {
    predicate Open() { end.None? }
  }

  datatype Record = Record(
    checkInAt: Option<int>,
    checkOutAt: Option<int>,
    breaks: seq<BreakEntry>,
    workingMinutes: Option<int>,
    breakMinutes: Option<int>,
    status: Status)

  datatype Kind = CheckIn | StartBreak | EndBreak | CheckOut

  datatype Error = AlreadyCheckedIn | NotCheckedIn | AlreadyOnBreak | NotOnBreak | AlreadyCheckedOut

  const BLANK := Record(None, None, [], None, None, Absent)

  /** Index of the first break without an end. */
  function FirstOpen(breaks: seq<BreakEntry>): (r: Option<nat>)
    ensures r.None? ==> forall i :: 0 <= i < |breaks| ==> !breaks[i].Open()
    ensures r.Some? ==> r.value < |breaks| && breaks[r.value].Open()
    ensures r.Some? ==> forall i :: 0 <= i < r.value ==> !breaks[i].Open()
  {
    if breaks == [] then None
    else
      var front := FirstOpen(breaks[..|breaks| - 1]);
      if front.Some? then front
      else if breaks[|breaks| - 1].Open() then Some(|breaks| - 1)
      else None
  }

  /** Total length of the closed breaks. */
  function ClosedMs(breaks: seq<BreakEntry>): int {
    if breaks == [] then 0
    else
      var b := breaks[|breaks| - 1];
      ClosedMs(breaks[..|breaks| - 1]) + if b.Open() then 0 else b.end.value - b.start
  }

  function OpenCount(breaks: seq<BreakEntry>): nat {
    if breaks == [] then 0
    else OpenCount(breaks[..|breaks| - 1]) + if breaks[|breaks| - 1].Open() then 1 else 0
  }

  /** What a request does to the day's record, if there is one, at instant `at`. */
  function Apply(record: Option<Record>, kind: Kind, at: int): Result<Record, Error> {
    match kind
    case CheckIn =>
      if record.Some? && record.value.checkInAt.Some? then Failure(AlreadyCheckedIn)
      else
        var base := if record.Some? then record.value else BLANK;
        Success(base.(checkInAt := Some(at), status := Working))
    case StartBreak =>
      if record.None? || record.value.checkInAt.None? then Failure(NotCheckedIn)
      else if record.value.status == OnBreak then Failure(AlreadyOnBreak)
      else Success(record.value.(breaks := record.value.breaks + [BreakEntry(at, None)], status := OnBreak))
    case EndBreak =>
      if record.None? || record.value.status != OnBreak then Failure(NotOnBreak)
      else
        var breaks := record.value.breaks;
        var open := FirstOpen(breaks);
        var closed := if open.Some? then breaks[open.value := breaks[open.value].(end := Some(at))] else breaks;
        Success(record.value.(breaks := closed, status := Working))
    case CheckOut =>
      if record.None? || record.value.checkInAt.None? then Failure(NotCheckedIn)
      else if record.value.checkOutAt.Some? then Failure(AlreadyCheckedOut)
      else
        var r := record.value;
        var totalMs := at - r.checkInAt.value;
        var breakMs := ClosedMs(r.breaks);
        Success(r.(
          checkOutAt := Some(at),
          workingMinutes := Some((totalMs - breakMs) / MS_PER_MINUTE),
          breakMinutes := Some(breakMs / MS_PER_MINUTE),
          status := CheckedOut))
  }

  predicate Accepts(record: Option<Record>, kind: Kind, at: int) {
    Apply(record, kind, at).Success?
  }

  /** A request against one record: its kind and the clock reading it stamps. */
  datatype Event = Event(kind: Kind, at: int)

  function Advance(record: Option<Record>, e: Event): Option<Record> {
    match Apply(record, e.kind, e.at)
    case Success(r) => Some(r)
    case Failure(_) => record
  }

  /** The record left by a history of requests, refused ones included. */
  function After(history: seq<Event>): Option<Record> {
    if history == [] then None
    else Advance(After(history[..|history| - 1]), history[|history| - 1])
  }

  function StatusAfter(history: seq<Event>): Status {
    var r := After(history);
    if r.Some? then r.value.status else Absent
  }

  predicate Ordered(history: seq<Event>) {
    forall i, j :: 0 <= i <= j < |history| ==> history[i].at <= history[j].at
  }

  /** Time spent in a status from the first request to the last. */
  function TimeIn(status: Status, history: seq<Event>): int {
    if |history| < 2 then 0
    else
      var before := history[..|history| - 1];
      TimeIn(status, before)
      + if StatusAfter(before) == status then history[|history| - 1].at - before[|before| - 1].at else 0
  }

  /** Whether the accepted check-out in the history found a break running. */
  predicate LeftOpen(history: seq<Event>) {
    history != [] &&
    var before, e := history[..|history| - 1], history[|history| - 1];
    LeftOpen(before) ||
    (e.kind == CheckOut && Accepts(After(before), CheckOut, e.at) && StatusAfter(before) == OnBreak)
  }

  predicate CheckedOutBy(record: Option<Record>) {
    record.Some? && record.value.checkOutAt.Some?
  }

  /** Whether a break was started after the accepted check-out. */
  predicate BreakAfterCheckOut(history: seq<Event>) {
    history != [] &&
    var before, e := history[..|history| - 1], history[|history| - 1];
    BreakAfterCheckOut(before) ||
    (e.kind == StartBreak && CheckedOutBy(After(before)) && Accepts(After(before), StartBreak, e.at))
  }

  // ---- Breaks as a list ----

  /** All closed except possibly the last, in order and disjoint, inside the shift. */
  ghost predicate WellOrdered(breaks: seq<BreakEntry>, from: int, to: int, lastOpen: bool) {
    && (lastOpen ==> breaks != [])
    && (forall i :: 0 <= i < |breaks| ==> (breaks[i].Open() <==> lastOpen && i == |breaks| - 1))
    && (forall i :: 0 <= i < |breaks| ==> from <= breaks[i].start <= to)
    && (forall i :: 0 <= i < |breaks| && !breaks[i].Open() ==> breaks[i].start <= breaks[i].end.value <= to)
    && (forall i, j :: 0 <= i < j < |breaks| ==> !breaks[i].Open() && breaks[i].end.value <= breaks[j].start)
  }

  lemma {:induction false} CloseOne(breaks: seq<BreakEntry>, i: nat, at: int)
    requires i < |breaks| && breaks[i].Open()
    ensures var closed := breaks[i := breaks[i].(end := Some(at))];
            OpenCount(closed) == OpenCount(breaks) - 1
            && ClosedMs(closed) == ClosedMs(breaks) + at - breaks[i].start
  {
    var front := breaks[..|breaks| - 1];
    var closed := breaks[i := breaks[i].(end := Some(at))];
    if i == |breaks| - 1 {
      assert closed[..|breaks| - 1] == front;
    } else {
      CloseOne(front, i, at);
      assert closed[..|breaks| - 1] == front[i := front[i].(end := Some(at))];
    }
  }

  lemma PushOne(breaks: seq<BreakEntry>, at: int)
    ensures OpenCount(breaks + [BreakEntry(at, None)]) == OpenCount(breaks) + 1
    ensures ClosedMs(breaks + [BreakEntry(at, None)]) == ClosedMs(breaks)
  {
  }

  lemma {:induction false} NoneOpen(breaks: seq<BreakEntry>)
    ensures OpenCount(breaks) == 0 <==> FirstOpen(breaks).None?
  {
    if breaks != [] {
      NoneOpen(breaks[..|breaks| - 1]);
    }
  }

  lemma PushKeepsOrder(breaks: seq<BreakEntry>, from: int, to: int, at: int)
    requires WellOrdered(breaks, from, to, false) && from <= to <= at
    ensures WellOrdered(breaks + [BreakEntry(at, None)], from, at, true)
  {
  }

  lemma CloseKeepsOrder(breaks: seq<BreakEntry>, from: int, to: int, at: int)
    requires WellOrdered(breaks, from, to, true) && to <= at
    ensures FirstOpen(breaks) == Some(|breaks| - 1)
    ensures WellOrdered(breaks[|breaks| - 1 := breaks[|breaks| - 1].(end := Some(at))], from, at, false)
  {
  }

  lemma {:induction false} WellOrderedTotals(breaks: seq<BreakEntry>, from: int, to: int, lastOpen: bool)
    requires from <= to && WellOrdered(breaks, from, to, lastOpen)
    ensures OpenCount(breaks) == if lastOpen then 1 else 0
    ensures 0 <= ClosedMs(breaks) <= (if lastOpen then breaks[|breaks| - 1].start else to) - from
  {
    if breaks != [] {
      var front := breaks[..|breaks| - 1];
      assert WellOrdered(front, from, breaks[|breaks| - 1].start, false);
      WellOrderedTotals(front, from, breaks[|breaks| - 1].start, false);
    }
  }

  // ---- What every history keeps ----

  function LastAt(history: seq<Event>): int
    requires history != []
  {
    history[|history| - 1].at
  }

  /** How long the break that is running has been running. */
  function RunningBreakMs(r: Record, at: int): int {
    if r.status == OnBreak && r.breaks != [] then at - r.breaks[|r.breaks| - 1].start else 0
  }

  /** What a history amounts to, apart from the record it leaves. */
  datatype Tally = Tally(last: int, working: int, onBreak: int, leftOpen: bool, restarted: bool)

  ghost function Measure(history: seq<Event>): Tally
    requires history != []
  {
    Tally(LastAt(history), TimeIn(Working, history), TimeIn(OnBreak, history),
          LeftOpen(history), BreakAfterCheckOut(history))
  }

  ghost function Grow(t: Tally, r: Record, e: Event): Tally {
    Tally(
      e.at,
      t.working + (if r.status == Working then e.at - t.last else 0),
      t.onBreak + (if r.status == OnBreak then e.at - t.last else 0),
      t.leftOpen || (e.kind == CheckOut && Accepts(Some(r), CheckOut, e.at) && r.status == OnBreak),
      t.restarted || (e.kind == StartBreak && r.checkOutAt.Some? && Accepts(Some(r), StartBreak, e.at)))
  }

  lemma MeasureGrows(before: seq<Event>, e: Event)
    requires before != [] && After(before).Some?
    ensures Measure(before + [e]) == Grow(Measure(before), After(before).value, e)
  {
  }

  /** Checked in and not yet out: the breaks are in order and account for all time on break. */
  ghost predicate OnShift(r: Record, t: Tally) {
    && r.checkInAt.Some? && r.checkOutAt.None?
    && r.checkInAt.value <= t.last
    && (r.status == Working || r.status == OnBreak)
    && WellOrdered(r.breaks, r.checkInAt.value, t.last, r.status == OnBreak)
    && t.working + t.onBreak == t.last - r.checkInAt.value
    && ClosedMs(r.breaks) + RunningBreakMs(r, t.last) == t.onBreak
    && !t.leftOpen && !t.restarted
  }

  ghost predicate MinutesFit(r: Record)
    requires r.checkInAt.Some? && r.checkOutAt.Some?
  {
    && r.workingMinutes.Some? && r.breakMinutes.Some?
    && 0 <= r.workingMinutes.value && 0 <= r.breakMinutes.value
    && var whole := (r.checkOutAt.value - r.checkInAt.value) / MS_PER_MINUTE;
       whole - 1 <= r.workingMinutes.value + r.breakMinutes.value <= whole
  }

  /** Checked out: the minutes fit the shift, and the open breaks are exactly accounted for. */
  ghost predicate Departed(r: Record, t: Tally) {
    && r.checkInAt.Some? && r.checkOutAt.Some? && MinutesFit(r)
    && r.status != Absent
    && OpenCount(r.breaks) == (if r.status == OnBreak then 1 else 0) + (if t.leftOpen then 1 else 0)
    && (r.status != CheckedOut <==> t.restarted)
  }

  ghost predicate Sound(r: Record, t: Tally) {
    OnShift(r, t) || Departed(r, t)
  }

  lemma OnShiftStartBreak(r: Record, t: Tally, at: int)
    requires OnShift(r, t) && t.last <= at
    ensures var r' := Advance(Some(r), Event(StartBreak, at)).value;
            OnShift(r', Grow(t, r, Event(StartBreak, at)))
  {
    if r.status == Working {
      var breaks := r.breaks + [BreakEntry(at, None)];
      PushOne(r.breaks, at);
      PushKeepsOrder(r.breaks, r.checkInAt.value, t.last, at);
      assert Advance(Some(r), Event(StartBreak, at)) == Some(r.(breaks := breaks, status := OnBreak));
      assert breaks[|breaks| - 1].start == at;
    } else {
      assert Advance(Some(r), Event(StartBreak, at)) == Some(r);
    }
  }

  lemma OnShiftEndBreak(r: Record, t: Tally, at: int)
    requires OnShift(r, t) && t.last <= at
    ensures var r' := Advance(Some(r), Event(EndBreak, at)).value;
            OnShift(r', Grow(t, r, Event(EndBreak, at)))
  {
    if r.status == OnBreak {
      CloseKeepsOrder(r.breaks, r.checkInAt.value, t.last, at);
      CloseOne(r.breaks, |r.breaks| - 1, at);
    }
  }

  lemma OnShiftCheckOut(r: Record, t: Tally, at: int)
    requires OnShift(r, t) && t.last <= at
    ensures var r' := Advance(Some(r), Event(CheckOut, at)).value;
            Departed(r', Grow(t, r, Event(CheckOut, at)))
  {
    WellOrderedTotals(r.breaks, r.checkInAt.value, t.last, r.status == OnBreak);
  }

  lemma DepartedAdvances(r: Record, t: Tally, e: Event)
    requires Departed(r, t)
    ensures Departed(Advance(Some(r), e).value, Grow(t, r, e))
  {
    if e.kind == StartBreak {
      PushOne(r.breaks, e.at);
    } else if e.kind == EndBreak && r.status == OnBreak {
      NoneOpen(r.breaks);
      CloseOne(r.breaks, FirstOpen(r.breaks).value, e.at);
    }
  }

  lemma SoundAdvances(r: Record, t: Tally, e: Event)
    requires Sound(r, t) && t.last <= e.at
    ensures Sound(Advance(Some(r), e).value, Grow(t, r, e))
  {
    if Departed(r, t) {
      DepartedAdvances(r, t, e);
    } else {
      match e.kind
      case CheckIn => assert OnShift(r, Grow(t, r, e));
      case StartBreak => OnShiftStartBreak(r, t, e.at);
      case EndBreak => OnShiftEndBreak(r, t, e.at);
      case CheckOut => OnShiftCheckOut(r, t, e.at);
    }
  }

  ghost predicate Idle(history: seq<Event>) {
    TimeIn(Working, history) == TimeIn(OnBreak, history) == 0
    && !LeftOpen(history) && !BreakAfterCheckOut(history)
  }

  ghost predicate Kept(history: seq<Event>) {
    match After(history)
    case None => Idle(history)
    case Some(r) => history != [] && Sound(r, Measure(history))
  }

  lemma IdleStep(before: seq<Event>, e: Event)
    requires After(before).None? && Idle(before)
    ensures Idle(before + [e])
    ensures After(before + [e]) == Advance(None, e)
  {
  }

  lemma FirstCheckIn(history: seq<Event>, e: Event)
    requires history != [] && Idle(history) && e.kind == CheckIn && LastAt(history) == e.at
    ensures OnShift(Advance(None, e).value, Measure(history))
  {
  }

  lemma KeptStep(before: seq<Event>, e: Event)
    requires Kept(before) && (before != [] ==> LastAt(before) <= e.at)
    ensures Kept(before + [e])
  {
    if After(before).Some? {
      MeasureGrows(before, e);
      SoundAdvances(After(before).value, Measure(before), e);
      assert (before + [e])[..|before|] == before;
    } else {
      IdleStep(before, e);
      if e.kind == CheckIn {
        FirstCheckIn(before + [e], e);
      }
    }
  }

  /** Every reachable record is a shift in progress or a shift that has been checked out. */
  lemma {:induction false} AlwaysKept(history: seq<Event>)
    requires Ordered(history)
    ensures Kept(history)
  {
    if history != [] {
      var before, e := history[..|history| - 1], history[|history| - 1];
      AlwaysKept(before);
      KeptStep(before, e);
      assert history == before + [e];
    }
  }
}
