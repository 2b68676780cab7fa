/**
 What the attendance arithmetic means: minutes against the time line of the day, the shape of the
 breaks, what check-out freezes, and when the dashboard's buttons tell the truth.
 */
module AttendanceLaws {
  import opened Outcomes
  import opened Attendance

  // ---- Minutes against the time line ----

  /** When the latest accepted break began. */
  function LastBreakStart(history: seq<Event>): int {
    if history == [] then 0
    else
      var before, e := history[..|history| - 1], history[|history| - 1];
      if e.kind == StartBreak && Accepts(After(before), StartBreak, e.at) then e.at else LastBreakStart(before)
  }

  lemma {:induction false} NewestBreakStart(history: seq<Event>)
    requires After(history).Some? && After(history).value.breaks != []
    ensures var breaks := After(history).value.breaks;
            breaks[|breaks| - 1].start == LastBreakStart(history)
  {
    var before := history[..|history| - 1];
    if After(before).Some? && After(before).value.breaks != [] {
      NewestBreakStart(before);
    }
  }

  /** The part of the break time that check-out does not see: a break still running. */
  function UnclosedMs(history: seq<Event>, at: int): int {
    if StatusAfter(history) == OnBreak then at - LastBreakStart(history) else 0
  }

  /** Check-out at `at` turned `r` into `r'`, crediting these times; `running` is a break still open. */
  predicate Credited(r: Record, r': Record, working: int, onBreak: int, running: int, at: int) {
    && r.checkInAt.Some?
    && r'.checkOutAt == Some(at)
    && r'.workingMinutes == Some((working + running) / MS_PER_MINUTE)
    && r'.breakMinutes == Some((onBreak - running) / MS_PER_MINUTE)
    && 0 <= running <= onBreak
    && working + onBreak == at - r.checkInAt.value
  }

  lemma OrderedPrefix(history: seq<Event>, e: Event)
    requires Ordered(history + [e])
    ensures Ordered(history) && (history != [] ==> LastAt(history) <= e.at)
  {
    var h := history + [e];
    forall i, j | 0 <= i <= j < |history| ensures history[i].at <= history[j].at {
      assert h[i].at <= h[j].at;
    }
    if history != [] {
      assert h[|history| - 1].at <= h[|history|].at;
    }
  }

  /** A record that accepts check-out is a shift, and its last break began when the history says. */
  lemma CheckingOutOfShift(history: seq<Event>, at: int)
    requires Ordered(history) && Accepts(After(history), CheckOut, at)
    ensures history != [] && OnShift(After(history).value, Measure(history))
    ensures RunningBreakMs(After(history).value, at) == UnclosedMs(history, at)
  {
    AlwaysKept(history);
    if After(history).value.status == OnBreak {
      NewestBreakStart(history);
    }
  }

  lemma CheckOutOfShift(r: Record, t: Tally, at: int)
    requires OnShift(r, t) && t.last <= at
    ensures var t' := Grow(t, r, Event(CheckOut, at));
            var r' := Advance(Some(r), Event(CheckOut, at));
            r'.Some? && Credited(r, r'.value, t'.working, t'.onBreak, RunningBreakMs(r, at), at)
  {
    WellOrderedTotals(r.breaks, r.checkInAt.value, t.last, r.status == OnBreak);
    assert at - r.checkInAt.value - ClosedMs(r.breaks)
        == Grow(t, r, Event(CheckOut, at)).working + RunningBreakMs(r, at);
  }

  lemma CheckOutGrows(history: seq<Event>, at: int)
    requires history != [] && After(history).Some?
    ensures var e := Event(CheckOut, at);
            && After(history + [e]) == Advance(After(history), e)
            && Grow(Measure(history), After(history).value, e) == Measure(history + [e])
  {
    assert (history + [Event(CheckOut, at)])[..|history|] == history;
  }

  /**
   Check-out credits as work exactly the time the status was Working since check-in, plus the
   length of a break still running; as break, the rest of the break time. Both are floored.
   */
  lemma CheckOutMinutes(history: seq<Event>, at: int)
    requires Ordered(history + [Event(CheckOut, at)])
    requires Accepts(After(history), CheckOut, at)
    ensures var h := history + [Event(CheckOut, at)];
            && After(history).Some? && After(h).Some?
            && Credited(After(history).value, After(h).value,
                        TimeIn(Working, h), TimeIn(OnBreak, h), UnclosedMs(history, at), at)
  {
    OrderedPrefix(history, Event(CheckOut, at));
    CheckingOutOfShift(history, at);
    CheckOutOfShift(After(history).value, Measure(history), at);
    CheckOutGrows(history, at);
  }

  // ---- The shape of the breaks ----

  /**
   Before check-out the breaks are ordered disjoint intervals of the shift, the last one open
   exactly when on break. Always, a break is open for the status On Break and one more for a
   break that check-out left running, so End Break always finds one to close.
   */
  lemma ReachableBreaks(history: seq<Event>)
    requires Ordered(history) && After(history).Some?
    ensures var r := After(history).value;
            && history != [] && r.checkInAt.Some?
            && (r.checkOutAt.None? ==> WellOrdered(r.breaks, r.checkInAt.value, LastAt(history), r.status == OnBreak))
            && OpenCount(r.breaks) == (if r.status == OnBreak then 1 else 0) + (if LeftOpen(history) then 1 else 0)
            && (r.status == OnBreak ==> FirstOpen(r.breaks).Some?)
  {
    AlwaysKept(history);
    var r := After(history).value;
    NoneOpen(r.breaks);
    if OnShift(r, Measure(history)) {
      WellOrderedTotals(r.breaks, r.checkInAt.value, LastAt(history), r.status == OnBreak);
    }
  }

  // ---- Check-out is final ----

  lemma {:induction false} AfterConcat(history: seq<Event>, later: seq<Event>)
    ensures later != [] ==>
      After(history + later) == Advance(After(history + later[..|later| - 1]), later[|later| - 1])
  {
    if later != [] {
      assert (history + later)[..|history + later| - 1] == history + later[..|later| - 1];
    }
  }

  /** Nothing requested after check-out changes the stamps or the minutes. */
  lemma {:induction false} CheckOutIsFinal(history: seq<Event>, later: seq<Event>)
    requires Ordered(history) && CheckedOutBy(After(history))
    ensures After(history + later).Some?
    ensures var r, r' := After(history).value, After(history + later).value;
            && r'.checkInAt == r.checkInAt && r'.checkOutAt == r.checkOutAt
            && r'.workingMinutes == r.workingMinutes && r'.breakMinutes == r.breakMinutes
  {
    if later == [] {
      assert history + later == history;
    } else {
      CheckOutIsFinal(history, later[..|later| - 1]);
      AfterConcat(history, later);
      ReachableBreaks(history);
    }
  }

  // ---- Refusals ----

  predicate IsCheckedIn(today: Option<Record>) {
    today.Some? && today.value.checkInAt.Some?
  }

  /** Each request is refused for one reason only, which the caller is told. */
  lemma RefusedExactly(today: Option<Record>, at: int)
    ensures Apply(today, CheckIn, at).Failure? <==> IsCheckedIn(today)
    ensures Apply(today, CheckIn, at).Failure? ==> Apply(today, CheckIn, at).error == AlreadyCheckedIn
    ensures Apply(today, StartBreak, at) == Failure(NotCheckedIn) <==> !IsCheckedIn(today)
    ensures Apply(today, StartBreak, at) == Failure(AlreadyOnBreak) <==> IsCheckedIn(today) && today.value.status == OnBreak
    ensures Apply(today, StartBreak, at).Success? <==> IsCheckedIn(today) && today.value.status != OnBreak
    ensures Apply(today, EndBreak, at).Success? <==> today.Some? && today.value.status == OnBreak
    ensures Apply(today, EndBreak, at).Failure? ==> Apply(today, EndBreak, at).error == NotOnBreak
    ensures Apply(today, CheckOut, at) == Failure(NotCheckedIn) <==> !IsCheckedIn(today)
    ensures Apply(today, CheckOut, at) == Failure(AlreadyCheckedOut) <==> IsCheckedIn(today) && today.value.checkOutAt.Some?
    ensures Apply(today, CheckOut, at).Success? <==> IsCheckedIn(today) && today.value.checkOutAt.None?
  {
  }

  /** What an accepted request changes, and that it leaves the rest of the record alone. */
  lemma AcceptedChangesOnly(r: Record, at: int)
    ensures Apply(None, CheckIn, at) == Success(Record(Some(at), None, [], None, None, Working))
    ensures r.checkInAt.None? ==> Apply(Some(r), CheckIn, at) == Success(r.(checkInAt := Some(at), status := Working))
    ensures Apply(Some(r), StartBreak, at).Success? ==>
              Apply(Some(r), StartBreak, at).value == r.(breaks := r.breaks + [BreakEntry(at, None)], status := OnBreak)
    ensures Apply(Some(r), EndBreak, at).Success? ==>
              var r' := Apply(Some(r), EndBreak, at).value;
              && r' == r.(breaks := r'.breaks, status := Working) && |r'.breaks| == |r.breaks|
              && forall i :: 0 <= i < |r.breaks| ==>
                   r'.breaks[i] == if r.breaks[i].end.None? && (forall j :: 0 <= j < i ==> r.breaks[j].end.Some?)
                                   then BreakEntry(r.breaks[i].start, Some(at)) else r.breaks[i]
    ensures Apply(Some(r), CheckOut, at).Success? ==>
              var r' := Apply(Some(r), CheckOut, at).value;
              r' == r.(checkOutAt := Some(at), workingMinutes := r'.workingMinutes, breakMinutes := r'.breakMinutes,
                       status := CheckedOut)
  {
    assert forall i :: 0 <= i < |r.breaks| ==> (r.breaks[i].Open() <==> r.breaks[i].end.None?);
  }

  // ---- The dashboard ----

  predicate CanCheckIn(today: Option<Record>) {
    today.None? || today.value.checkInAt.None?
  }

  predicate CanStartBreak(today: Option<Record>) {
    today.Some? && today.value.checkInAt.Some? && today.value.status == Working
  }

  predicate CanEndBreak(today: Option<Record>) {
    (if today.Some? then today.value.status else Absent) == OnBreak
  }

  predicate CanCheckOut(today: Option<Record>) {
    today.Some? && today.value.checkInAt.Some? && today.value.status != CheckedOut
  }

  /**
   On every reachable record the first two buttons tell the truth; Start Break is offered exactly
   when accepted and the status is not Checked Out; Check Out is offered whenever accepted, and is right unless a
   break was started after check-out.
   */
  lemma DashboardIsRight(history: seq<Event>, at: int)
    requires Ordered(history)
    ensures var today := After(history);
            && (CanCheckIn(today) <==> Accepts(today, CheckIn, at))
            && (CanEndBreak(today) <==> Accepts(today, EndBreak, at))
            && (CanStartBreak(today) <==> Accepts(today, StartBreak, at) && StatusAfter(history) != CheckedOut)
            && (Accepts(today, CheckOut, at) ==> CanCheckOut(today))
            && ((CanCheckOut(today) <==> Accepts(today, CheckOut, at)) <==> !BreakAfterCheckOut(history))
  {
    AlwaysKept(history);
  }

  /** Check in, check out, start a break. */
  const BREAK_TOO_LATE := [Event(CheckIn, 1), Event(CheckOut, 2), Event(StartBreak, 3)]

  /** That break brings Check Out back, and it is refused. */
  lemma BreakAfterCheckOutMisleads(at: int)
    ensures Ordered(BREAK_TOO_LATE) && BreakAfterCheckOut(BREAK_TOO_LATE)
    ensures CanCheckOut(After(BREAK_TOO_LATE)) && !Accepts(After(BREAK_TOO_LATE), CheckOut, at)
  {
    var a, b, c := Event(CheckIn, 1), Event(CheckOut, 2), Event(StartBreak, 3);
    var h1, h2 := [a], [a, b];
    assert h1[..0] == [] && h2[..1] == h1 && BREAK_TOO_LATE[..2] == h2;
    assert After(h1) == Advance(None, a);
    assert After(h2) == Advance(After(h1), b);
    assert After(BREAK_TOO_LATE) == Advance(After(h2), c);
  }
}
