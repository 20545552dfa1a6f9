/** src/models/ClockRecord.js: a PPG's daily clock-in and clock-out. The
    clock is an `Instant` (a day number and the milliseconds into that day);
    the shift date is the instant's day. The table is append-only with ids
    counted from 1. */
module ClockRecords {
  import opened Common
  import opened Helpers
  import opened Query

  const AlreadyClockedIn: string := "Already clocked in for today"
  const NoActiveClockIn: string := "No active clock-in found for today"

  datatype Instant = Instant(day: int, ms: int)

  datatype ClockRecord = ClockRecord(
    ppgId: nat,
    clockInTime: Instant,
    shiftDate: int,
    isLate: bool,
    clockOutTime: Option<Instant>)

  /** 08:00 plus fifteen minutes' grace. */
  const LateAfterMs: int := 8 * MsPerHour + 15 * MsPerMinute

  /** The late flag written by `clockIn`: strictly after 08:15 on the day. */
  function LateAt(now: Instant): (late: bool)
    ensures late <==> now.ms > LateAfterMs
  {
    now.ms > LateAfterMs
  }

  /** The model's flag and the `isLateForShift` helper on a 08:00 shift agree. */
  lemma LateAtAgreesWithHelper(now: Instant)
    ensures LateAt(now) == IsLateForShift(now.ms, 8, 0)
  {
    DefaultShiftLateAfterQuarterPastEight(now.ms);
  }

  /** A record that blocks a clock-in: the PPG's, for that date, not yet closed. */
  predicate IsOpen(r: ClockRecord, ppgId: nat, day: int)
  {
    r.ppgId == ppgId && r.shiftDate == day && r.clockOutTime.None?
  }

  predicate HasOpen(rows: seq<ClockRecord>, ppgId: nat, day: int)
  {
    exists k :: 0 <= k < |rows| && IsOpen(rows[k], ppgId, day)
  }

  /** The table invariant `clockIn` keeps: at most one open record per PPG and date. */
  ghost predicate AtMostOneOpen(rows: seq<ClockRecord>)
  {
    forall i, j ::
      (0 <= i < |rows| && 0 <= j < |rows| && rows[i].clockOutTime.None? && rows[j].clockOutTime.None?
       && rows[i].ppgId == rows[j].ppgId && rows[i].shiftDate == rows[j].shiftDate) ==> i == j
  }

  /** Every record's shift date is its clock-in day; a closed record was
      closed on that same day. */
  ghost predicate Dated(rows: seq<ClockRecord>)
  {
    forall k :: 0 <= k < |rows| ==>
      rows[k].shiftDate == rows[k].clockInTime.day
      && (rows[k].clockOutTime.Some? ==> rows[k].clockOutTime.value.day == rows[k].shiftDate)
  }

  datatype ClockedIn = ClockedIn(id: nat, clockInTime: Instant, isLate: bool)

  datatype Step<T> = Step(result: Result<T>, rows: seq<ClockRecord>)

  /** `clockIn`: refused while an open record for today exists, otherwise one
      open record is inserted. */
  function ClockInStep(rows: seq<ClockRecord>, ppgId: nat, now: Instant): Step<ClockedIn>
  {
    if HasOpen(rows, ppgId, now.day) then Step(Err(AlreadyClockedIn), rows)
    else
      var late := LateAt(now);
      Step(Ok(ClockedIn(|rows| + 1, now, late)), rows + [ClockRecord(ppgId, now, now.day, late, None)])
  }

  /** The single UPDATE of `clockOut`: every open record of the PPG for today
      gets the clock-out time. */
  function CloseOpen(rows: seq<ClockRecord>, ppgId: nat, now: Instant): (r: seq<ClockRecord>)
    ensures |r| == |rows|
    ensures forall k :: 0 <= k < |rows| ==>
      r[k] == if IsOpen(rows[k], ppgId, now.day) then rows[k].(clockOutTime := Some(now)) else rows[k]
  {
    if rows == [] then []
    else
      var head := if IsOpen(rows[0], ppgId, now.day) then rows[0].(clockOutTime := Some(now)) else rows[0];
      [head] + CloseOpen(rows[1..], ppgId, now)
  }

  /** The UPDATE's affected-row count. */
  function Affected(rows: seq<ClockRecord>, ppgId: nat, day: int): (n: nat)
    ensures n == 0 <==> !HasOpen(rows, ppgId, day)
    ensures n <= |rows|
  {
    if rows == [] then 0
    else
      var rest := Affected(rows[1..], ppgId, day);
      assert HasOpen(rows[1..], ppgId, day) ==> HasOpen(rows, ppgId, day) by {
        if HasOpen(rows[1..], ppgId, day) {
          var k :| 0 <= k < |rows[1..]| && IsOpen(rows[1..][k], ppgId, day);
          assert IsOpen(rows[k + 1], ppgId, day);
        }
      }
      assert HasOpen(rows, ppgId, day) && !IsOpen(rows[0], ppgId, day) ==> HasOpen(rows[1..], ppgId, day) by {
        if HasOpen(rows, ppgId, day) && !IsOpen(rows[0], ppgId, day) {
          var k :| 0 <= k < |rows| && IsOpen(rows[k], ppgId, day);
          assert k > 0 && IsOpen(rows[1..][k - 1], ppgId, day);
        }
      }
      (if IsOpen(rows[0], ppgId, day) then 1 else 0) + rest
  }

  /** `clockOut`: closes today's open records, or fails when none changed. */
  function ClockOutStep(rows: seq<ClockRecord>, ppgId: nat, now: Instant): Step<Instant>
  {
    if Affected(rows, ppgId, now.day) == 0 then Step(Err(NoActiveClockIn), rows)
    else Step(Ok(now), CloseOpen(rows, ppgId, now))
  }

  /** `clockIn` refuses exactly when an open record for today exists, and
      then changes nothing; otherwise it adds exactly one open record with the
      time, the date and the late flag, under the next id. */
  lemma ClockInEffect(rows: seq<ClockRecord>, ppgId: nat, now: Instant)
    ensures var s := ClockInStep(rows, ppgId, now);
            && (s.result == Err(AlreadyClockedIn) <==> HasOpen(rows, ppgId, now.day))
            && (s.result.Err? ==> s.rows == rows)
            && (s.result.Ok? ==>
                  && s.result.value == ClockedIn(|rows| + 1, now, now.ms > LateAfterMs)
                  && s.rows == rows + [ClockRecord(ppgId, now, now.day, now.ms > LateAfterMs, None)]
                  && IsOpen(s.rows[|rows|], ppgId, now.day))
  {
  }

  /** `clockOut` fails exactly when no open record exists for today and then
      changes nothing; otherwise it closes every such record at `now`, and
      leaves the others and the table's length alone. */
  lemma ClockOutEffect(rows: seq<ClockRecord>, ppgId: nat, now: Instant)
    ensures var s := ClockOutStep(rows, ppgId, now);
            && (s.result == Err(NoActiveClockIn) <==> !HasOpen(rows, ppgId, now.day))
            && (s.result.Err? ==> s.rows == rows)
            && (s.result.Ok? ==>
                  && s.result.value == now && |s.rows| == |rows|
                  && !HasOpen(s.rows, ppgId, now.day)
                  && forall k :: 0 <= k < |rows| ==>
                       (IsOpen(rows[k], ppgId, now.day) ==> s.rows[k].clockOutTime == Some(now))
                       && (!IsOpen(rows[k], ppgId, now.day) ==> s.rows[k] == rows[k]))
  {
  }

  /** Only an open record blocks: after a clock-out the PPG may clock in
      again on the same day. */
  lemma ClockInAgainAfterClockOut(rows: seq<ClockRecord>, ppgId: nat, out: Instant, again: Instant)
    requires ClockOutStep(rows, ppgId, out).result.Ok? && again.day == out.day
    ensures ClockInStep(ClockOutStep(rows, ppgId, out).rows, ppgId, again).result.Ok?
  {
    ClockOutEffect(rows, ppgId, out);
  }

  /** A clock-in is always followed by a successful clock-out on that day, and
      a second clock-in before it is refused. */
  lemma ClockInThenOut(rows: seq<ClockRecord>, ppgId: nat, now: Instant, later: Instant)
    requires ClockInStep(rows, ppgId, now).result.Ok? && later.day == now.day
    ensures ClockInStep(ClockInStep(rows, ppgId, now).rows, ppgId, later).result == Err(AlreadyClockedIn)
    ensures ClockOutStep(ClockInStep(rows, ppgId, now).rows, ppgId, later).result == Ok(later)
  {
    var s := ClockInStep(rows, ppgId, now).rows;
    assert IsOpen(s[|rows|], ppgId, later.day);
  }

  /** Both operations keep at most one open record per PPG and date, and keep
      every record dated by its clock-in day. */
  lemma StepsKeepInvariant(rows: seq<ClockRecord>, ppgId: nat, now: Instant)
    requires AtMostOneOpen(rows) && Dated(rows)
    ensures AtMostOneOpen(ClockInStep(rows, ppgId, now).rows) && Dated(ClockInStep(rows, ppgId, now).rows)
    ensures AtMostOneOpen(ClockOutStep(rows, ppgId, now).rows) && Dated(ClockOutStep(rows, ppgId, now).rows)
  {
    var s := ClockInStep(rows, ppgId, now).rows;
    if !HasOpen(rows, ppgId, now.day) {
      forall i, j | 0 <= i < |s| && 0 <= j < |s| && s[i].clockOutTime.None? && s[j].clockOutTime.None?
        && s[i].ppgId == s[j].ppgId && s[i].shiftDate == s[j].shiftDate
        ensures i == j
      {
        if i == |rows| && j < |rows| {
          assert IsOpen(rows[j], ppgId, now.day);
        } else if j == |rows| && i < |rows| {
          assert IsOpen(rows[i], ppgId, now.day);
        }
      }
    }
    ClockOutEffect(rows, ppgId, now);
  }

  /** `getTodayRecord`: the first of the PPG's records for the date, open or closed. */
  function TodayRecord(rows: seq<ClockRecord>, ppgId: nat, day: int): (r: Option<ClockRecord>)
    ensures r.Some? ==> r.value in rows && r.value.ppgId == ppgId && r.value.shiftDate == day
    ensures r.None? <==> forall k :: 0 <= k < |rows| ==> !(rows[k].ppgId == ppgId && rows[k].shiftDate == day)
  {
    if rows == [] then None
    else if rows[0].ppgId == ppgId && rows[0].shiftDate == day then Some(rows[0])
    else
      var rest := TodayRecord(rows[1..], ppgId, day);
      assert forall k :: 1 <= k < |rows| ==> rows[k] == rows[1..][k - 1];
      rest
  }

  function ShiftDesc(r: ClockRecord): int
  {
    -r.shiftDate
  }

  /** `getRecords`: the PPG's records with a shift date in [startDate, endDate], latest date first. */
  function Records(rows: seq<ClockRecord>, ppgId: nat, startDate: int, endDate: int): seq<ClockRecord>
  {
    SortBy(Where(rows, (r: ClockRecord) => r.ppgId == ppgId && startDate <= r.shiftDate <= endDate), ShiftDesc)
  }

  /** `getLateRecords` without the user join: all late records in the range, latest date first. */
  function LateRecords(rows: seq<ClockRecord>, startDate: int, endDate: int): seq<ClockRecord>
  {
    SortBy(Where(rows, (r: ClockRecord) => r.isLate && startDate <= r.shiftDate <= endDate), ShiftDesc)
  }

  /** The listings hold exactly the matching records, latest date first. */
  lemma RecordsListings(rows: seq<ClockRecord>, ppgId: nat, startDate: int, endDate: int)
    ensures var s := Records(rows, ppgId, startDate, endDate);
            && SortedBy(s, ShiftDesc)
            && (forall r :: r in s <==> r in rows && r.ppgId == ppgId && startDate <= r.shiftDate <= endDate)
    ensures var s := LateRecords(rows, startDate, endDate);
            && SortedBy(s, ShiftDesc)
            && (forall r :: r in s <==> r in rows && r.isLate && startDate <= r.shiftDate <= endDate)
  {
    var p := (r: ClockRecord) => r.ppgId == ppgId && startDate <= r.shiftDate <= endDate;
    var q := (r: ClockRecord) => r.isLate && startDate <= r.shiftDate <= endDate;
    SortBySorted(Where(rows, p), ShiftDesc);
    SortBySorted(Where(rows, q), ShiftDesc);
    WhereMembers(rows, p);
    WhereMembers(rows, q);
    SortedMembers(Where(rows, p), ShiftDesc);
    SortedMembers(Where(rows, q), ShiftDesc);
  }

  lemma WhereMembers(rows: seq<ClockRecord>, p: ClockRecord -> bool)
    ensures forall r :: r in Where(rows, p) <==> r in rows && p(r)
  {
    var w := Where(rows, p);
    forall r | r in w ensures r in rows && p(r) {
      var k :| 0 <= k < |w| && w[k] == r;
    }
    forall r | r in rows && p(r) ensures r in w {
      var k :| 0 <= k < |rows| && rows[k] == r;
    }
  }

  lemma SortedMembers(s: seq<ClockRecord>, key: ClockRecord -> int)
    ensures forall r :: r in SortBy(s, key) <==> r in s
  {
    var t := SortBy(s, key);
    assert multiset(t) == multiset(s);
    forall r ensures r in t <==> r in s {
      assert r in t <==> r in multiset(t);
      assert r in s <==> r in multiset(s);
    }
  }

  /** The clock-record table. */
  class ClockRecordTable {
    var rows: seq<ClockRecord>

    ghost predicate Valid()
      reads this
    {
      AtMostOneOpen(rows) && Dated(rows)
    }

    constructor ()
      ensures Valid() && rows == []
    {
      rows := [];
    }

    method ClockIn(ppgId: nat, now: Instant) returns (r: Result<ClockedIn>)
      modifies this
      ensures var s := ClockInStep(old(rows), ppgId, now);
              r == s.result && rows == s.rows
      ensures old(Valid()) ==> Valid()
    {
      if Valid() { StepsKeepInvariant(rows, ppgId, now); }
      if HasOpen(rows, ppgId, now.day) {
        return Err(AlreadyClockedIn);
      }
      var isLate := now.ms > LateAfterMs;
      rows := rows + [ClockRecord(ppgId, now, now.day, isLate, None)];
      r := Ok(ClockedIn(|rows|, now, isLate));
    }

    method ClockOut(ppgId: nat, now: Instant) returns (r: Result<Instant>)
      modifies this
      ensures var s := ClockOutStep(old(rows), ppgId, now);
              r == s.result && rows == s.rows
      ensures old(Valid()) ==> Valid()
    {
      if Valid() { StepsKeepInvariant(rows, ppgId, now); }
      var affected := Affected(rows, ppgId, now.day);
      if affected == 0 {
        return Err(NoActiveClockIn);
      }
      rows := CloseOpen(rows, ppgId, now);
      r := Ok(now);
    }

    function GetTodayRecord(ppgId: nat, day: int): (r: Option<ClockRecord>)
      reads this
      ensures r == TodayRecord(rows, ppgId, day)
    {
      TodayRecord(rows, ppgId, day)
    }
  }
}
