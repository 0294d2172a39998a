/** Attendance and reports (employee_section.py): check-in with its one-row-per-day
    guard and lateness rule, a check-out that only fills an empty slot, and the
    counters of the attendance and commission reports. */
module Employees {
  import opened Base
  import opened Text
  import opened Tables

  /** The pair a check-in looks up before inserting. */
  function DayKey(a: Attendance): (int, Date) { (a.employeeId, a.date) }

  /** At most one attendance row per employee and day, the invariant `check_in` keeps. */
  ghost predicate OneRowPerDay(attendance: seq<Attendance>)
  {
    Unique(attendance, DayKey)
  }

  predicate OnDay(a: Attendance, employeeId: int, date: Date)
  {
    a.employeeId == employeeId && a.date == date
  }

  /** `SELECT id FROM attendance WHERE employee_id = ? AND date = ?`. */
  function AttendanceIndex(attendance: seq<Attendance>, employeeId: int, date: Date): Option<nat>
  {
    FirstMatch(attendance, (a: Attendance) => OnDay(a, employeeId, date))
  }

  /** The lateness rule: a check-in at 09:00:00 or later is late. */
  predicate IsLateAt(now: Instant)
  {
    Hour(now) >= 9
  }

  lemma LatenessRule(now: Instant)
    ensures IsLateAt(now) <==> now.second >= 9 * 3600
  {
  }

  /** The check-out update: today's row of the employee with no check-out time. */
  predicate OpenToday(a: Attendance, employeeId: int, today: Date)
  {
    a.employeeId == employeeId && a.date == today && a.checkOutTime.None?
  }

  function CheckOutRows(attendance: seq<Attendance>, employeeId: int, now: Instant): seq<Attendance>
  {
    UpdateWhere(attendance, (a: Attendance) => OpenToday(a, employeeId, now.date),
                (a: Attendance) => a.(checkOutTime := Some(now.second)))
  }

  /** A check-out fills only an empty slot of that employee's row for today: rows
      already checked out, and rows of other employees or days, stay as they were. */
  lemma CheckOutFillsOnlyEmptySlot(attendance: seq<Attendance>, employeeId: int, now: Instant)
    ensures var r := CheckOutRows(attendance, employeeId, now);
            && |r| == |attendance|
            && (forall i :: 0 <= i < |attendance| && !OpenToday(attendance[i], employeeId, now.date) ==>
                  r[i] == attendance[i])
            && (forall i :: 0 <= i < |attendance| && OpenToday(attendance[i], employeeId, now.date) ==>
                  r[i] == attendance[i].(checkOutTime := Some(now.second)))
            && (forall i :: 0 <= i < |attendance| ==> DayKey(r[i]) == DayKey(attendance[i]))
  {
  }

  /** Checking out twice on the same day keeps the first check-out time. */
  lemma CheckOutIdempotent(attendance: seq<Attendance>, employeeId: int, t1: Instant, t2: Instant)
    requires t1.date == t2.date
    ensures CheckOutRows(CheckOutRows(attendance, employeeId, t1), employeeId, t2)
            == CheckOutRows(attendance, employeeId, t1)
  {
    var once := CheckOutRows(attendance, employeeId, t1);
    var twice := CheckOutRows(once, employeeId, t2);
    assert forall i :: 0 <= i < |once| ==> !OpenToday(once[i], employeeId, t2.date);
    assert forall i :: 0 <= i < |once| ==> twice[i] == once[i];
  }

  /** `UPDATE employees SET last_work_date = ? WHERE id = ?`. */
  function SetLastWorkDate(employees: seq<Employee>, id: int, today: Date): (r: seq<Employee>)
    ensures |r| == |employees|
    ensures forall i :: 0 <= i < |employees| && i != id - 1 ==> r[i] == employees[i]
    ensures 1 <= id <= |employees| ==> r[id - 1].lastWorkDate == Some(today)
  {
    if 1 <= id <= |employees| then employees[id - 1 := employees[id - 1].(lastWorkDate := Some(today))]
    else employees
  }

  /** `check_in`: nothing happens without a selected employee id or when the employee
      already has a row for today; otherwise one row with the check-in time and the
      lateness flag is inserted and the employee's last work date becomes today. The
      employee id itself is not checked against the employees table. */
  method CheckIn(db: Db, employeeText: string, now: Instant) returns (checkedIn: bool)
    requires OneRowPerDay(db.attendance)
    modifies db`attendance, db`employees
    ensures OneRowPerDay(db.attendance)
    ensures var sel := ParseSelection(employeeText);
            checkedIn <==> sel.Selected? && AttendanceIndex(old(db.attendance), sel.id, now.date).None?
    ensures !checkedIn ==> db.attendance == old(db.attendance) && db.employees == old(db.employees)
    ensures checkedIn ==>
              var e := ParseSelection(employeeText).id;
              && db.attendance == old(db.attendance) + [Attendance(e, now.date, now.second, None, IsLateAt(now))]
              && db.employees == SetLastWorkDate(old(db.employees), e, now.date)
  {
    var sel := ParseSelection(employeeText);
    if !sel.Selected? {
      return false;
    }
    var e := sel.id;
    var existing := AttendanceIndex(db.attendance, e, now.date);
    if existing.Some? {
      return false;
    }
    var isLate := Hour(now) >= 9;
    var before := db.attendance;
    db.attendance := db.attendance + [Attendance(e, now.date, now.second, None, isLate)];
    assert db.attendance[..|before|] == before;
    assert Unique(db.attendance, DayKey) by {
      forall i, j | 0 <= i < j < |db.attendance|
        ensures DayKey(db.attendance[i]) != DayKey(db.attendance[j])
      {
        if j < |before| {
          assert DayKey(before[i]) != DayKey(before[j]);
        } else {
          assert !OnDay(before[i], e, now.date);
        }
      }
    }
    if 1 <= e <= |db.employees| {
      db.employees := db.employees[e - 1 := db.employees[e - 1].(lastWorkDate := Some(now.date))];
    }
    checkedIn := true;
  }

  /** `check_out`: for a selected employee id, record the time on today's row if it
      has none yet; nothing else changes. */
  method CheckOut(db: Db, employeeText: string, now: Instant)
    requires OneRowPerDay(db.attendance)
    modifies db`attendance
    ensures OneRowPerDay(db.attendance)
    ensures var sel := ParseSelection(employeeText);
            if sel.Selected? then db.attendance == CheckOutRows(old(db.attendance), sel.id, now)
            else db.attendance == old(db.attendance)
  {
    var sel := ParseSelection(employeeText);
    if !sel.Selected? {
      return;
    }
    CheckOutFillsOnlyEmptySlot(db.attendance, sel.id, now);
    db.attendance := CheckOutRows(db.attendance, sel.id, now);
    assert Unique(db.attendance, DayKey) by {
      forall i, j | 0 <= i < j < |db.attendance|
        ensures DayKey(db.attendance[i]) != DayKey(db.attendance[j])
      {
        assert DayKey(old(db.attendance)[i]) != DayKey(old(db.attendance)[j]);
      }
    }
  }

  predicate WasLate(a: Attendance) { a.isLate }

  /** The attendance report's counters over the rows it lists: "Total Days" is the
      number of rows and "Late" the number flagged late, never more than the days. */
  method AttendanceSummary(rows: seq<Attendance>) returns (totalDays: nat, lateCount: nat)
    ensures totalDays == |rows|
    ensures lateCount == Count(rows, WasLate)
    ensures lateCount <= totalDays
    ensures lateCount == totalDays <==> forall i :: 0 <= i < |rows| ==> rows[i].isLate
  {
    lateCount := 0;
    var i := 0;
    while i < |rows|
      invariant 0 <= i <= |rows|
      invariant lateCount == Count(rows[..i], WasLate)
    {
      assert rows[..i + 1] == rows[..i] + [rows[i]];
      CountAppend(rows[..i], rows[i], WasLate);
      if rows[i].isLate {
        lateCount := lateCount + 1;
      }
      i := i + 1;
    }
    assert rows[..i] == rows;
    CountAtMost(rows, WasLate);
    totalDays := |rows|;
  }

  function CommissionAmount(c: Commission): real { c.amount }

  /** The commission report's total over the rows it lists. */
  method CommissionTotal(rows: seq<Commission>) returns (total: real)
    ensures total == Sum(rows, CommissionAmount)
    ensures (forall i :: 0 <= i < |rows| ==> rows[i].amount >= 0.0) ==> total >= 0.0
  {
    total := 0.0;
    var i := 0;
    while i < |rows|
      invariant 0 <= i <= |rows|
      invariant total == Sum(rows[..i], CommissionAmount)
    {
      assert rows[..i + 1] == rows[..i] + [rows[i]];
      SumAppend(rows[..i], rows[i], CommissionAmount);
      total := total + rows[i].amount;
      i := i + 1;
    }
    assert rows[..i] == rows;
    if forall i :: 0 <= i < |rows| ==> rows[i].amount >= 0.0 {
      SumNonNegative(rows, CommissionAmount);
    }
  }

  /** Recording a salon service adds its commission to the stylist's report total. */
  lemma RecordedCommissionAdds(rows: seq<Commission>, c: Commission)
    ensures Sum(rows + [c], CommissionAmount) == Sum(rows, CommissionAmount) + c.amount
  {
    SumAppend(rows, c, CommissionAmount);
  }
}
