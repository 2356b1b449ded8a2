/** Step deposits: chips for the highest step count reported per day, up to a daily cap. */
module Deposits {
  import opened Collections
  import Table

  type UserId = Table.UserId

  type ReportId = nat

  type Date = int

  const STEPS_PER_CHIP := 1

  datatype Reason = NewDay | Increment | NoOpLower | NoOpDuplicateValue | CapExceeded | CapPartial

  /** One row of the audit log. */
  datatype Report = Report(steps: int, credited: int, date: Date, reason: Reason)

  /** One row of the balance snapshots. */
  datatype Balance = Balance(chips: int, totalDeposited: int, totalReports: nat)

  datatype Input = Input(user: UserId, reportId: ReportId, date: Date, steps: int)

  datatype Outcome = Failed | Processed(credited: int, newBalance: int, highWater: int, reason: Reason)

  /** The tables a deposit touches: caps per user (0 = none), high-water marks per user and date,
      the audit log by report id, and balances. */
  datatype Tables = Tables(caps: map<UserId, int>, daily: map<(UserId, Date), int>,
                           reports: map<(UserId, ReportId), Report>, balances: map<UserId, Balance>)

  // ── Sums over the audit log ───────────────────────────────────────────────

  function CreditRows(reports: map<(UserId, ReportId), Report>, user: UserId, date: Date): map<(UserId, ReportId), int>
  {
    map k | k in reports && k.0 == user && reports[k].date == date :: reports[k].credited
  }

  /** What the audit log credits a user for a date. */
  ghost function Credited(t: Tables, user: UserId, date: Date): int
  {
    Total(CreditRows(t.reports, user, date))
  }

  lemma CreditedAfter(t: Tables, k: (UserId, ReportId), r: Report, user: UserId, date: Date)
    requires k !in t.reports
    ensures Credited(t.(reports := t.reports[k := r]), user, date)
         == Credited(t, user, date) + if k.0 == user && r.date == date then r.credited else 0
  {
    var rows, after := CreditRows(t.reports, user, date), CreditRows(t.reports[k := r], user, date);
    if k.0 == user && r.date == date {
      assert after == rows[k := r.credited];
      TotalUpdate(rows, k, r.credited);
    } else {
      assert after == rows;
    }
  }

  // ── One report ────────────────────────────────────────────────────────────

  function HighWater(t: Tables, user: UserId, date: Date): int
  {
    if (user, date) in t.daily then t.daily[(user, date)] else 0
  }

  /** What a report adds before the cap, and how it is classified. */
  function Classify(steps: int, prev: int): (int, Reason)
  {
    if steps < prev then (0, NoOpLower)
    else if steps == prev && prev > 0 then (0, NoOpDuplicateValue)
    else if prev == 0 then (steps, NewDay)
    else (steps - prev, Increment)
  }

  /** The daily cap applied to a raw credit. */
  function Cap(raw: (int, Reason), cap: int, credited: int): (int, Reason)
  {
    if raw.0 <= 0 || cap <= 0 then raw
    else if cap - credited <= 0 then (0, CapExceeded)
    else if raw.0 > cap - credited then (cap - credited, CapPartial)
    else raw
  }

  ghost function Grant(t: Tables, i: Input): (int, Reason)
    requires i.user in t.caps
  {
    Cap(Classify(i.steps, HighWater(t, i.user, i.date)), t.caps[i.user], Credited(t, i.user, i.date))
  }

  /** A report that is neither a repetition nor refused: a negative count breaks a table constraint
      and an unknown user a reference, and both undo the whole transaction. */
  predicate Takes(t: Tables, i: Input)
  {
    (i.user, i.reportId) !in t.reports && i.steps >= 0 && i.user in t.caps && i.user in t.balances
  }

  function AuditRow(i: Input, delta: int, reason: Reason): Report
  {
    Report(i.steps, delta * STEPS_PER_CHIP, i.date, reason)
  }

  function Paid(b: Balance, chips: int): Balance
  {
    Balance(b.chips + chips, b.totalDeposited + chips, b.totalReports + 1)
  }

  /** The rows a report writes. */
  function Booked(t: Tables, i: Input, delta: int, reason: Reason): Tables
    requires Takes(t, i)
  {
    var prev := HighWater(t, i.user, i.date);
    t.(daily := t.daily[(i.user, i.date) := if i.steps > prev then i.steps else prev],
       reports := t.reports[(i.user, i.reportId) := AuditRow(i, delta, reason)],
       balances := t.balances[i.user := Paid(t.balances[i.user], delta * STEPS_PER_CHIP)])
  }

  /** The tables after a report; a report id seen before changes nothing. */
  ghost function Deposit(t: Tables, i: Input): Tables
  {
    if Takes(t, i) then Booked(t, i, Grant(t, i).0, Grant(t, i).1) else t
  }

  ghost function DepositAll(t: Tables, ins: seq<Input>): Tables
  {
    if ins == [] then t else Deposit(DepositAll(t, ins[..|ins| - 1]), ins[|ins| - 1])
  }

  // ── The rows behind a deposit ─────────────────────────────────────────────

  class DepositStore {
    var caps: map<UserId, int>
    var daily: map<(UserId, Date), int>
    var reports: map<(UserId, ReportId), Report>
    var balances: map<UserId, Balance>

    ghost function Contents(): Tables
      reads this
    {
      Tables(caps, daily, reports, balances)
    }

    method SumCreditedToday(user: UserId, date: Date) returns (sum: int)
      ensures sum == Credited(Contents(), user, date)
    {
      var rows := CreditRows(reports, user, date);
      sum := 0;
      while rows != map[]
        invariant sum + Total(rows) == Credited(Contents(), user, date)
        decreases |rows|
      {
        var k :| k in rows;
        TotalPick(rows, k);
        sum, rows := sum + rows[k], rows - {k};
      }
    }

    /** What the report is worth, given the day's mark so far. */
    method ComputeGrant(i: Input, prevHWM: int) returns (delta: int, reason: Reason)
      requires i.user in caps && prevHWM == HighWater(Contents(), i.user, i.date)
      ensures (delta, reason) == Grant(Contents(), i)
    {
      if i.steps < prevHWM {
        delta, reason := 0, NoOpLower;
      } else if i.steps == prevHWM && prevHWM > 0 {
        delta, reason := 0, NoOpDuplicateValue;
      } else if prevHWM == 0 {
        delta, reason := i.steps, NewDay;
      } else {
        delta, reason := i.steps - prevHWM, Increment;
      }
      if delta > 0 && caps[i.user] > 0 {
        var credited := SumCreditedToday(i.user, i.date);
        var remaining := caps[i.user] - credited;
        if remaining <= 0 {
          delta, reason := 0, CapExceeded;
        } else if delta > remaining {
          delta, reason := remaining, CapPartial;
        }
      }
    }

    /** One report, in one transaction. */
    method ReportSteps(i: Input) returns (out: Outcome)
      modifies this
      ensures Contents() == Deposit(old(Contents()), i)
      ensures out.Failed? ==> Contents() == old(Contents())
      ensures Takes(old(Contents()), i) ==> out.Processed? && out.highWater == HighWater(Contents(), i.user, i.date)
      ensures out.Processed? ==>
        && (i.user, i.reportId) in reports && i.user in balances
        && out.credited == reports[(i.user, i.reportId)].credited
        && out.reason == reports[(i.user, i.reportId)].reason
        && out.newBalance == balances[i.user].chips
    {
      hide Grant;
      var key, day := (i.user, i.reportId), (i.user, i.date);
      if key in reports {
        if i.user !in balances {
          return Failed;
        }
        var seen := reports[key];
        return Processed(seen.credited, balances[i.user].chips,
                         if day in daily then daily[day] else seen.steps, seen.reason);
      }
      if i.user !in caps || i.user !in balances || i.steps < 0 {
        return Failed;
      }
      var prevHWM := if day in daily then daily[day] else 0;
      var delta, reason := ComputeGrant(i, prevHWM);
      daily := daily[day := if i.steps > prevHWM then i.steps else prevHWM];
      reports := reports[key := AuditRow(i, delta, reason)];
      balances := balances[i.user := Paid(balances[i.user], delta * STEPS_PER_CHIP)];
      out := Processed(delta * STEPS_PER_CHIP, balances[i.user].chips, daily[day], reason);
    }
  }

  // ── The closed form ───────────────────────────────────────────────────────

  /** What a day's highest count is worth. */
  function Worth(cap: int, steps: int): int
  {
    if cap > 0 && steps > cap then cap else steps
  }

  /** top is the highest count in the audit log for a user and date, or 0 when there is none. */
  ghost predicate IsTop(t: Tables, user: UserId, date: Date, top: int)
  {
    && (forall k | k in t.reports && k.0 == user && t.reports[k].date == date :: t.reports[k].steps <= top)
    && (top == 0 || exists k :: k in t.reports && k.0 == user && t.reports[k].date == date && t.reports[k].steps == top)
    && top >= 0
  }

  /** What each date has credited a user. */
  ghost function DateCredits(t: Tables, user: UserId): map<Date, int>
  {
    map k: (UserId, Date) | k in t.daily && k.0 == user :: k.1 := Credited(t, user, k.1)
  }

  /** Every high-water mark is the highest count in the log, every date is credited what that count
      is worth, and the total deposited is the sum over dates. */
  ghost predicate Ledger(t: Tables)
  {
    && t.caps.Keys == t.balances.Keys
    && (forall u, d :: IsTop(t, u, d, HighWater(t, u, d)))
    && (forall u, d | u in t.caps :: Credited(t, u, d) == Worth(t.caps[u], HighWater(t, u, d)))
    && (forall u | u in t.balances :: t.balances[u].totalDeposited == Total(DateCredits(t, u)))
  }

  lemma GrantReachesWorth(steps: int, prev: int, cap: int)
    requires steps >= 0 && prev >= 0
    ensures Worth(cap, prev) + Cap(Classify(steps, prev), cap, Worth(cap, prev)).0
        == Worth(cap, if steps > prev then steps else prev)
  {
  }

  lemma TopAfter(t: Tables, i: Input, delta: int, reason: Reason, u: UserId, d: Date)
    requires Takes(t, i) && IsTop(t, u, d, HighWater(t, u, d))
    ensures IsTop(Booked(t, i, delta, reason), u, d, HighWater(Booked(t, i, delta, reason), u, d))
  {
    var t2, key, top := Booked(t, i, delta, reason), (i.user, i.reportId), HighWater(t, u, d);
    var top2 := HighWater(t2, u, d);
    assert top2 == if (u, d) == (i.user, i.date) && i.steps > top then i.steps else top;
    forall k | k in t2.reports && k.0 == u && t2.reports[k].date == d ensures t2.reports[k].steps <= top2 {
      assert k == key || (k in t.reports && t2.reports[k] == t.reports[k]);
    }
    if top2 != 0 && top2 == top {
      var k :| k in t.reports && k.0 == u && t.reports[k].date == d && t.reports[k].steps == top;
      assert k in t2.reports && t2.reports[k] == t.reports[k];
    } else if top2 != 0 {
      assert key in t2.reports && t2.reports[key].steps == top2;
    }
  }

  lemma CreditAfter(t: Tables, i: Input, delta: int, reason: Reason, u: UserId, d: Date)
    requires Takes(t, i)
    ensures Credited(Booked(t, i, delta, reason), u, d)
         == Credited(t, u, d) + if u == i.user && d == i.date then delta else 0
  {
    var r := AuditRow(i, delta, reason);
    CreditedAfter(t, (i.user, i.reportId), r, u, d);
    assert Booked(t, i, delta, reason).reports == t.(reports := t.reports[(i.user, i.reportId) := r]).reports;
  }

  lemma WorthAfter(t: Tables, i: Input, u: UserId, d: Date)
    requires Takes(t, i) && Ledger(t) && u in t.caps
    ensures Credited(Deposit(t, i), u, d) == Worth(t.caps[u], HighWater(Deposit(t, i), u, d))
  {
    hide Credited, IsTop, Cap, Classify;
    CreditAfter(t, i, Grant(t, i).0, Grant(t, i).1, u, d);
    LedgerAt(t, u, d);
    LedgerAt(t, i.user, i.date);
    GrantReachesWorth(i.steps, HighWater(t, i.user, i.date), t.caps[i.user]);
  }

  lemma LedgerAt(t: Tables, u: UserId, d: Date)
    requires Ledger(t) && u in t.caps
    ensures Credited(t, u, d) == Worth(t.caps[u], HighWater(t, u, d)) && HighWater(t, u, d) >= 0
  {
    assert IsTop(t, u, d, HighWater(t, u, d));
  }

  lemma TotalAfter(t: Tables, i: Input, delta: int, reason: Reason, u: UserId)
    requires Takes(t, i) && u in t.balances && t.balances[u].totalDeposited == Total(DateCredits(t, u))
    requires (i.user, i.date) !in t.daily ==> Credited(t, i.user, i.date) == 0
    ensures var t2 := Booked(t, i, delta, reason); t2.balances[u].totalDeposited == Total(DateCredits(t2, u))
  {
    hide Credited, HighWater, AuditRow;
    var t2, was := Booked(t, i, delta, reason), DateCredits(t, u);
    DateCreditsAfter(t, i, delta, reason, u);
    if u == i.user {
      TotalUpdate(was, i.date, Credited(t, u, i.date) + delta);
      DateIsThere(t, u, i.date);
    }
  }

  lemma DateIsThere(t: Tables, u: UserId, d: Date)
    ensures d in DateCredits(t, u) <==> (u, d) in t.daily
    ensures d in DateCredits(t, u) ==> DateCredits(t, u)[d] == Credited(t, u, d)
  {
    hide Credited;
    var k := (u, d);
    assert k.0 == u && k.1 == d;
  }

  lemma DateCreditsAfter(t: Tables, i: Input, delta: int, reason: Reason, u: UserId)
    requires Takes(t, i)
    ensures DateCredits(Booked(t, i, delta, reason), u)
         == if u == i.user then DateCredits(t, u)[i.date := Credited(t, u, i.date) + delta] else DateCredits(t, u)
  {
    hide Credited, AuditRow;
    var t2, was := Booked(t, i, delta, reason), DateCredits(t, u);
    var want := if u == i.user then was[i.date := Credited(t, u, i.date) + delta] else was;
    forall d ensures d in DateCredits(t2, u) <==> d in want
      ensures d in want ==> DateCredits(t2, u)[d] == want[d]
    {
      DateIsThere(t, u, d);
      DateIsThere(t2, u, d);
      CreditAfter(t, i, delta, reason, u, d);
    }
  }

  lemma NothingYet(t: Tables, u: UserId, d: Date)
    requires Ledger(t) && (u, d) !in t.daily && u in t.caps
    ensures Credited(t, u, d) == 0
  {
    assert Credited(t, u, d) == Worth(t.caps[u], HighWater(t, u, d));
  }

  lemma DepositKeepsLedger(t: Tables, i: Input)
    requires Ledger(t)
    ensures Ledger(Deposit(t, i))
  {
    hide Credited, IsTop, HighWater, DateCredits, Worth, Cap, Classify;
    if Takes(t, i) {
      var t2, delta, reason := Deposit(t, i), Grant(t, i).0, Grant(t, i).1;
      if (i.user, i.date) !in t.daily {
        NothingYet(t, i.user, i.date);
      }
      forall u, d ensures IsTop(t2, u, d, HighWater(t2, u, d)) {
        TopAfter(t, i, delta, reason, u, d);
      }
      forall u, d | u in t2.caps ensures Credited(t2, u, d) == Worth(t2.caps[u], HighWater(t2, u, d)) {
        WorthAfter(t, i, u, d);
      }
      forall u | u in t2.balances ensures t2.balances[u].totalDeposited == Total(DateCredits(t2, u)) {
        TotalAfter(t, i, delta, reason, u);
      }
    }
  }

  /** No report filed, nothing credited; caps are whatever the users chose. */
  ghost predicate Fresh(t: Tables)
  {
    && t.daily == map[] && t.reports == map[] && t.caps.Keys == t.balances.Keys
    && forall u | u in t.balances :: t.balances[u].totalDeposited == 0
  }

  lemma FreshIsLedger(t: Tables)
    requires Fresh(t)
    ensures Ledger(t)
  {
    forall u, d ensures Credited(t, u, d) == 0 {
      assert CreditRows(t.reports, u, d) == map[];
    }
    forall u ensures Total(DateCredits(t, u)) == 0 {
      assert DateCredits(t, u) == map[];
    }
  }

  lemma {:induction false} DepositsKeepLedger(t: Tables, ins: seq<Input>)
    requires Ledger(t)
    ensures Ledger(DepositAll(t, ins)) && DepositAll(t, ins).caps == t.caps
  {
    hide Ledger;
    if ins != [] {
      DepositsKeepLedger(t, ins[..|ins| - 1]);
      DepositKeepsLedger(DepositAll(t, ins[..|ins| - 1]), ins[|ins| - 1]);
    }
  }

  // ── Order does not matter ─────────────────────────────────────────────────

  predicate Accepted(t: Tables, i: Input)
  {
    i.steps >= 0 && i.user in t.caps && i.user in t.balances
  }

  predicate SameKey(i: Input, j: Input)
  {
    i.user == j.user && i.reportId == j.reportId
  }

  /** The k-th report is the one that counts for its id: the first that is accepted. */
  ghost predicate CountsAt(t: Tables, ins: seq<Input>, k: nat)
    requires k < |ins|
  {
    && Accepted(t, ins[k])
    && forall j | 0 <= j < k :: Accepted(t, ins[j]) ==> !SameKey(ins[j], ins[k])
  }

  lemma {:induction false} SomeCounts(t: Tables, ins: seq<Input>, j: nat) returns (k: nat)
    requires j < |ins| && Accepted(t, ins[j])
    ensures k <= j && CountsAt(t, ins, k) && SameKey(ins[k], ins[j])
  {
    if l: nat :| l < j && Accepted(t, ins[l]) && SameKey(ins[l], ins[j]) {
      k := SomeCounts(t, ins, l);
    } else {
      k := j;
    }
  }

  /** The audit log holds exactly the reports that count, each once, with its steps and date. */
  ghost predicate LogHolds(t: Tables, ins: seq<Input>, t2: Tables)
  {
    && (forall k: nat | k < |ins| && CountsAt(t, ins, k) ::
          (ins[k].user, ins[k].reportId) in t2.reports
          && t2.reports[(ins[k].user, ins[k].reportId)].steps == ins[k].steps
          && t2.reports[(ins[k].user, ins[k].reportId)].date == ins[k].date)
    && (forall key | key in t2.reports ::
          exists k: nat :: k < |ins| && CountsAt(t, ins, k) && key == (ins[k].user, ins[k].reportId))
  }

  lemma SamePrefix(t: Tables, ins: seq<Input>, k: nat)
    requires ins != [] && k < |ins| - 1
    ensures CountsAt(t, ins, k) <==> CountsAt(t, ins[..|ins| - 1], k)
  {
  }

  lemma {:induction false} LogHoldsReports(t: Tables, ins: seq<Input>)
    requires Fresh(t)
    ensures var t2 := DepositAll(t, ins);
      t2.caps == t.caps && t2.balances.Keys == t.balances.Keys && LogHolds(t, ins, t2)
  {
    hide Credited, Grant, LogHolds;
    if ins != [] {
      LogHoldsReports(t, ins[..|ins| - 1]);
      LogGrows(t, ins, DepositAll(t, ins[..|ins| - 1]));
    } else {
      NothingLogged(t);
    }
  }

  lemma NothingLogged(t: Tables)
    requires Fresh(t)
    ensures LogHolds(t, [], t)
  {
  }

  lemma LogGrows(t: Tables, ins: seq<Input>, t1: Tables)
    requires ins != [] && t1.caps == t.caps && t1.balances.Keys == t.balances.Keys && LogHolds(t, ins[..|ins| - 1], t1)
    ensures var t2 := Deposit(t1, ins[|ins| - 1]);
      t2.caps == t.caps && t2.balances.Keys == t.balances.Keys && LogHolds(t, ins, t2)
  {
    hide Credited, Grant, CountsAt;
    var n := |ins| - 1;
    var rest, last := ins[..n], ins[n];
    var t2 := Deposit(t1, last);
    LastCounts(t, ins, t1);
    forall k: nat | k < |ins| && CountsAt(t, ins, k)
      ensures (ins[k].user, ins[k].reportId) in t2.reports
      ensures t2.reports[(ins[k].user, ins[k].reportId)].steps == ins[k].steps
      ensures t2.reports[(ins[k].user, ins[k].reportId)].date == ins[k].date
    {
      if k < n {
        SamePrefix(t, ins, k);
        assert CountsAt(t, rest, k);
      }
    }
    forall key | key in t2.reports
      ensures exists k: nat :: k < |ins| && CountsAt(t, ins, k) && key == (ins[k].user, ins[k].reportId)
    {
      if key in t1.reports {
        var k: nat :| k < |rest| && CountsAt(t, rest, k) && key == (rest[k].user, rest[k].reportId);
        SamePrefix(t, ins, k);
      } else {
        assert CountsAt(t, ins, n);
      }
    }
  }

  /** The last report is taken exactly when it counts. */
  lemma LastCounts(t: Tables, ins: seq<Input>, t1: Tables)
    requires ins != [] && t1.caps == t.caps && t1.balances.Keys == t.balances.Keys && LogHolds(t, ins[..|ins| - 1], t1)
    ensures Takes(t1, ins[|ins| - 1]) <==> CountsAt(t, ins, |ins| - 1)
  {
    var n := |ins| - 1;
    var rest, last := ins[..n], ins[n];
    if (last.user, last.reportId) in t1.reports {
      var k: nat :| k < |rest| && CountsAt(t, rest, k)
          && (last.user, last.reportId) == (rest[k].user, rest[k].reportId);
      assert SameKey(ins[k], ins[n]) && Accepted(t, ins[k]);
    } else if j: nat :| j < n && Accepted(t, ins[j]) && SameKey(ins[j], ins[n]) {
      var k := SomeCounts(t, rest, j);
    }
  }

  /** The highest count for a user and date among the reports that count, or 0. */
  ghost predicate IsMaxReported(t: Tables, ins: seq<Input>, user: UserId, date: Date, top: int)
  {
    && (forall k: nat | k < |ins| && CountsAt(t, ins, k) :: ins[k].user == user && ins[k].date == date ==>
        ins[k].steps <= top)
    && (top == 0 || exists k: nat ::
          k < |ins| && CountsAt(t, ins, k) && ins[k].user == user && ins[k].date == date && ins[k].steps == top)
    && top >= 0
  }

  lemma HighWaterIsMax(t: Tables, ins: seq<Input>, u: UserId, d: Date)
    requires Fresh(t)
    ensures IsMaxReported(t, ins, u, d, HighWater(DepositAll(t, ins), u, d))
  {
    hide Credited, DepositAll, HighWater, DateCredits, Worth, Fresh, CountsAt;
    var t2 := DepositAll(t, ins);
    FreshIsLedger(t);
    DepositsKeepLedger(t, ins);
    LogHoldsReports(t, ins);
    var top := HighWater(t2, u, d);
    assert IsTop(t2, u, d, top);
    if top != 0 {
      var key :| key in t2.reports && key.0 == u && t2.reports[key].date == d && t2.reports[key].steps == top;
      var k: nat :| k < |ins| && CountsAt(t, ins, k) && key == (ins[k].user, ins[k].reportId);
    }
  }

  lemma OneMax(t: Tables, ins: seq<Input>, u: UserId, d: Date, a: int, b: int)
    requires IsMaxReported(t, ins, u, d, a) && IsMaxReported(t, ins, u, d, b)
    ensures a == b
  {
    hide CountsAt;
  }

  /** Whatever the order of the reports and however often an id is repeated: a user is credited for a
      date what the highest count reported under new ids is worth — that count, or the cap when it is
      higher — and in all the sum of this over the dates. */
  lemma DepositsAreWorth(t: Tables, ins: seq<Input>, u: UserId, d: Date, top: int)
    requires Fresh(t) && u in t.caps && IsMaxReported(t, ins, u, d, top)
    ensures Credited(DepositAll(t, ins), u, d) == if 0 < t.caps[u] < top then t.caps[u] else top
    ensures u in DepositAll(t, ins).balances
    ensures DepositAll(t, ins).balances[u].totalDeposited == Total(DateCredits(DepositAll(t, ins), u))
  {
    hide Credited, Grant, IsMaxReported, IsTop, DateCredits, HighWater;
    FreshIsLedger(t);
    DepositsKeepLedger(t, ins);
    HighWaterIsMax(t, ins, u, d);
    OneMax(t, ins, u, d, top, HighWater(DepositAll(t, ins), u, d));
    LedgerAt(DepositAll(t, ins), u, d);
  }

  /** Repeated report ids repeat their report. */
  ghost predicate Consistent(ins: seq<Input>)
  {
    forall i, j | i in ins && j in ins && SameKey(i, j) :: i == j
  }

  /** Then the highest count is that of all accepted reports. */
  lemma MaxOfConsistent(t: Tables, ins: seq<Input>, u: UserId, d: Date, top: int)
    requires Consistent(ins) && IsMaxReported(t, ins, u, d, top)
    ensures forall i | i in ins && Accepted(t, i) && i.user == u && i.date == d :: i.steps <= top
    ensures top == 0 || exists i :: i in ins && Accepted(t, i) && i.user == u && i.date == d && i.steps == top
  {
    forall i | i in ins && Accepted(t, i) && i.user == u && i.date == d ensures i.steps <= top {
      var j: nat :| j < |ins| && ins[j] == i;
      var k := SomeCounts(t, ins, j);
      assert ins[k] in ins;
    }
    if top != 0 {
      var k: nat :| k < |ins| && CountsAt(t, ins, k) && ins[k].user == u && ins[k].date == d && ins[k].steps == top;
      assert ins[k] in ins;
    }
  }

  /** So the same reports, in any order and multiplicity, credit the same — if a repeated id repeats its
      report. */
  lemma SameSetSameCredit(t: Tables, a: seq<Input>, b: seq<Input>, u: UserId, d: Date)
    requires Fresh(t) && Consistent(a) && Elems(a) == Elems(b) && u in t.caps
    ensures Credited(DepositAll(t, a), u, d) == Credited(DepositAll(t, b), u, d)
    ensures HighWater(DepositAll(t, a), u, d) == HighWater(DepositAll(t, b), u, d)
  {
    hide Credited, Grant, HighWater, Fresh, IsMaxReported, Worth;
    assert forall i :: i in b <==> i in Elems(a);
    assert forall i :: i in a <==> i in Elems(a);
    HighWaterIsMax(t, a, u, d);
    HighWaterIsMax(t, b, u, d);
    var top, top2 := HighWater(DepositAll(t, a), u, d), HighWater(DepositAll(t, b), u, d);
    MaxOfConsistent(t, a, u, d, top);
    MaxOfConsistent(t, b, u, d, top2);
    assert top >= 0 && top2 >= 0 by {
      MaxIsCount(t, a, u, d, top);
      MaxIsCount(t, b, u, d, top2);
    }
    DepositsAreWorth(t, a, u, d, top);
    DepositsAreWorth(t, b, u, d, top2);
  }

  lemma MaxIsCount(t: Tables, ins: seq<Input>, u: UserId, d: Date, top: int)
    requires IsMaxReported(t, ins, u, d, top)
    ensures top >= 0
  {
  }

  /** Otherwise the order decides: 5 and 9 steps under one report id credit whichever came first. */
  lemma ReusedIdOrderMatters(t: Tables, u: UserId, d: Date)
    requires Fresh(t) && u in t.caps && t.caps[u] <= 0
    ensures var low, high := Input(u, 1, d, 5), Input(u, 1, d, 9);
      Credited(DepositAll(t, [low, high]), u, d) == 5 && Credited(DepositAll(t, [high, low]), u, d) == 9
  {
    hide Credited, DepositAll;
    var low, high := Input(u, 1, d, 5), Input(u, 1, d, 9);
    FirstCounts(t, low, high);
    FirstCounts(t, high, low);
    DepositsAreWorth(t, [low, high], u, d, 5);
    DepositsAreWorth(t, [high, low], u, d, 9);
  }

  lemma FirstCounts(t: Tables, i: Input, j: Input)
    requires SameKey(i, j) && Accepted(t, i)
    ensures IsMaxReported(t, [i, j], i.user, i.date, i.steps)
  {
    assert CountsAt(t, [i, j], 0);
    assert Accepted(t, [i, j][0]) && SameKey([i, j][0], j);
    assert !CountsAt(t, [i, j], 1);
  }
}
