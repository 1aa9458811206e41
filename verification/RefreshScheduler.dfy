/**
 * The brand research refresh scheduler: daily, weekly and monthly cadences per brand under a
 * rolling 30-day budget per organisation. Time is an integer number of milliseconds.
 *
 * What the database and the clock decide is an input of a tick: which row stands for a brand
 * group in the backfill query, the order of the schedule query, and for each visited schedule
 * what the clock read when the run row was written or which write failed.
 */
module RefreshScheduler {
  import opened Text
  import opened ResearchStatus

  const DAY_MS: int := 24 * 60 * 60 * 1000
  const WEEK_MS: int := 7 * DAY_MS
  const MONTH_MS: int := 30 * DAY_MS

  datatype RunKind = Onboarding | DailyCheck | WeeklyUpdate | MonthlyReview | Manual
  {
    /** `run_kind IN ('daily_check', 'weekly_update', 'monthly_review')`. */
    predicate Refresh() { DailyCheck? || WeeklyUpdate? || MonthlyReview? }
  }

  datatype Key = Key(assistantId: string, brandId: string)

  datatype Coverage = Coverage(start: int, end: int)

  datatype ResearchRun = ResearchRun(
    orgId: string, key: Key, kind: RunKind, status: RunStatus,
    createdAt: int, coverage: Option<Coverage>, seedMissing: bool)

  datatype ScheduleError = LimitReached | Thrown

  datatype Schedule = Schedule(
    orgId: string, enabled: bool,
    nextDailyAt: int, nextWeeklyAt: int, nextMonthlyAt: int,
    createdAt: int, lastError: Option<ScheduleError>)

  type Schedules = map<Key, Schedule>

  datatype Config = Config(enabled: bool, daily: bool, weekly: bool, monthly: bool, maxRunsPerWorkspacePer30Days: int)

  datatype Tables = Tables(runs: seq<ResearchRun>, schedules: Schedules)

  // ----- Pieces of a tick -----

  /** The upsert of the backfill: a known schedule only takes the organisation of the chosen row. */
  function BackfillOne(schedules: Schedules, run: ResearchRun, now: int): Schedules {
    if run.key in schedules then schedules[run.key := schedules[run.key].(orgId := run.orgId)]
    else schedules[run.key := Schedule(run.orgId, true, now + DAY_MS, now + WEEK_MS, now + MONTH_MS, now, None)]
  }

  function Backfill(schedules: Schedules, brands: seq<ResearchRun>, now: int): Schedules {
    if brands == [] then schedules
    else BackfillOne(Backfill(schedules, brands[..|brands| - 1], now), brands[|brands| - 1], now)
  }

  predicate Eligible(run: ResearchRun) { !run.seedMissing && run.key.brandId != "" }

  /** One row per brand group, as the grouped query returns them. */
  ghost predicate IsBrandQuery(runs: seq<ResearchRun>, brands: seq<ResearchRun>) {
    && (forall i :: 0 <= i < |brands| ==> brands[i] in runs && Eligible(brands[i]))
    && (forall i, j :: 0 <= i < j < |brands| ==> brands[i].key != brands[j].key)
    && (forall r :: r in runs && Eligible(r) ==> exists i :: 0 <= i < |brands| && brands[i].key == r.key)
  }

  function EarliestAt(s: Schedule): int {
    var m := if s.nextWeeklyAt < s.nextMonthlyAt then s.nextWeeklyAt else s.nextMonthlyAt;
    if s.nextDailyAt < m then s.nextDailyAt else m
  }

  /** The enabled schedules, each once, the earliest due first. */
  ghost predicate IsScheduleQuery(schedules: Schedules, order: seq<Key>) {
    && (forall i :: 0 <= i < |order| ==> order[i] in schedules && schedules[order[i]].enabled)
    && (forall k :: k in schedules && schedules[k].enabled ==> k in order)
    && (forall i, j :: 0 <= i < j < |order| ==> order[i] != order[j])
    && (forall i, j :: 0 <= i < j < |order| ==> EarliestAt(schedules[order[i]]) <= EarliestAt(schedules[order[j]]))
  }

  function RecentRefreshRunCount(runs: seq<ResearchRun>, orgId: string, since: int): nat {
    if runs == [] then 0
    else
      var r := runs[|runs| - 1];
      RecentRefreshRunCount(runs[..|runs| - 1], orgId, since) +
      (if r.orgId == orgId && r.kind.Refresh() && r.createdAt >= since then 1 else 0)
  }

  predicate HasActiveResearchRun(runs: seq<ResearchRun>, key: Key) {
    exists i :: 0 <= i < |runs| && runs[i].key == key && Active(runs[i].status)
  }

  function DueKind(s: Schedule, now: int, config: Config): Option<RunKind> {
    if config.monthly && s.nextMonthlyAt <= now then Some(MonthlyReview)
    else if config.weekly && s.nextWeeklyAt <= now then Some(WeeklyUpdate)
    else if config.daily && s.nextDailyAt <= now then Some(DailyCheck)
    else None
  }

  function CoverageFor(kind: RunKind, now: int): Coverage {
    var duration := if kind == DailyCheck then DAY_MS else if kind == WeeklyUpdate then WEEK_MS else 365 * DAY_MS;
    Coverage(now - duration, now)
  }

  function AfterEnqueue(s: Schedule, kind: RunKind, now: int): Schedule {
    var t := s.(lastError := None);
    if kind == DailyCheck then t.(nextDailyAt := now + DAY_MS)
    else if kind == WeeklyUpdate then t.(nextWeeklyAt := now + WEEK_MS)
    else t.(nextMonthlyAt := now + MONTH_MS)
  }

  /** How the writes of one visit went: `at` is the clock when the run row was stamped. */
  datatype Attempt =
    | Recorded(at: int)
    | CreateThrew
    | UpdateThrew(at: int)

  /** One iteration of the loop of `runOnce` for the schedule row read before the loop. */
  function Visit(t: Tables, row: Schedule, key: Key, now: int, config: Config, a: Attempt): Tables
    requires key in t.schedules
  {
    match DueKind(row, now, config)
    case None => t
    case Some(kind) =>
      if HasActiveResearchRun(t.runs, key) then t
      else if RecentRefreshRunCount(t.runs, row.orgId, now - MONTH_MS) >= config.maxRunsPerWorkspacePer30Days then
        t.(schedules := t.schedules[key := t.schedules[key].(lastError := Some(LimitReached))])
      else
        match a
        case CreateThrew => t.(schedules := t.schedules[key := t.schedules[key].(lastError := Some(Thrown))])
        case UpdateThrew(at) =>
          Tables(t.runs + [NewRun(row, key, kind, now, at)],
              t.schedules[key := t.schedules[key].(lastError := Some(Thrown))])
        case Recorded(at) =>
          Tables(t.runs + [NewRun(row, key, kind, now, at)],
              t.schedules[key := AfterEnqueue(t.schedules[key], kind, now)])
  }

  function NewRun(row: Schedule, key: Key, kind: RunKind, now: int, at: int): ResearchRun {
    ResearchRun(row.orgId, key, kind, Queued, at, Some(CoverageFor(kind, now)), false)
  }

  function VisitAll(t: Tables, rows: Schedules, order: seq<Key>, now: int, config: Config,
      attempts: seq<Attempt>): (r: Tables)
    requires |attempts| == |order|
    requires forall i :: 0 <= i < |order| ==> order[i] in t.schedules && order[i] in rows
    ensures r.schedules.Keys == t.schedules.Keys
    decreases |order|
  {
    if order == [] then t
    else
      var n := |order| - 1;
      var before := VisitAll(t, rows, order[..n], now, config, attempts[..n]);
      Visit(before, rows[order[n]], order[n], now, config, attempts[n])
  }

  predicate Enabled(config: Config) { config.enabled && config.maxRunsPerWorkspacePer30Days > 0 }

  /** `runOnce` as a function of the tables and of what the database and the clock decided. */
  function Tick(t: Tables, config: Config, now: int, brands: seq<ResearchRun>, order: seq<Key>,
      attempts: seq<Attempt>): Tables
    requires |attempts| == |order|
    requires forall i :: 0 <= i < |order| ==> order[i] in Backfill(t.schedules, brands, now)
  {
    var filled := Tables(t.runs, Backfill(t.schedules, brands, now));
    if !Enabled(config) then filled
    else VisitAll(filled, filled.schedules, order, now, config, attempts)
  }

  class Scheduler {
    var runs: seq<ResearchRun>
    var schedules: Schedules
    const config: Config

    ghost function Contents(): Tables
      reads this
    {
      Tables(runs, schedules)
    }

    constructor (config: Config)
      ensures runs == [] && schedules == map[] && this.config == config
    {
      this.config := config;
      runs, schedules := [], map[];
    }

    method BackfillRefreshSchedules(now: int, brands: seq<ResearchRun>)
      modifies this`schedules
      ensures schedules == Backfill(old(schedules), brands, now)
    {
      for i := 0 to |brands|
        invariant schedules == Backfill(old(schedules), brands[..i], now)
      {
        assert brands[..i + 1][..i] == brands[..i];
        schedules := BackfillOne(schedules, brands[i], now);
      }
      assert brands[..|brands|] == brands;
    }

    /** The body of the loop; true when a run was queued and its schedule moved on. */
    method VisitSchedule(row: Schedule, key: Key, now: int, a: Attempt) returns (queued: bool)
      requires key in schedules
      modifies this
      ensures Contents() == Visit(old(Contents()), row, key, now, config, a)
      ensures queued ==> |runs| == |old(runs)| + 1
      ensures |runs| >= |old(runs)|
      ensures !a.UpdateThrew? ==> (queued <==> |runs| != |old(runs)|)
    {
      queued := false;
      var due := DueKind(row, now, config);
      if due.None? { return; }
      if HasActiveResearchRun(runs, key) { return; }
      if RecentRefreshRunCount(runs, row.orgId, now - MONTH_MS) >= config.maxRunsPerWorkspacePer30Days {
        schedules := schedules[key := schedules[key].(lastError := Some(LimitReached))];
        return;
      }
      if a.CreateThrew? {
        schedules := schedules[key := schedules[key].(lastError := Some(Thrown))];
        return;
      }
      runs := runs + [NewRun(row, key, due.value, now, a.at)];
      if a.UpdateThrew? {
        schedules := schedules[key := schedules[key].(lastError := Some(Thrown))];
        return;
      }
      schedules := schedules[key := AfterEnqueue(schedules[key], due.value, now)];
      queued := true;
    }

    /** `runOnce`. */
    method RunOnce(now: int, brands: seq<ResearchRun>, order: seq<Key>, attempts: seq<Attempt>) returns (enqueued: nat)
      requires |attempts| == |order|
      requires IsScheduleQuery(Backfill(schedules, brands, now), order)
      modifies this
      ensures Contents() == Tick(old(Contents()), config, now, brands, order, attempts)
      ensures enqueued <= |runs| - |old(runs)|
      ensures (forall i :: 0 <= i < |attempts| ==> !attempts[i].UpdateThrew?) ==> enqueued == |runs| - |old(runs)|
    {
      hide Visit, Backfill, EarliestAt;
      enqueued := 0;
      BackfillRefreshSchedules(now, brands);
      if !config.enabled || config.maxRunsPerWorkspacePer30Days <= 0 { return; }
      var rows := schedules;
      ghost var filled := Contents();
      for i := 0 to |order|
        invariant Contents() == VisitAll(filled, rows, order[..i], now, config, attempts[..i])
        invariant enqueued <= |runs| - |old(runs)|
        invariant (forall k :: 0 <= k < i ==> !attempts[k].UpdateThrew?) ==> enqueued == |runs| - |old(runs)|
      {
        assert order[..i + 1][..i] == order[..i] && attempts[..i + 1][..i] == attempts[..i];
        assert order[..i + 1][i] == order[i] && attempts[..i + 1][i] == attempts[i];
        var queued := VisitSchedule(rows[order[i]], order[i], now, attempts[i]);
        if queued { enqueued := enqueued + 1; }
      }
      assert order[..|order|] == order && attempts[..|attempts|] == attempts;
    }
  }

  // ----- Whole histories -----

  /** Ticks, interleaved with run rows written elsewhere and with any change of a run's status. */
  datatype Event =
    | Ticked(now: int, brands: seq<ResearchRun>, order: seq<Key>, attempts: seq<Attempt>)
    | CreatedElsewhere(run: ResearchRun)
    | StatusChanged(index: nat, status: RunStatus)

  ghost predicate Allowed(t: Tables, e: Event) {
    match e
    case Ticked(now, brands, order, attempts) =>
      && |attempts| == |order|
      && IsBrandQuery(t.runs, brands)
      && IsScheduleQuery(Backfill(t.schedules, brands, now), order)
    case CreatedElsewhere(run) => !run.kind.Refresh()
    case StatusChanged(i, _) => i < |t.runs|
  }

  ghost function Step(t: Tables, config: Config, e: Event): Tables
    requires Allowed(t, e)
  {
    match e
    case Ticked(now, brands, order, attempts) => Tick(t, config, now, brands, order, attempts)
    case CreatedElsewhere(run) => t.(runs := t.runs + [run])
    case StatusChanged(i, status) => t.(runs := t.runs[i := t.runs[i].(status := status)])
  }

  ghost predicate AllowedRun(t: Tables, config: Config, events: seq<Event>)
    decreases events
  {
    events == [] || (Allowed(t, events[0]) && AllowedRun(Step(t, config, events[0]), config, events[1..]))
  }

  ghost function Run(t: Tables, config: Config, events: seq<Event>): Tables
    requires AllowedRun(t, config, events)
    decreases events
  {
    if events == [] then t else Run(Step(t, config, events[0]), config, events[1..])
  }

  // ----- The 30-day budget -----

  /** Within one tick the clock never runs backwards: rows are stamped at or after its `now`. */
  ghost predicate ClockForward(e: Event) {
    e.Ticked? ==> forall i :: 0 <= i < |e.attempts| && !e.attempts[i].CreateThrew? ==> e.now <= e.attempts[i].at
  }

  /** Refresh runs of an organisation created in the closed interval from `lo` to `hi`. */
  ghost function RefreshRunsWithin(runs: seq<ResearchRun>, orgId: string, lo: int, hi: int): nat {
    if runs == [] then 0
    else
      var r := runs[|runs| - 1];
      RefreshRunsWithin(runs[..|runs| - 1], orgId, lo, hi) +
      (if r.orgId == orgId && CountsAsRefresh(r) && lo <= r.createdAt <= hi then 1 else 0)
  }

  /** A daily check, a weekly update or a monthly review. */
  ghost predicate CountsAsRefresh(r: ResearchRun) {
    r.kind == DailyCheck || r.kind == WeeklyUpdate || r.kind == MonthlyReview
  }

  /** Refresh runs in the closed 30-day window that starts at `a`. */
  ghost function InMonthFrom(runs: seq<ResearchRun>, orgId: string, a: int): nat {
    RefreshRunsWithin(runs, orgId, a, a + MONTH_MS)
  }

  ghost predicate BudgetKept(runs: seq<ResearchRun>, limit: int) {
    forall orgId: string, a: int :: InMonthFrom(runs, orgId, a) <= (if limit > 0 then limit else 0)
  }

  lemma {:induction false} WindowWithinRecent(runs: seq<ResearchRun>, orgId: string, lo: int, hi: int, since: int)
    requires since <= lo
    ensures RefreshRunsWithin(runs, orgId, lo, hi) <= RecentRefreshRunCount(runs, orgId, since)
  {
    if runs != [] { WindowWithinRecent(runs[..|runs| - 1], orgId, lo, hi, since); }
  }

  lemma AppendWithin(runs: seq<ResearchRun>, r: ResearchRun, orgId: string, lo: int, hi: int)
    ensures RefreshRunsWithin(runs + [r], orgId, lo, hi) == RefreshRunsWithin(runs, orgId, lo, hi) +
              (if r.orgId == orgId && CountsAsRefresh(r) && lo <= r.createdAt <= hi then 1 else 0)
  {
    assert (runs + [r])[..|runs|] == runs;
  }

  /** Counting back from `now` is enough, because the row is stamped no earlier than `now`. */
  lemma EnqueueKeepsBudget(runs: seq<ResearchRun>, r: ResearchRun, limit: int, now: int)
    requires BudgetKept(runs, limit) && now <= r.createdAt
    requires RecentRefreshRunCount(runs, r.orgId, now - MONTH_MS) < limit
    ensures BudgetKept(runs + [r], limit)
  {
    forall orgId: string, a: int
      ensures InMonthFrom(runs + [r], orgId, a) <= (if limit > 0 then limit else 0)
    {
      assert InMonthFrom(runs, orgId, a) <= (if limit > 0 then limit else 0);
      AppendWithin(runs, r, orgId, a, a + MONTH_MS);
      if orgId == r.orgId && a <= r.createdAt <= a + MONTH_MS {
        WindowWithinRecent(runs, orgId, a, a + MONTH_MS, now - MONTH_MS);
      }
    }
  }

  lemma VisitKeepsBudget(t: Tables, row: Schedule, key: Key, now: int, config: Config, a: Attempt)
    requires key in t.schedules && BudgetKept(t.runs, config.maxRunsPerWorkspacePer30Days)
    requires a.CreateThrew? || now <= a.at
    ensures BudgetKept(Visit(t, row, key, now, config, a).runs, config.maxRunsPerWorkspacePer30Days)
  {
    var t' := Visit(t, row, key, now, config, a);
    if t'.runs != t.runs {
      EnqueueKeepsBudget(t.runs, NewRun(row, key, DueKind(row, now, config).value, now, a.at),
          config.maxRunsPerWorkspacePer30Days, now);
    }
  }

  lemma {:induction false} VisitAllKeepsBudget(t: Tables, rows: Schedules, order: seq<Key>, now: int, config: Config,
      attempts: seq<Attempt>)
    requires |attempts| == |order|
    requires forall i :: 0 <= i < |order| ==> order[i] in t.schedules && order[i] in rows
    requires forall i :: 0 <= i < |attempts| && !attempts[i].CreateThrew? ==> now <= attempts[i].at
    requires BudgetKept(t.runs, config.maxRunsPerWorkspacePer30Days)
    ensures BudgetKept(VisitAll(t, rows, order, now, config, attempts).runs, config.maxRunsPerWorkspacePer30Days)
    decreases |order|
  {
    if order != [] {
      var n := |order| - 1;
      VisitAllKeepsBudget(t, rows, order[..n], now, config, attempts[..n]);
      VisitKeepsBudget(VisitAll(t, rows, order[..n], now, config, attempts[..n]), rows[order[n]], order[n], now,
          config, attempts[n]);
    }
  }

  lemma {:induction false} StatusIrrelevant(runs: seq<ResearchRun>, i: nat, status: RunStatus, orgId: string, lo: int,
      hi: int)
    requires i < |runs|
    ensures RefreshRunsWithin(runs[i := runs[i].(status := status)], orgId, lo, hi) ==
            RefreshRunsWithin(runs, orgId, lo, hi)
  {
    var n := |runs| - 1;
    var runs' := runs[i := runs[i].(status := status)];
    if i < n {
      assert runs'[..n] == runs[..n][i := runs[..n][i].(status := status)];
      StatusIrrelevant(runs[..n], i, status, orgId, lo, hi);
    } else {
      assert runs'[..n] == runs[..n];
    }
  }

  lemma StepKeepsBudget(t: Tables, config: Config, e: Event)
    requires Allowed(t, e) && ClockForward(e) && BudgetKept(t.runs, config.maxRunsPerWorkspacePer30Days)
    ensures BudgetKept(Step(t, config, e).runs, config.maxRunsPerWorkspacePer30Days)
  {
    match e
    case Ticked(now, brands, order, attempts) =>
      var filled := Tables(t.runs, Backfill(t.schedules, brands, now));
      if Enabled(config) { VisitAllKeepsBudget(filled, filled.schedules, order, now, config, attempts); }
    case CreatedElsewhere(run) =>
      forall orgId: string, a: int ensures InMonthFrom(t.runs + [run], orgId, a) == InMonthFrom(t.runs, orgId, a) {
        AppendWithin(t.runs, run, orgId, a, a + MONTH_MS);
      }
    case StatusChanged(i, status) =>
      var runs' := t.runs[i := t.runs[i].(status := status)];
      forall orgId: string, a: int ensures InMonthFrom(runs', orgId, a) == InMonthFrom(t.runs, orgId, a) {
        StatusIrrelevant(t.runs, i, status, orgId, a, a + MONTH_MS);
      }
  }

  /**
   * In every history of ticks, other run creations and status changes, no closed 30-day
   * window, wherever it starts, holds more refresh runs of one organisation than the limit.
   */
  lemma {:induction false} RollingBudget(t: Tables, config: Config, events: seq<Event>)
    requires AllowedRun(t, config, events) && BudgetKept(t.runs, config.maxRunsPerWorkspacePer30Days)
    requires forall i :: 0 <= i < |events| ==> ClockForward(events[i])
    ensures BudgetKept(Run(t, config, events).runs, config.maxRunsPerWorkspacePer30Days)
    decreases events
  {
    if events != [] {
      StepKeepsBudget(t, config, events[0]);
      RollingBudget(Step(t, config, events[0]), config, events[1..]);
    }
  }

  /** The same bound for histories that start from empty tables, spelled out for one window. */
  lemma NoWindowOverBudget(config: Config, events: seq<Event>, orgId: string, a: int)
    requires AllowedRun(Tables([], map[]), config, events)
    requires forall i :: 0 <= i < |events| ==> ClockForward(events[i])
    ensures RefreshRunsWithin(Run(Tables([], map[]), config, events).runs, orgId, a, a + 30 * 24 * 60 * 60 * 1000)
            <= (if config.maxRunsPerWorkspacePer30Days > 0 then config.maxRunsPerWorkspacePer30Days else 0)
  {
    RollingBudget(Tables([], map[]), config, events);
    assert InMonthFrom(Run(Tables([], map[]), config, events).runs, orgId, a) <=
           (if config.maxRunsPerWorkspacePer30Days > 0 then config.maxRunsPerWorkspacePer30Days else 0);
  }

  // ----- Cadence -----

  function Period(kind: RunKind): int {
    if kind == DailyCheck then DAY_MS else if kind == WeeklyUpdate then WEEK_MS else MONTH_MS
  }

  function NextAt(s: Schedule, kind: RunKind): int {
    if kind == DailyCheck then s.nextDailyAt else if kind == WeeklyUpdate then s.nextWeeklyAt else s.nextMonthlyAt
  }

  predicate KindEnabled(config: Config, kind: RunKind) {
    (kind == MonthlyReview && config.monthly) || (kind == WeeklyUpdate && config.weekly) ||
        (kind == DailyCheck && config.daily)
  }

  predicate Due(s: Schedule, kind: RunKind, now: int, config: Config) {
    KindEnabled(config, kind) && NextAt(s, kind) <= now
  }

  /** Of the enabled kinds that are due, the one with the longest period is chosen, and none only when none is due. */
  lemma LongestDueKindChosen(s: Schedule, now: int, config: Config)
    ensures DueKind(s, now, config).None? <==> forall kind: RunKind :: !Due(s, kind, now, config)
    ensures DueKind(s, now, config).Some? ==>
              var kind := DueKind(s, now, config).value;
              Due(s, kind, now, config) && forall other: RunKind :: Due(s, other, now, config) ==>
                  Period(other) <= Period(kind)
  {
    assert DueKind(s, now, config).None? ==> forall kind: RunKind :: !Due(s, kind, now, config);
    if forall kind: RunKind :: !Due(s, kind, now, config) {
      assert !Due(s, MonthlyReview, now, config) && !Due(s, WeeklyUpdate, now, config) &&
          !Due(s, DailyCheck, now, config);
    }
  }

  // ----- What one visit does -----

  /** With no row stamped in the future, the scheduler's count is that of the 30 days up to `now`. */
  lemma {:induction false} RecentIsWindow(runs: seq<ResearchRun>, orgId: string, now: int)
    requires forall i :: 0 <= i < |runs| ==> runs[i].createdAt <= now
    ensures RecentRefreshRunCount(runs, orgId, now - MONTH_MS) == RefreshRunsWithin(runs, orgId, now - MONTH_MS, now)
  {
    if runs != [] { RecentIsWindow(runs[..|runs| - 1], orgId, now); }
  }

  /** A run of the brand is queued, running or partial. */
  ghost predicate BrandBusy(runs: seq<ResearchRun>, key: Key) {
    exists i :: 0 <= i < |runs| && runs[i].key == key
                && (runs[i].status == Queued || runs[i].status == Running || runs[i].status == Partial)
  }

  /** How far back a run of this kind looks: a day, a week, or for the monthly review a year. */
  ghost function LookBackDays(kind: RunKind): int {
    if kind == DailyCheck then 1 else if kind == WeeklyUpdate then 7 else 365
  }

  ghost function Refreshed(orgId: string, key: Key, kind: RunKind, now: int, at: int): ResearchRun {
    ResearchRun(orgId, key, kind, Queued, at, Some(Coverage(now - LookBackDays(kind) * 86400000, now)), false)
  }

  ghost predicate NothingDue(s: Schedule, now: int, config: Config) {
    && (config.monthly ==> now < s.nextMonthlyAt)
    && (config.weekly ==> now < s.nextWeeklyAt)
    && (config.daily ==> now < s.nextDailyAt)
  }

  /**
   * A visit writes a run exactly when some kind is due, the brand is not busy and fewer refresh
   * runs of the organisation than the limit were created in the 30 days up to now; the run is of
   * the longest due kind. With the budget used up the refusal is recorded and nothing else.
   */
  lemma VisitExactly(t: Tables, row: Schedule, key: Key, now: int, config: Config, a: Attempt)
    requires key in t.schedules && forall i :: 0 <= i < |t.runs| ==> t.runs[i].createdAt <= now
    ensures var t' := Visit(t, row, key, now, config, a);
            var used := RefreshRunsWithin(t.runs, row.orgId, now - 30 * 86400000, now);
            if NothingDue(row, now, config) || BrandBusy(t.runs, key) then t' == t
            else if used >= config.maxRunsPerWorkspacePer30Days then
              t' == Tables(t.runs, t.schedules[key := t.schedules[key].(lastError := Some(LimitReached))])
            else if a.CreateThrew? then
              t' == Tables(t.runs, t.schedules[key := t.schedules[key].(lastError := Some(Thrown))])
            else
              exists kind: RunKind ::
                && Due(row, kind, now, config)
                && (forall other: RunKind :: Due(row, other, now, config) ==> Period(other) <= Period(kind))
                && t'.runs == t.runs + [Refreshed(row.orgId, key, kind, now, a.at)]
                && t'.schedules.Keys == t.schedules.Keys
                && (forall k :: k in t.schedules && k != key ==> t'.schedules[k] == t.schedules[k])
                && (a.Recorded? ==> NextAt(t'.schedules[key], kind) == now + Period(kind))
  {
    RecentIsWindow(t.runs, row.orgId, now);
    BusyIsActive(t.runs, key);
    hide RecentRefreshRunCount, RefreshRunsWithin, HasActiveResearchRun, BrandBusy;
    LongestDueKindChosen(row, now, config);
    var due := DueKind(row, now, config);
    if due.Some? {
      assert NewRun(row, key, due.value, now, 0) == Refreshed(row.orgId, key, due.value, now, 0);
    }
  }

  lemma BusyIsActive(runs: seq<ResearchRun>, key: Key)
    ensures HasActiveResearchRun(runs, key) <==> BrandBusy(runs, key)
  {
  }

  /**
   * The backfill gives every brand it is shown a schedule of the brand's organisation: a new one
   * is enabled and due a day, a week and 30 days from now, a known one keeps all its other
   * columns. Schedules of brands it is not shown stay as they are.
   */
  lemma {:induction false} BackfillRecords(schedules: Schedules, brands: seq<ResearchRun>, now: int, k: Key)
    requires forall i, j :: 0 <= i < j < |brands| ==> brands[i].key != brands[j].key
    ensures var filled := Backfill(schedules, brands, now);
            && ((forall i :: 0 <= i < |brands| ==> brands[i].key != k) ==>
                  (k in filled <==> k in schedules) && (k in schedules ==> filled[k] == schedules[k]))
            && forall i :: 0 <= i < |brands| && brands[i].key == k ==>
                 && k in filled
                 && filled[k] == (if k in schedules then schedules[k].(orgId := brands[i].orgId)
                                  else Schedule(brands[i].orgId, true, now + 86400000, now + 7 * 86400000,
                                                now + 30 * 86400000, now, None))
  {
    if brands != [] { BackfillRecords(schedules, brands[..|brands| - 1], now, k); }
  }

  /** A refresh run was queued, at tick time `coverage.end`, at least a period after its schedule appeared. */
  ghost predicate QueuedOnTime(r: ResearchRun, schedules: Schedules) {
    && r.coverage.Some? && r.coverage.value == CoverageFor(r.kind, r.coverage.value.end)
    && r.key in schedules && schedules[r.key].createdAt + Period(r.kind) <= r.coverage.value.end
  }

  /** Of two refresh runs of one brand and kind, the later is a full period after the earlier. */
  ghost predicate PeriodApart(r: ResearchRun, later: ResearchRun) {
    r.kind.Refresh() && r.key == later.key && r.kind == later.kind && r.coverage.Some? && later.coverage.Some? ==>
      r.coverage.value.end + Period(r.kind) <= later.coverage.value.end
  }

  ghost predicate Paced(t: Tables) {
    && (forall i :: 0 <= i < |t.runs| && t.runs[i].kind.Refresh() ==> QueuedOnTime(t.runs[i], t.schedules))
    && (forall i, j :: 0 <= i < j < |t.runs| ==> PeriodApart(t.runs[i], t.runs[j]))
  }

  /** The schedule's next-due columns are a full period past its creation ... */
  ghost predicate PastCreation(s: Schedule) { forall kind: RunKind :: s.createdAt + Period(kind) <= NextAt(s, kind) }

  /** ... and past everything already queued for it. */
  ghost predicate PastRun(r: ResearchRun, schedules: Schedules) {
    r.kind.Refresh() && r.coverage.Some? && r.key in schedules ==>
      r.coverage.value.end + Period(r.kind) <= NextAt(schedules[r.key], r.kind)
  }

  ghost predicate Ahead(t: Tables) {
    && (forall k :: k in t.schedules ==> PastCreation(t.schedules[k]))
    && (forall i :: 0 <= i < |t.runs| ==> PastRun(t.runs[i], t.schedules))
  }

  ghost predicate NoLostUpdate(e: Event) {
    e.Ticked? ==> forall i :: 0 <= i < |e.attempts| ==> !e.attempts[i].UpdateThrew?
  }

  /** Same origin, and due no earlier. */
  ghost predicate NoEarlier(a: Schedule, b: Schedule) {
    a.createdAt == b.createdAt && forall kind: RunKind :: NextAt(a, kind) <= NextAt(b, kind)
  }

  /** Schedules may appear and be postponed without disturbing the pace. */
  lemma PostponeKeepsPace(t: Tables, schedules: Schedules)
    requires Paced(t) && Ahead(t)
    requires forall k :: k in t.schedules ==> k in schedules && NoEarlier(t.schedules[k], schedules[k])
    requires forall k :: k in schedules && k !in t.schedules ==> PastCreation(schedules[k])
    ensures Paced(Tables(t.runs, schedules)) && Ahead(Tables(t.runs, schedules))
  {
    forall k | k in schedules ensures PastCreation(schedules[k]) {
      if k in t.schedules {
        forall kind: RunKind ensures schedules[k].createdAt + Period(kind) <= NextAt(schedules[k], kind) {
          assert PastCreation(t.schedules[k]) && NextAt(t.schedules[k], kind) <= NextAt(schedules[k], kind);
        }
      }
    }
    forall i | 0 <= i < |t.runs|
      ensures PastRun(t.runs[i], schedules) && (t.runs[i].kind.Refresh() ==> QueuedOnTime(t.runs[i], schedules))
    {
      var r := t.runs[i];
      assert PastRun(r, t.schedules);
      if r.kind.Refresh() {
        assert QueuedOnTime(r, t.schedules);
        assert NextAt(t.schedules[r.key], r.kind) <= NextAt(schedules[r.key], r.kind);
      }
    }
  }

  lemma AppendKeepsPace(t: Tables, r: ResearchRun)
    requires Paced(t) && Ahead(t)
    requires r.kind.Refresh() ==> QueuedOnTime(r, t.schedules) && PastRun(r, t.schedules)
    requires forall i :: 0 <= i < |t.runs| ==> PeriodApart(t.runs[i], r)
    ensures Paced(t.(runs := t.runs + [r])) && Ahead(t.(runs := t.runs + [r]))
  {
  }

  lemma AfterEnqueueNoEarlier(s: Schedule, kind: RunKind, now: int)
    requires NextAt(s, kind) <= now
    ensures NoEarlier(s, AfterEnqueue(s, kind, now))
    ensures NextAt(AfterEnqueue(s, kind, now), kind) == now + Period(kind)
  {
  }

  lemma EnqueueKeepsPace(t: Tables, row: Schedule, key: Key, now: int, at: int, kind: RunKind)
    requires Paced(t) && Ahead(t) && key in t.schedules && kind.Refresh() && NextAt(t.schedules[key], kind) <= now
    ensures var t' := Tables(t.runs + [NewRun(row, key, kind, now, at)],
            t.schedules[key := AfterEnqueue(t.schedules[key], kind, now)]);
            Paced(t') && Ahead(t')
  {
    var schedules := t.schedules[key := AfterEnqueue(t.schedules[key], kind, now)];
    var r := NewRun(row, key, kind, now, at);
    AfterEnqueueNoEarlier(t.schedules[key], kind, now);
    PostponeKeepsPace(t, schedules);
    assert PastCreation(t.schedules[key]);
    forall i | 0 <= i < |t.runs| ensures PeriodApart(t.runs[i], r) { assert PastRun(t.runs[i], t.schedules); }
    AppendKeepsPace(Tables(t.runs, schedules), r);
  }

  /** The columns that drive the cadence. */
  ghost predicate SameTiming(a: Schedule, b: Schedule) {
    a.createdAt == b.createdAt && a.nextDailyAt == b.nextDailyAt && a.nextWeeklyAt == b.nextWeeklyAt &&
        a.nextMonthlyAt == b.nextMonthlyAt
  }

  lemma VisitKeepsPace(t: Tables, row: Schedule, key: Key, now: int, config: Config, a: Attempt)
    requires Paced(t) && Ahead(t) && key in t.schedules && SameTiming(row, t.schedules[key]) && !a.UpdateThrew?
    ensures var t' := Visit(t, row, key, now, config, a);
            && Paced(t') && Ahead(t')
            && t'.schedules.Keys == t.schedules.Keys
            && (forall k :: k in t.schedules && k != key ==> t'.schedules[k] == t.schedules[k])
  {
    var due := DueKind(row, now, config);
    var t' := Visit(t, row, key, now, config, a);
    if t'.runs != t.runs {
      EnqueueKeepsPace(t, row, key, now, a.at, due.value);
    } else {
      PostponeKeepsPace(t, t'.schedules);
    }
  }

  lemma {:induction false} VisitAllKeepsPace(t: Tables, order: seq<Key>, now: int, config: Config,
      attempts: seq<Attempt>)
    requires |attempts| == |order|
    requires forall i :: 0 <= i < |order| ==> order[i] in t.schedules
    requires forall i, j :: 0 <= i < j < |order| ==> order[i] != order[j]
    requires forall i :: 0 <= i < |attempts| ==> !attempts[i].UpdateThrew?
    requires Paced(t) && Ahead(t)
    ensures var t' := VisitAll(t, t.schedules, order, now, config, attempts);
            && Paced(t') && Ahead(t')
            && (forall k :: k in t.schedules && k !in order ==> t'.schedules[k] == t.schedules[k])
    decreases |order|
  {
    if order != [] {
      var n := |order| - 1;
      VisitAllKeepsPace(t, order[..n], now, config, attempts[..n]);
      var mid := VisitAll(t, t.schedules, order[..n], now, config, attempts[..n]);
      assert order[n] !in order[..n];
      VisitKeepsPace(mid, t.schedules[order[n]], order[n], now, config, attempts[n]);
    }
  }

  lemma {:induction false} BackfillKeepsTiming(schedules: Schedules, brands: seq<ResearchRun>, now: int)
    ensures var filled := Backfill(schedules, brands, now);
            && (forall k :: k in schedules ==> k in filled && NoEarlier(schedules[k], filled[k]))
            && (forall k :: k in filled && k !in schedules ==> PastCreation(filled[k]))
  {
    if brands != [] {
      var mid := Backfill(schedules, brands[..|brands| - 1], now);
      BackfillKeepsTiming(schedules, brands[..|brands| - 1], now);
      var run := brands[|brands| - 1];
      if run.key in mid {
        var s := mid[run.key].(orgId := run.orgId);
        forall kind: RunKind ensures NextAt(s, kind) == NextAt(mid[run.key], kind) { }
      }
    }
  }

  /**
   * In every history without a lost schedule update, however ticks are delayed and whatever
   * the clock does, refresh runs of one brand and kind are at least one period apart and the
   * first comes at least one period after its schedule was recorded.
   */
  lemma {:induction false} CadenceKept(t: Tables, config: Config, events: seq<Event>)
    requires AllowedRun(t, config, events) && Paced(t) && Ahead(t)
    requires forall i :: 0 <= i < |events| ==> NoLostUpdate(events[i])
    ensures Paced(Run(t, config, events)) && Ahead(Run(t, config, events))
    decreases events
  {
    if events != [] {
      StepKeepsPace(t, config, events[0]);
      CadenceKept(Step(t, config, events[0]), config, events[1..]);
    }
  }

  lemma StatusKeepsPace(t: Tables, i: nat, status: RunStatus)
    requires Paced(t) && Ahead(t) && i < |t.runs|
    ensures var t' := t.(runs := t.runs[i := t.runs[i].(status := status)]); Paced(t') && Ahead(t')
  {
  }

  lemma StepKeepsPace(t: Tables, config: Config, e: Event)
    requires Allowed(t, e) && NoLostUpdate(e) && Paced(t) && Ahead(t)
    ensures Paced(Step(t, config, e)) && Ahead(Step(t, config, e))
  {
    match e
    case Ticked(now, brands, order, attempts) =>
      hide Paced, Ahead, PastCreation, VisitAll, IsBrandQuery;
      var filled := Tables(t.runs, Backfill(t.schedules, brands, now));
      BackfillKeepsTiming(t.schedules, brands, now);
      PostponeKeepsPace(t, filled.schedules);
      if Enabled(config) { VisitAllKeepsPace(filled, order, now, config, attempts); }
    case CreatedElsewhere(run) => AppendKeepsPace(t, run);
    case StatusChanged(i, status) => StatusKeepsPace(t, i, status);
  }

  /** The guard of the two writes: a kind is due, no run of the brand is active, and the budget is not used up. */
  predicate Enqueues(t: Tables, row: Schedule, key: Key, now: int, config: Config) {
    && DueKind(row, now, config).Some?
    && !HasActiveResearchRun(t.runs, key)
    && RecentRefreshRunCount(t.runs, row.orgId, now - MONTH_MS) < config.maxRunsPerWorkspacePer30Days
  }

  /** A full period has passed since the schedule was recorded and since every run of that kind. */
  ghost predicate Rested(t: Tables, key: Key, kind: RunKind, now: int)
    requires key in t.schedules
  {
    && t.schedules[key].createdAt + Period(kind) <= now
    && forall i :: 0 <= i < |t.runs| && t.runs[i].key == key && t.runs[i].kind == kind && t.runs[i].coverage.Some? ==>
         t.runs[i].coverage.value.end + Period(kind) <= now
  }

  /**
   * A visit keeps the cadence if and only if it writes no run row, or a full period has passed
   * since the schedule was recorded and since the last run of the kind that is due.
   */
  lemma CadenceKeptExactly(t: Tables, row: Schedule, key: Key, now: int, config: Config, a: Attempt)
    requires Paced(t) && key in t.schedules
    ensures Paced(Visit(t, row, key, now, config, a)) <==>
            (Enqueues(t, row, key, now, config) && !a.CreateThrew? ==>
               Rested(t, key, DueKind(row, now, config).value, now))
  {
    var t' := Visit(t, row, key, now, config, a);
    SameOrigins(t, row, key, now, config, a);
    hide HasActiveResearchRun, RecentRefreshRunCount;
    if Enqueues(t, row, key, now, config) && !a.CreateThrew? {
      var kind := DueKind(row, now, config).value;
      var n := |t.runs|;
      assert t'.runs == t.runs + [NewRun(row, key, kind, now, a.at)] && t'.runs[n].key == key;
      if Paced(t') {
        assert QueuedOnTime(t'.runs[n], t'.schedules);
        forall i | 0 <= i < n && t.runs[i].key == key && t.runs[i].kind == kind && t.runs[i].coverage.Some?
          ensures t.runs[i].coverage.value.end + Period(kind) <= now
        {
          assert PeriodApart(t'.runs[i], t'.runs[n]);
        }
      } else if Rested(t, key, kind, now) {
        PacedAppend(t, t', NewRun(row, key, kind, now, a.at));
      }
    } else {
      assert t'.runs == t.runs;
      PacedSameRuns(t, t');
    }
  }

  ghost predicate SameOrigin(a: Schedules, b: Schedules) {
    forall k :: k in a ==> k in b && b[k].createdAt == a[k].createdAt
  }

  lemma SameOrigins(t: Tables, row: Schedule, key: Key, now: int, config: Config, a: Attempt)
    requires key in t.schedules
    ensures SameOrigin(t.schedules, Visit(t, row, key, now, config, a).schedules)
  {
  }

  lemma PacedSameRuns(t: Tables, t': Tables)
    requires Paced(t) && t'.runs == t.runs && SameOrigin(t.schedules, t'.schedules)
    ensures Paced(t')
  {
    forall i | 0 <= i < |t.runs| && t.runs[i].kind.Refresh() ensures QueuedOnTime(t.runs[i], t'.schedules) {
      assert QueuedOnTime(t.runs[i], t.schedules);
    }
  }

  lemma PacedAppend(t: Tables, t': Tables, r: ResearchRun)
    requires Paced(t) && t'.runs == t.runs + [r] && SameOrigin(t.schedules, t'.schedules)
    requires r.key in t.schedules && r.coverage.Some? && r.coverage.value == CoverageFor(r.kind, r.coverage.value.end)
    requires Rested(t, r.key, r.kind, r.coverage.value.end)
    ensures Paced(t')
  {
    var mid := t.(schedules := t'.schedules);
    PacedSameRuns(t, mid);
    forall i | 0 <= i < |t.runs| ensures PeriodApart(t.runs[i], r) { }
    assert QueuedOnTime(r, t'.schedules);
    forall i, j | 0 <= i < j < |t'.runs| ensures PeriodApart(t'.runs[i], t'.runs[j]) {
      if j < |t.runs| { assert PeriodApart(mid.runs[i], mid.runs[j]); }
    }
  }

  /**
   * What the next visits rely on, a schedule a full period ahead of all its runs, is lost by
   * exactly the visits that write a run row and then fail to move the schedule on.
   */
  lemma LeadLostExactly(t: Tables, row: Schedule, key: Key, now: int, config: Config, a: Attempt)
    requires Paced(t) && Ahead(t) && key in t.schedules && SameTiming(row, t.schedules[key])
    ensures Ahead(Visit(t, row, key, now, config, a)) <==> !(a.UpdateThrew? && Enqueues(t, row, key, now, config))
  {
    var t' := Visit(t, row, key, now, config, a);
    if !a.UpdateThrew? {
      VisitKeepsPace(t, row, key, now, config, a);
    } else if Enqueues(t, row, key, now, config) {
      assert !PastRun(t'.runs[|t.runs|], t'.schedules);
    } else {
      PostponeKeepsPace(t, t'.schedules);
    }
  }

  // ----- A history with a lost update -----

  lemma RunFirst(t: Tables, config: Config, e: Event, rest: seq<Event>)
    requires Allowed(t, e)
    ensures AllowedRun(t, config, [e] + rest) <==> AllowedRun(Step(t, config, e), config, rest)
    ensures AllowedRun(t, config, [e] + rest) ==> Run(t, config, [e] + rest) == Run(Step(t, config, e), config, rest)
  {
    hide Allowed, Step;
    assert ([e] + rest)[1..] == rest;
  }

  /** A tick over the schedule of the only brand there is. */
  lemma OneBrandTick(t: Tables, config: Config, now: int, r: ResearchRun, a: Attempt)
    requires Enabled(config) && r in t.runs && Eligible(r) && t.schedules.Keys <= {r.key}
    requires forall i :: 0 <= i < |t.runs| ==> t.runs[i].key == r.key
    requires BackfillOne(t.schedules, r, now)[r.key].enabled
    ensures Allowed(t, Ticked(now, [r], [r.key], [a]))
    ensures var filled := BackfillOne(t.schedules, r, now);
            Step(t, config, Ticked(now, [r], [r.key], [a])) ==
            Visit(Tables(t.runs, filled), filled[r.key], r.key, now, config, a)
  {
    hide Visit;
    var filled := BackfillOne(t.schedules, r, now);
    assert [r][..0] == [] && [r.key][..0] == [] && [a][..0] == [];
    assert Backfill(t.schedules, [], now) == t.schedules;
    assert Backfill(t.schedules, [r], now) == filled;
    forall x | x in t.runs && Eligible(x) ensures exists i :: 0 <= i < |[r]| && [r][i].key == x.key {
      assert [r][0].key == x.key;
    }
    assert forall k :: k in filled ==> k == r.key;
    assert IsScheduleQuery(filled, [r.key]);
    var start := Tables(t.runs, filled);
    assert VisitAll(start, filled, [], now, config, []) == start;
  }

  const DAILY_ONLY: Config := Config(true, true, false, false, 2)

  function Onboarded(key: Key, status: RunStatus): ResearchRun {
    ResearchRun("org", key, Onboarding, status, 0, None, false)
  }

  function FirstDaily(key: Key, status: RunStatus): ResearchRun {
    ResearchRun("org", key, DailyCheck, status, DAY_MS, Some(Coverage(0, DAY_MS)), false)
  }

  /** A brand is onboarded and gets its schedule ... */
  function LostUpdateHistory(key: Key): seq<Event> {
    [CreatedElsewhere(Onboarded(key, Queued))] +
    ([Ticked(0, [Onboarded(key, Queued)], [key], [Recorded(0)])] +
     ([StatusChanged(0, Complete)] + LostUpdateTail(key)))
  }

  /**
   * ... a day later the daily run is written but its schedule update throws; the run completes,
   * and a tick one millisecond later queues another.
   */
  function LostUpdateTail(key: Key): seq<Event> {
    [Ticked(DAY_MS, [Onboarded(key, Complete)], [key], [UpdateThrew(DAY_MS)])] +
    ([StatusChanged(1, Complete)] +
     ([Ticked(DAY_MS + 1, [Onboarded(key, Complete)], [key], [Recorded(DAY_MS + 1)])] + []))
  }

  const RECORDED: Schedule := Schedule("org", true, DAY_MS, WEEK_MS, MONTH_MS, 0, None)

  lemma ScheduleRecorded(key: Key)
    requires key.brandId != ""
    ensures var t := Tables([Onboarded(key, Queued)], map[]);
            var e := Ticked(0, [Onboarded(key, Queued)], [key], [Recorded(0)]);
            && Allowed(t, e)
            && Step(t, DAILY_ONLY, e) ==
               Tables([Onboarded(key, Queued)], map[key := RECORDED])
  {
    OneBrandTick(Tables([Onboarded(key, Queued)], map[]), DAILY_ONLY, 0, Onboarded(key, Queued), Recorded(0));
  }

  lemma UpdateLost(key: Key)
    requires key.brandId != ""
    ensures var s := RECORDED;
            var t := Tables([Onboarded(key, Complete)], map[key := s]);
            var e := Ticked(DAY_MS, [Onboarded(key, Complete)], [key], [UpdateThrew(DAY_MS)]);
            && Allowed(t, e)
            && Step(t, DAILY_ONLY, e) ==
               Tables([Onboarded(key, Complete), FirstDaily(key, Queued)], map[key := s.(lastError := Some(Thrown))])
  {
    var s := RECORDED;
    var r := Onboarded(key, Complete);
    OneBrandTick(Tables([r], map[key := s]), DAILY_ONLY, DAY_MS, r, UpdateThrew(DAY_MS));
    assert BackfillOne(map[key := s], r, DAY_MS) == map[key := s];
    assert [r][..0] == [];
    assert RecentRefreshRunCount([r], "org", DAY_MS - MONTH_MS) == 0;
    assert [r] + [FirstDaily(key, Queued)] == [r, FirstDaily(key, Queued)];
  }

  lemma QueuedTwice(key: Key)
    requires key.brandId != ""
    ensures var s := RECORDED.(lastError := Some(Thrown));
            var t := Tables([Onboarded(key, Complete), FirstDaily(key, Complete)], map[key := s]);
            var e := Ticked(DAY_MS + 1, [Onboarded(key, Complete)], [key], [Recorded(DAY_MS + 1)]);
            Allowed(t, e) && !Paced(Step(t, DAILY_ONLY, e))
  {
    var s := RECORDED.(lastError := Some(Thrown));
    var r, d := Onboarded(key, Complete), FirstDaily(key, Complete);
    var t := Tables([r, d], map[key := s]);
    var now := DAY_MS + 1;
    OneBrandTick(t, DAILY_ONLY, now, r, Recorded(now));
    assert BackfillOne(map[key := s], r, now) == map[key := s];
    assert [r, d][..1] == [r] && [r][..0] == [];
    assert RecentRefreshRunCount([r], "org", now - MONTH_MS) == 0;
    assert RecentRefreshRunCount([r, d], "org", now - MONTH_MS) == 1;
    var t' := Visit(t, s, key, now, DAILY_ONLY, Recorded(now));
    assert t'.runs == [r, d] + [NewRun(s, key, DailyCheck, now, now)];
    assert !PeriodApart(t'.runs[1], t'.runs[2]);
  }

  lemma TailBreaksCadence(key: Key)
    requires key.brandId != ""
    ensures var t := Tables([Onboarded(key, Complete)], map[key := RECORDED]);
            && AllowedRun(t, DAILY_ONLY, LostUpdateTail(key))
            && !Paced(Run(t, DAILY_ONLY, LostUpdateTail(key)))
  {
    var r, d, dc := Onboarded(key, Complete), FirstDaily(key, Queued), FirstDaily(key, Complete);
    var schedules := map[key := RECORDED.(lastError := Some(Thrown))];
    var e1, e2 := Ticked(DAY_MS, [r], [key], [UpdateThrew(DAY_MS)]), StatusChanged(1, Complete);
    var e3 := Ticked(DAY_MS + 1, [r], [key], [Recorded(DAY_MS + 1)]);
    assert [r, d][1 := dc] == [r, dc];
    assert Step(Tables([r, d], schedules), DAILY_ONLY, e2) == Tables([r, dc], schedules);
    UpdateLost(key);
    QueuedTwice(key);
    hide Step, Paced, AllowedRun, Run, RECORDED;
    RunNone(Step(Tables([r, dc], schedules), DAILY_ONLY, e3), DAILY_ONLY);
    RunFirst(Tables([r, dc], schedules), DAILY_ONLY, e3, []);
    RunFirst(Tables([r, d], schedules), DAILY_ONLY, e2, [e3] + []);
    RunFirst(Tables([r], map[key := RECORDED]), DAILY_ONLY, e1, [e2] + ([e3] + []));
  }

  /**
   * A lost update does break the cadence, in a history from empty tables with a clock that
   * moves forward: two daily runs of one brand are queued one millisecond apart.
   */
  lemma LostUpdateBreaksCadence(key: Key)
    requires key.brandId != ""
    ensures var events := LostUpdateHistory(key);
            && AllowedRun(Tables([], map[]), DAILY_ONLY, events)
            && (forall i :: 0 <= i < |events| ==> ClockForward(events[i]))
            && !Paced(Run(Tables([], map[]), DAILY_ONLY, events))
  {
    var r, rc, schedules := Onboarded(key, Queued), Onboarded(key, Complete), map[key := RECORDED];
    var e0, e1, e2 := CreatedElsewhere(r), Ticked(0, [r], [key], [Recorded(0)]), StatusChanged(0, Complete);
    var tail := LostUpdateTail(key);
    assert [] + [r] == [r] && [r][0 := rc] == [rc];
    assert Step(Tables([], map[]), DAILY_ONLY, e0) == Tables([r], map[]);
    assert Step(Tables([r], schedules), DAILY_ONLY, e2) == Tables([rc], schedules);
    ScheduleRecorded(key);
    TailBreaksCadence(key);
    hide Step, Paced, AllowedRun, Run, LostUpdateTail, RECORDED;
    RunFirst(Tables([r], schedules), DAILY_ONLY, e2, tail);
    RunFirst(Tables([r], map[]), DAILY_ONLY, e1, [e2] + tail);
    RunFirst(Tables([], map[]), DAILY_ONLY, e0, [e1] + ([e2] + tail));
    HistoryMovesForward(key);
  }

  lemma HistoryMovesForward(key: Key)
    ensures forall i :: 0 <= i < |LostUpdateHistory(key)| ==> ClockForward(LostUpdateHistory(key)[i])
  {
  }

  lemma RunNone(t: Tables, config: Config)
    ensures AllowedRun(t, config, []) && Run(t, config, []) == t
  {
  }

  /** Hence two daily (or two weekly) coverage windows of one brand never overlap in their interiors. */
  lemma CoverageDisjoint(config: Config, events: seq<Event>, i: nat, j: nat)
    requires AllowedRun(Tables([], map[]), config, events)
    requires forall k :: 0 <= k < |events| ==> NoLostUpdate(events[k])
    requires var runs := Run(Tables([], map[]), config, events).runs;
             i < j < |runs| && runs[i].key == runs[j].key && runs[i].kind == runs[j].kind &&
                 (runs[i].kind == DailyCheck || runs[i].kind == WeeklyUpdate)
    ensures var runs := Run(Tables([], map[]), config, events).runs;
            && runs[i].coverage.Some? && runs[j].coverage.Some?
            && runs[i].coverage.value.end <= runs[j].coverage.value.start
  {
    CadenceKept(Tables([], map[]), config, events);
    var t := Run(Tables([], map[]), config, events);
    assert QueuedOnTime(t.runs[i], t.schedules) && QueuedOnTime(t.runs[j], t.schedules) &&
        PeriodApart(t.runs[i], t.runs[j]);
  }
}
