/**
 * The scheduler's tick (`_fire_due` in src/kiroku/scheduler/runner.py) and the two routes that touch a schedule
 * (`update_schedule` and `skip_next_run` in src/kiroku/web/routes/schedules.py).
 */
module Scheduler {
  import opened Basics

  /** A cron expression with its time zone. */
  type Cron = (string, string)
  type JobId = nat

  /** What croniter is asked: the least instant of the expression strictly after a time. */
  ghost predicate IsNext(instants: (Cron, Time) -> bool, next: (Cron, Time) -> Time) {
    forall c: Cron, t: Time ::
      && t < next(c, t) && instants(c, next(c, t))
      && forall u: Time | t < u < next(c, t) :: !instants(c, u)
  }

  /** The columns of a schedule that the tick reads or writes. */
  datatype Row = Row(enabled: bool, cron: Cron, job: Option<JobId>, skip: bool, last: Option<Time>, next: Option<Time>)

  /** What a call of `fire_job` does, seen from here: it raises, or it queued a batch. */
  datatype Outcome = Raised | Fired(total: nat, failed: nat)

  // ----- one tick on one schedule -----

  predicate Due(row: Row, now: Time) {
    row.enabled && row.next.Some? && row.next.value <= now
  }

  /** A due schedule fires its job unless it is told to skip or has none. */
  predicate Fires(row: Row, now: Time) {
    Due(row, now) && !row.skip && row.job.Some?
  }

  function Tick(next: (Cron, Time) -> Time, row: Row, now: Time): Row {
    if !row.enabled then row
    else if row.next.None? then row.(next := Some(next(row.cron, now)))
    else if row.next.value > now then row
    else row.(skip := false, last := Some(now), next := Some(next(row.cron, now)))
  }

  function Queued(row: Row, now: Time, outcome: Outcome): int {
    if Fires(row, now) && outcome.Fired? then outcome.total - outcome.failed else 0
  }

  function QueuedAll(rows: seq<Row>, now: Time, outcomes: seq<Outcome>): int
    requires |rows| == |outcomes|
  {
    if rows == [] then 0
    else QueuedAll(rows[..|rows| - 1], now, outcomes[..|rows| - 1]) + Queued(rows[|rows| - 1], now, outcomes[|rows| - 1])
  }

  class Schedule {
    var enabled: bool
    var cron: Cron
    var job: Option<JobId>
    var skipNextRun: bool
    var lastRunAt: Option<Time>
    var nextRunAt: Option<Time>

    constructor (cron: Cron, job: Option<JobId>)
      ensures Columns() == Row(true, cron, job, false, None, None)
    {
      enabled, this.cron, this.job := true, cron, job;
      skipNextRun, lastRunAt, nextRunAt := false, None, None;
    }

    function Columns(): Row
      reads this
    {
      Row(enabled, cron, job, skipNextRun, lastRunAt, nextRunAt)
    }

    /** `update_schedule`: a changed expression drops the stored instant. */
    method Update(cron: Cron, job: Option<JobId>, enabled: bool)
      modifies this
      ensures Columns() == Edit(old(Columns()), cron, job, enabled)
    {
      if this.cron != cron {
        nextRunAt := None;
      }
      this.job, this.cron, this.enabled := job, cron, enabled;
    }

    /** `skip_next_run`: the button toggles the flag. */
    method ToggleSkip()
      modifies this
      ensures Columns() == old(Columns()).(skip := !old(skipNextRun))
    {
      skipNextRun := !skipNextRun;
    }

    /** One turn of the loop of `_fire_due`. */
    method Turn(next: (Cron, Time) -> Time, now: Time, outcome: Outcome) returns (queued: int)
      modifies this
      ensures Columns() == Tick(next, old(Columns()), now)
      ensures queued == Queued(old(Columns()), now, outcome)
    {
      queued := 0;
      if !enabled {
        return;
      }
      if nextRunAt.None? {
        nextRunAt := Some(next(cron, now));
        return;
      }
      if nextRunAt.value > now {
        return;
      }
      var nextRun := next(cron, now);
      if skipNextRun {
        skipNextRun := false;
        lastRunAt, nextRunAt := Some(now), Some(nextRun);
        return;
      }
      if job.None? {
        lastRunAt, nextRunAt := Some(now), Some(nextRun);
        return;
      }
      if outcome.Fired? {
        queued := outcome.total - outcome.failed;
      }
      lastRunAt, nextRunAt := Some(now), Some(nextRun);
    }
  }

  ghost function AllColumns(schedules: seq<Schedule>): (rows: seq<Row>)
    reads schedules
    ensures |rows| == |schedules|
  {
    seq(|schedules|, i reads schedules requires 0 <= i < |schedules| => schedules[i].Columns())
  }

  /** `_fire_due`: each schedule takes its own tick, and only what is queued depends on how `fire_job` went. */
  method FireDue(next: (Cron, Time) -> Time, schedules: seq<Schedule>, now: Time, outcomes: seq<Outcome>)
    returns (queued: int)
    requires Distinct(schedules) && |outcomes| == |schedules|
    modifies schedules
    ensures forall i :: 0 <= i < |schedules| ==> schedules[i].Columns() == Tick(next, old(schedules[i].Columns()), now)
    ensures queued == QueuedAll(old(AllColumns(schedules)), now, outcomes)
  {
    queued := 0;
    ghost var before := AllColumns(schedules);
    for i := 0 to |schedules|
      invariant forall k :: 0 <= k < i ==> schedules[k].Columns() == Tick(next, before[k], now)
      invariant forall k :: i <= k < |schedules| ==> schedules[k].Columns() == before[k]
      invariant queued == QueuedAll(before[..i], now, outcomes[..i])
    {
      var more := schedules[i].Turn(next, now, outcomes[i]);
      queued := queued + more;
      assert before[..i + 1][..i] == before[..i] && outcomes[..i + 1][..i] == outcomes[..i];
    }
    assert before[..|schedules|] == before && outcomes[..|schedules|] == outcomes;
  }

  // ----- whole histories of one schedule -----

  function Edit(row: Row, cron: Cron, job: Option<JobId>, enabled: bool): Row {
    row.(cron := cron, job := job, enabled := enabled, next := if row.cron != cron then None else row.next)
  }

  datatype Event =
    | At(now: Time)
    | Edited(cron: Cron, job: Option<JobId>, enabled: bool)
    | Toggled

  /** The row after the first k events. */
  function After(next: (Cron, Time) -> Time, start: Row, events: seq<Event>, k: nat): Row
    requires k <= |events|
  {
    if k == 0 then start
    else
      var row := After(next, start, events, k - 1);
      match events[k - 1]
      case At(now) => Tick(next, row, now)
      case Edited(cron, job, enabled) => Edit(row, cron, job, enabled)
      case Toggled => row.(skip := !row.skip)
  }

  /** When the schedule was last looked at: the last tick that found it enabled, since its expression last changed.
      It is read off the history alone, without the stored instant. */
  function Seen(start: Row, events: seq<Event>, k: nat): (Row, Option<Time>)
    requires k <= |events|
  {
    if k == 0 then (start, None)
    else
      var (row, seen) := Seen(start, events, k - 1);
      match events[k - 1]
      case At(now) => (row, if row.enabled then Some(now) else seen)
      case Edited(cron, job, enabled) =>
        (row.(cron := cron, job := job, enabled := enabled), if row.cron != cron then None else seen)
      case Toggled => (row, seen)
  }

  /** The clock does not go back. */
  ghost predicate Forward(events: seq<Event>) {
    forall i, j :: 0 <= i < j < |events| && events[i].At? && events[j].At? ==> events[i].now <= events[j].now
  }

  /** A new schedule. */
  predicate Fresh(row: Row) {
    row.next == None
  }

  /** Step k is a tick that takes the schedule's turn: it fires, skips, or finds no job. */
  predicate Consumes(next: (Cron, Time) -> Time, start: Row, events: seq<Event>, k: nat)
    requires k < |events|
  {
    events[k].At? && Due(After(next, start, events, k), events[k].now)
  }

  lemma {:induction false} SeenIsPast(start: Row, events: seq<Event>, k: nat, j: nat)
    requires k <= j < |events| && events[j].At? && Forward(events)
    ensures var seen := Seen(start, events, k).1; seen.Some? ==> seen.value <= events[j].now
  {
    if k != 0 {
      SeenIsPast(start, events, k - 1, j);
    }
  }

  /** No instant between two looks: the same next instant from either. */
  lemma SameNext(instants: (Cron, Time) -> bool, next: (Cron, Time) -> Time, cron: Cron, t: Time, u: Time)
    requires IsNext(instants, next) && t <= u < next(cron, t)
    ensures next(cron, u) == next(cron, t)
  {
    var (a, b) := (next(cron, t), next(cron, u));
    assert instants(cron, a) && instants(cron, b);
  }

  /** `next_run_at` is a coherent cache: after any history of ticks, edits and skips it is the first instant after
      the schedule was last looked at, and it is missing exactly when nobody has looked. */
  lemma {:induction false} CacheCoherent(
    instants: (Cron, Time) -> bool, next: (Cron, Time) -> Time, start: Row, events: seq<Event>, k: nat)
    requires IsNext(instants, next) && Fresh(start) && Forward(events) && k <= |events|
    ensures var (row, (base, seen)) := (After(next, start, events, k), Seen(start, events, k));
      && row.cron == base.cron && row.enabled == base.enabled && row.job == base.job
      && row.next == (if seen.None? then None else Some(next(row.cron, seen.value)))
  {
    if k != 0 {
      CacheCoherent(instants, next, start, events, k - 1);
      var seen := Seen(start, events, k - 1).1;
      if events[k - 1].At? && seen.Some? {
        var (row, now) := (After(next, start, events, k - 1), events[k - 1].now);
        SeenIsPast(start, events, k - 1, k - 1);
        if now < next(row.cron, seen.value) {
          SameNext(instants, next, row.cron, seen.value, now);
        }
      }
    }
  }

  /** After a tick that finds the schedule enabled, the stored instant is the first one after that tick. */
  lemma TickRefreshes(instants: (Cron, Time) -> bool, next: (Cron, Time) -> Time, start: Row, events: seq<Event>, k: nat)
    requires IsNext(instants, next) && Fresh(start) && Forward(events)
    requires k < |events| && events[k].At? && After(next, start, events, k).enabled
    ensures var row := After(next, start, events, k + 1);
      row.next == Some(next(row.cron, events[k].now)) && row.next.value > events[k].now
  {
    CacheCoherent(instants, next, start, events, k);
    CacheCoherent(instants, next, start, events, k + 1);
  }

  /** A tick takes the schedule's turn exactly when an instant lies after the last look and not after the tick;
      however many such instants there are, it is one turn. */
  lemma ConsumesExactly(instants: (Cron, Time) -> bool, next: (Cron, Time) -> Time, start: Row, events: seq<Event>, k: nat)
    requires IsNext(instants, next) && Fresh(start) && Forward(events)
    requires k < |events| && events[k].At?
    ensures var (base, seen) := Seen(start, events, k);
      Consumes(next, start, events, k) <==>
      base.enabled && seen.Some? && exists u :: seen.value < u <= events[k].now && instants(base.cron, u)
  {
    CacheCoherent(instants, next, start, events, k);
    var (base, seen) := Seen(start, events, k);
    if seen.Some? {
      var due := next(base.cron, seen.value);
      assert seen.value < due && instants(base.cron, due);
    }
  }

  /** The expression does not change in steps i up to j. */
  ghost predicate Unedited(start: Row, events: seq<Event>, i: nat, j: nat)
    requires i <= j <= |events|
  {
    forall k | i <= k < j && events[k].Edited? :: events[k].cron == Seen(start, events, k).0.cron
  }

  /** Step k takes the turn that belongs to instant u. */
  ghost predicate Covers(next: (Cron, Time) -> Time, start: Row, events: seq<Event>, k: nat, u: Time)
    requires k < |events|
  {
    var seen := Seen(start, events, k).1;
    Consumes(next, start, events, k) && seen.Some? && seen.value < u <= events[k].now
  }

  lemma {:induction false} LooksAdvance(start: Row, events: seq<Event>, i: nat, j: nat)
    requires i <= j <= |events| && Unedited(start, events, i, j) && Forward(events)
    requires Seen(start, events, i).1.Some?
    ensures Seen(start, events, j).0.cron == Seen(start, events, i).0.cron
    ensures Seen(start, events, j).1.Some? && Seen(start, events, i).1.value <= Seen(start, events, j).1.value
    decreases j
  {
    if i < j {
      LooksAdvance(start, events, i, j - 1);
      if events[j - 1].At? {
        SeenIsPast(start, events, j - 1, j - 1);
      }
    }
  }

  /** No instant is lost: once the schedule has been looked at, every later instant gets a turn by the first tick
      after it that finds the schedule enabled, however late that is. */
  lemma {:induction false} EveryInstantCovered(
    instants: (Cron, Time) -> bool, next: (Cron, Time) -> Time, start: Row, events: seq<Event>, i: nat, j: nat, u: Time)
    returns (k: nat)
    requires IsNext(instants, next) && Fresh(start) && Forward(events)
    requires i <= j < |events| && Unedited(start, events, i, j)
    requires var (base, seen) := Seen(start, events, i); seen.Some? && seen.value < u && instants(base.cron, u)
    requires events[j].At? && Seen(start, events, j).0.enabled && u <= events[j].now
    ensures i <= k <= j && Covers(next, start, events, k, u)
    decreases j - i
  {
    LooksAdvance(start, events, i, j);
    if Seen(start, events, j).1.value < u {
      k := j;
      ConsumesExactly(instants, next, start, events, j);
    } else {
      assert i < j;
      assert Unedited(start, events, i, i + 1);
      LooksAdvance(start, events, i, i + 1);
      if Seen(start, events, i + 1).1.value < u {
        k := EveryInstantCovered(instants, next, start, events, i + 1, j, u);
      } else {
        k := i;
        ConsumesExactly(instants, next, start, events, i);
      }
    }
  }

  /** And none gets two: the turns of one instant, while the expression stays, are one step. */
  lemma CoveredOnce(
    instants: (Cron, Time) -> bool, next: (Cron, Time) -> Time, start: Row, events: seq<Event>, i: nat, j: nat, u: Time)
    requires IsNext(instants, next) && Fresh(start) && Forward(events)
    requires i <= j < |events| && Unedited(start, events, i, j)
    requires Covers(next, start, events, i, u) && Covers(next, start, events, j, u)
    ensures i == j
  {
    CacheCoherent(instants, next, start, events, i);
    if i + 1 <= j {
      LooksAdvance(start, events, i + 1, j);
      assert false;
    }
  }

  /** Steps i up to j hold no press of the skip button. */
  predicate Untouched(events: seq<Event>, i: nat, j: nat)
    requires i <= j <= |events|
  {
    forall k | i <= k < j :: !events[k].Toggled?
  }

  /** A skip costs exactly one turn: the flag stays up until the first turn taken after it and is down from then on. */
  lemma {:induction false} SkipTakesOneTurn(next: (Cron, Time) -> Time, start: Row, events: seq<Event>, i: nat, j: nat)
    requires i <= j <= |events| && Untouched(events, i, j)
    ensures After(next, start, events, j).skip <==>
      After(next, start, events, i).skip && forall k | i <= k < j :: !Consumes(next, start, events, k)
    decreases j
  {
    if i < j {
      SkipTakesOneTurn(next, start, events, i, j - 1);
      assert After(next, start, events, j).skip
        <==> After(next, start, events, j - 1).skip && !Consumes(next, start, events, j - 1);
      assert (forall k | i <= k < j :: !Consumes(next, start, events, k))
        <==> (forall k | i <= k < j - 1 :: !Consumes(next, start, events, k)) && !Consumes(next, start, events, j - 1);
    }
  }

  /** With a job every turn but the skipped one fires; without a job none does, and nothing fires but a turn. */
  lemma FiresUnlessSkipped(next: (Cron, Time) -> Time, start: Row, events: seq<Event>, i: nat, j: nat)
    requires i <= j < |events| && Untouched(events, i, j) && events[j].At?
    ensures Fires(After(next, start, events, j), events[j].now) <==>
      && Consumes(next, start, events, j) && After(next, start, events, j).job.Some?
      && (!After(next, start, events, i).skip || exists k :: i <= k < j && Consumes(next, start, events, k))
  {
    SkipTakesOneTurn(next, start, events, i, j);
  }

  /** `last_run_at` is the time of the last turn taken, skipped and jobless ones included; with none taken it is as it
      was at the start. */
  lemma {:induction false} LastRunIsLastTurn(next: (Cron, Time) -> Time, start: Row, events: seq<Event>, k: nat)
    requires k <= |events|
    ensures (forall i | 0 <= i < k :: !Consumes(next, start, events, i)) ==> After(next, start, events, k).last == start.last
    ensures forall j | 0 <= j < k && IsLastTurn(next, start, events, j, k) ::
      After(next, start, events, k).last == Some(events[j].now)
  {
    if k > 0 {
      LastRunIsLastTurn(next, start, events, k - 1);
      LastStep(next, start, events, k - 1);
      forall j | 0 <= j < k && IsLastTurn(next, start, events, j, k)
        ensures After(next, start, events, k).last == Some(events[j].now)
      {
        assert j < k - 1 ==> IsLastTurn(next, start, events, j, k - 1);
        assert j < k - 1 ==> !Consumes(next, start, events, k - 1);
      }
    }
  }

  lemma LastStep(next: (Cron, Time) -> Time, start: Row, events: seq<Event>, k: nat)
    requires k < |events|
    ensures After(next, start, events, k + 1).last
         == if Consumes(next, start, events, k) then Some(events[k].now) else After(next, start, events, k).last
  {
  }

  /** Of the first k steps, step j is the last that takes a turn. */
  ghost predicate IsLastTurn(next: (Cron, Time) -> Time, start: Row, events: seq<Event>, j: nat, k: nat)
    requires j < k <= |events|
  {
    Consumes(next, start, events, j) && forall i | j < i < k :: !Consumes(next, start, events, i)
  }

  /** What a tick queues for one more schedule: the devices of its batch without the failed ones, when the schedule is
      due, not skipped and has a job whose firing did not raise; else nothing. */
  lemma QueuedStep(rows: seq<Row>, row: Row, now: Time, outcomes: seq<Outcome>, outcome: Outcome)
    requires |rows| == |outcomes|
    ensures QueuedAll([], now, []) == 0
    ensures QueuedAll(rows + [row], now, outcomes + [outcome]) == QueuedAll(rows, now, outcomes)
      + if row.enabled && row.next.Some? && row.next.value <= now && !row.skip && row.job.Some? && outcome.Fired?
        then outcome.total - outcome.failed else 0
  {
    assert (rows + [row])[..|rows|] == rows && (outcomes + [outcome])[..|outcomes|] == outcomes;
  }
}
