/**
 The cron scheduler: which instants fire a run, and how a run leaves the running state.
 */
module Cron {
  import opened Agents

  /** Nanoseconds. */
  type Time = int

  const MAX_RUN: Time := 2 * 60 * 60 * 1_000_000_000

  datatype CronAgent = CronAgent(id: string, schedule: string, enabled: bool, created: Time, updated: Time)

  datatype RunStatus = Running | Success | Error

  datatype Run = Run(cronAgent: string, agent: string, started: Time, status: RunStatus)

  /**
   The cron library: `next` is the least instant of the schedule after its argument, and nothing when it gives up
   the search.  In the code that is the zero time, which lies before every clock reading.
   */
  datatype Library = Library(parses: string -> bool, next: (string, Time) -> Option<Time>)

  ghost predicate IsInstant(lib: Library, schedule: string, x: Time) {
    exists t :: lib.next(schedule, t) == Some(x)
  }

  ghost predicate LeastAfter(lib: Library) {
    forall s, t | lib.parses(s) && lib.next(s, t).Some? ::
      t < lib.next(s, t).value && forall y | IsInstant(lib, s, y) && t < y :: lib.next(s, t).value <= y
  }

  function Later(a: Time, b: Time): Time { if b > a then b else a }

  /** The most recent of the creation, the last edit and the last run. */
  function Anchor(ca: CronAgent, lastRun: Time): Time {
    Later(Later(ca.created, ca.updated), lastRun)
  }

  predicate CronAgentDue(lib: Library, ca: CronAgent, lastRun: Time, now: Time) {
    && ca.enabled && ca.schedule != "" && lib.parses(ca.schedule)
    && var next := lib.next(ca.schedule, Anchor(ca, lastRun)); next.None? || next.value <= now
  }

  /**
   A trigger of a cron agent: the instant of the schedule it used, if any, when the cron agent was created,
   when the trigger was recorded, and as which run (-1 when the recording failed).
   */
  datatype Fire = Fire(cronAgent: string, instant: Option<Time>, schedule: string, born: Time, start: Time, run: int)

  ghost predicate FireOk(lib: Library, runs: seq<Run>, f: Fire, clock: Time) {
    && f.start <= clock
    && (f.instant.Some? ==> f.born < f.instant.value <= f.start && IsInstant(lib, f.schedule, f.instant.value))
    && (f.run >= 0 ==> f.run < |runs| && runs[f.run].cronAgent == f.cronAgent && runs[f.run].started == f.start)
  }

  /** Every trigger is in order, and uses an instant after the start of every earlier run of its cron agent. */
  ghost predicate History(lib: Library, runs: seq<Run>, fires: seq<Fire>, clock: Time) {
    && (forall i | 0 <= i < |fires| :: FireOk(lib, runs, fires[i], clock))
    && (forall i, j | 0 <= i < j < |fires| && fires[i].cronAgent == fires[j].cronAgent && fires[i].run >= 0 ::
          (fires[j].instant.Some? ==> fires[i].start < fires[j].instant.value) && fires[i].run != fires[j].run)
  }

  /** Only a run whose completion sentinel was seen is a success. */
  predicate Honest(runs: seq<Run>, observed: set<int>) {
    forall i | 0 <= i < |runs| && runs[i].status.Success? :: i in observed
  }

  /**
   Instant x makes the cron agent due at `now`: it belongs to the enabled schedule, lies after the creation, the
   last edit and every recorded run, and has come.
   */
  ghost predicate DueAt(lib: Library, ca: CronAgent, runs: seq<Run>, now: Time, x: Time) {
    && ca.enabled && ca.schedule != "" && lib.parses(ca.schedule) && IsInstant(lib, ca.schedule, x)
    && ca.created < x && ca.updated < x && x <= now
    && forall i | 0 <= i < |runs| && runs[i].cronAgent == ca.id :: runs[i].started < x
  }

  ghost predicate Due(lib: Library, ca: CronAgent, runs: seq<Run>, now: Time) {
    exists x :: DueAt(lib, ca, runs, now, x)
  }

  /** `last` is the newest of the creation, the last edit and the starts of the recorded runs. */
  ghost predicate IsLast(ca: CronAgent, runs: seq<Run>, last: Time) {
    && ca.created <= last && ca.updated <= last
    && (forall i | 0 <= i < |runs| && runs[i].cronAgent == ca.id :: runs[i].started <= last)
    && (last == ca.created || last == ca.updated || exists i :: 0 <= i < |runs| && runs[i].cronAgent == ca.id && runs[i].started == last)
  }

  lemma LastOnce(ca: CronAgent, runs: seq<Run>, a: Time, b: Time)
    requires IsLast(ca, runs, a) && IsLast(ca, runs, b)
    ensures a == b
  {
  }

  /** The library finds no instant after the newest of the creation, the last edit and the recorded runs. */
  ghost predicate Exhausted(lib: Library, ca: CronAgent, runs: seq<Run>) {
    && ca.enabled && ca.schedule != "" && lib.parses(ca.schedule)
    && exists last :: IsLast(ca, runs, last) && lib.next(ca.schedule, last).None?
  }

  ghost predicate Fires(lib: Library, ca: CronAgent, runs: seq<Run>, now: Time) {
    Due(lib, ca, runs, now) || Exhausted(lib, ca, runs)
  }

  /**
   The code's test holds exactly when some instant makes the cron agent due, and then picks the least one -- or when
   the schedule has no instant left: then it holds at every tick.
   */
  lemma DueExactly(lib: Library, ca: CronAgent, runs: seq<Run>, last: Time, now: Time)
    requires LeastAfter(lib) && IsLast(ca, runs, last)
    ensures CronAgentDue(lib, ca, last, now) <==> Fires(lib, ca, runs, now)
    ensures CronAgentDue(lib, ca, last, now) ==>
              Fitting(lib, ca, runs, now, lib.next(ca.schedule, last))
  {
    assert Anchor(ca, last) == last;
    if Exhausted(lib, ca, runs) {
      var l :| IsLast(ca, runs, l) && lib.next(ca.schedule, l).None?;
      LastOnce(ca, runs, l, last);
    } else if ca.enabled && ca.schedule != "" && lib.parses(ca.schedule) {
      var x := lib.next(ca.schedule, last).value;
      forall y | DueAt(lib, ca, runs, now, y) ensures x <= y {
        assert last < y;
      }
      if x <= now { assert DueAt(lib, ca, runs, now, x); }
    }
  }

  /** The least instant that makes the cron agent due; none when its schedule is exhausted. */
  ghost predicate Fitting(lib: Library, ca: CronAgent, runs: seq<Run>, now: Time, x: Option<Time>) {
    match x
    case None => Exhausted(lib, ca, runs)
    case Some(t) => !Exhausted(lib, ca, runs) && DueAt(lib, ca, runs, now, t) && forall y | DueAt(lib, ca, runs, now, y) :: t <= y
  }

  /** A schedule without any instant triggers its cron agent at every tick, whatever has been recorded. */
  lemma EmptyScheduleFiresAtEveryTick(lib: Library, ca: CronAgent, lastRun: Time, now: Time)
    requires ca.enabled && ca.schedule != "" && lib.parses(ca.schedule) && forall t :: lib.next(ca.schedule, t).None?
    ensures CronAgentDue(lib, ca, lastRun, now)
    ensures forall x :: !IsInstant(lib, ca.schedule, x)
  {
  }

  /** The later runs are of other cron agents, and the earlier ones started when they did. */
  ghost predicate Adds(ca: CronAgent, runs: seq<Run>, more: seq<Run>) {
    && |runs| <= |more|
    && (forall i | 0 <= i < |runs| :: more[i].cronAgent == runs[i].cronAgent && more[i].started == runs[i].started)
    && (forall i | |runs| <= i < |more| :: more[i].cronAgent != ca.id)
  }

  lemma SameLast(ca: CronAgent, runs: seq<Run>, more: seq<Run>, last: Time)
    requires Adds(ca, runs, more)
    ensures IsLast(ca, runs, last) <==> IsLast(ca, more, last)
  {
    if IsLast(ca, more, last) {
      forall i | 0 <= i < |runs| && runs[i].cronAgent == ca.id ensures runs[i].started <= last { assert more[i].cronAgent == ca.id; }
      if last != ca.created && last != ca.updated {
        var i :| 0 <= i < |more| && more[i].cronAgent == ca.id && more[i].started == last;
        assert runs[i].started == last;
      }
    }
  }

  lemma SameDueAt(lib: Library, ca: CronAgent, runs: seq<Run>, more: seq<Run>, now: Time, x: Time)
    requires Adds(ca, runs, more)
    ensures DueAt(lib, ca, runs, now, x) <==> DueAt(lib, ca, more, now, x)
  {
    if DueAt(lib, ca, more, now, x) {
      forall i | 0 <= i < |runs| && runs[i].cronAgent == ca.id ensures runs[i].started < x { assert more[i].cronAgent == ca.id; }
    }
  }

  /** Runs of other cron agents, and how runs end, have no say in what fires. */
  lemma SameDue(lib: Library, ca: CronAgent, runs: seq<Run>, more: seq<Run>, now: Time)
    requires Adds(ca, runs, more)
    ensures Fires(lib, ca, runs, now) <==> Fires(lib, ca, more, now)
  {
    forall x ensures DueAt(lib, ca, runs, now, x) <==> DueAt(lib, ca, more, now, x) { SameDueAt(lib, ca, runs, more, now, x); }
    forall last ensures IsLast(ca, runs, last) <==> IsLast(ca, more, last) { SameLast(ca, runs, more, last); }
  }

  /** The IDs of the cron agents of a listing that fire, in its order. */
  ghost function DueIds(lib: Library, listed: seq<CronAgent>, runs: seq<Run>, now: Time, n: nat): seq<string>
    requires n <= |listed|
  {
    if n == 0 then []
    else DueIds(lib, listed, runs, now, n - 1) + if Fires(lib, listed[n - 1], runs, now) then [listed[n - 1].id] else []
  }

  ghost function TriggeredIds(fires: seq<Fire>, n: nat): seq<string>
    requires n <= |fires|
  {
    seq(|fires| - n, i requires 0 <= i < |fires| - n => fires[n + i].cronAgent)
  }

  predicate DistinctIds(listed: seq<CronAgent>) {
    forall i, j | 0 <= i < j < |listed| :: listed[i].id != listed[j].id
  }

  /** How a run stands after a look at it: too old, or as the daemon answered. */
  function Verdict(age: Time, answer: Answer): RunStatus {
    if age > MAX_RUN then Error
    else
      match answer
      case Done => Success
      case Failed => Error
      case Gone => Error
      case StillRunning => RunStatus.Running
      case Unknown => RunStatus.Running
  }

  /** The daemon's answers about the agent of a run. */
  datatype Answer = StillRunning | Done | Failed | Gone | Unknown

  /** How a trigger's agent came out: only the last has one. */
  datatype Launch = TemplateGone | Unsupported | Refused | Launched(agent: string)

  class Scheduler {
    const lib: Library
    var clock: Time
    var runs: seq<Run>
    ghost var fires: seq<Fire>          // every trigger, recorded or not
    ghost var observed: set<int>        // runs whose completion sentinel was seen
    ghost var failures: nat             // store calls that failed
    ghost var launches: seq<Launch>     // every attempt to create an agent
    ghost var answers: map<int, Answer> // what the daemon said about each run of the current check

    ghost predicate Valid()
      reads this
    {
      LeastAfter(lib) && History(lib, runs, fires, clock) && Honest(runs, observed)
    }

    constructor (lib: Library, clock: Time)
      requires LeastAfter(lib)
      ensures Valid() && runs == [] && fires == [] && this.lib == lib
    {
      this.lib, this.clock, runs, fires, observed, failures, launches, answers := lib, clock, [], [], {}, 0, [], map[];
    }

    /** Every clock reading is at least as late as the one before. */
    method Now() returns (t: Time)
      requires Valid()
      modifies this`clock
      ensures Valid() && old(clock) <= clock == t
    {
      t := clock;
      var later: Time := *;
      if later > clock { t, clock := later, later; }
    }

    /** Does a store call work? */
    method Stored() returns (ok: bool)
      modifies this`failures
      ensures failures == old(failures) + if ok then 0 else 1
    {
      ok := *;
      if !ok { failures := failures + 1; }
    }

    /** The template is looked up, and an agent created from it. */
    method Attempt() returns (l: Launch)
      modifies this`launches
      ensures launches == old(launches) + [l]
    {
      l := *;
      launches := launches + [l];
    }

    /** The newest start among the runs of one cron agent; `floor` when it has none. */
    method LastRun(cronAgent: string, floor: Time) returns (t: Time)
      ensures floor <= t
      ensures forall i | 0 <= i < |runs| && runs[i].cronAgent == cronAgent :: runs[i].started <= t
      ensures t == floor || exists i :: 0 <= i < |runs| && runs[i].cronAgent == cronAgent && runs[i].started == t
    {
      t := floor;
      for k := 0 to |runs|
        invariant floor <= t
        invariant forall i | 0 <= i < k && runs[i].cronAgent == cronAgent :: runs[i].started <= t
        invariant t == floor || exists i :: 0 <= i < k && runs[i].cronAgent == cronAgent && runs[i].started == t
      {
        if runs[k].cronAgent == cronAgent && runs[k].started > t { t := runs[k].started; }
      }
    }

    /** Records a run for the trigger that used instant x; the write may fail, and then nothing remembers the instant. */
    method Record(ca: CronAgent, agent: string, ghost x: Option<Time>) returns (ok: bool)
      requires Valid() && (x.Some? ==> ca.created < x.value <= clock && IsInstant(lib, ca.schedule, x.value))
      requires x.Some? ==> forall i | 0 <= i < |runs| && runs[i].cronAgent == ca.id :: runs[i].started < x.value
      modifies this`clock, this`runs, this`fires, this`failures
      ensures Valid() && old(clock) <= clock && failures == old(failures) + if ok then 0 else 1
      ensures fires == old(fires) + [Fire(ca.id, x, ca.schedule, ca.created, clock, if ok then |old(runs)| else -1)]
      ensures runs == if ok then old(runs) + [Run(ca.id, agent, clock, RunStatus.Running)] else old(runs)
    {
      var now := Now();
      ok := Stored();
      fires := fires + [Fire(ca.id, x, ca.schedule, ca.created, now, if ok then |runs| else -1)];
      if ok { runs := runs + [Run(ca.id, agent, now, RunStatus.Running)]; }
    }

    /** The one write that ends a run. */
    method Finish(i: int, status: RunStatus) returns (ok: bool)
      requires Valid() && 0 <= i < |runs| && runs[i].status.Running? && !status.Running? && (status.Success? ==> i in observed)
      modifies this`runs, this`failures
      ensures Valid() && runs == if ok then old(runs)[i := old(runs)[i].(status := status)] else old(runs)
      ensures failures == old(failures) + if ok then 0 else 1
    {
      ok := Stored();
      if ok {
        runs := runs[i := runs[i].(status := status)];
      }
    }

    /** Only runs have been added, and a run that had ended is as it was. */
    twostate predicate Ended()
      reads this
    {
      && |old(runs)| <= |runs| && old(clock) <= clock && old(failures) <= failures
      && (forall i | 0 <= i < |old(runs)| ::
            && runs[i].(status := old(runs)[i].status) == old(runs)[i]
            && (!old(runs)[i].status.Running? ==> runs[i] == old(runs)[i]))
    }

    /** The runs there were are as they were; the new ones belong to these cron agents. */
    twostate predicate Appended(ids: set<string>)
      reads this
    {
      |old(runs)| <= |runs| && runs[..|old(runs)|] == old(runs) && forall i | |old(runs)| <= i < |runs| :: runs[i].cronAgent in ids
    }

    /** An agent is created from the template, and a run recorded: a Running one with the agent, or an Error one without. */
    method Trigger(ca: CronAgent, ghost x: Option<Time>)
      requires Valid() && (x.Some? ==> ca.created < x.value <= clock && IsInstant(lib, ca.schedule, x.value))
      requires x.Some? ==> forall i | 0 <= i < |runs| && runs[i].cronAgent == ca.id :: runs[i].started < x.value
      modifies this`clock, this`runs, this`fires, this`failures, this`launches
      ensures Valid() && Ended() && Appended({ca.id})
      ensures |fires| == |old(fires)| + 1 && fires[..|old(fires)|] == old(fires)
      ensures var f := fires[|old(fires)|]; f.cronAgent == ca.id && f.schedule == ca.schedule && f.born == ca.created && f.instant == x
      ensures |launches| == |old(launches)| + 1 && launches[..|old(launches)|] == old(launches)
      ensures failures == old(failures) ==>
                && |runs| == |old(runs)| + 1
                && var r, l := runs[|old(runs)|], launches[|old(launches)|];
                && old(clock) <= r.started
                && if l.Launched? then r.status.Running? && r.agent == l.agent else r.status.Error? && r.agent == ""
    {
      var l := Attempt();
      if l.Launched? {
        var _ := Record(ca, l.agent, x);
      } else {
        var ok := Record(ca, "", x);
        if ok { var _ := Finish(|runs| - 1, Error); }
      }
    }

    /**
     One cron agent: triggered exactly when some instant makes it due, by the least such instant, or when its
     schedule has none left.  A trigger
     whose agent was created leaves a Running run, any other an Error run, unless a store call fails.
     */
    method FireOne(ca: CronAgent, now: Time) returns (readable: bool)
      requires Valid() && now <= clock
      modifies this`clock, this`runs, this`fires, this`failures, this`launches
      ensures Valid() && Ended() && Appended({ca.id})
      ensures failures == old(failures) ==> readable
      ensures readable && Fires(lib, ca, old(runs), now) ==>
                && |fires| == |old(fires)| + 1 && fires[..|old(fires)|] == old(fires)
                && var f := fires[|old(fires)|];
                && f.cronAgent == ca.id && f.schedule == ca.schedule && f.born == ca.created
                && Fitting(lib, ca, old(runs), now, f.instant)
      ensures readable && Fires(lib, ca, old(runs), now) && failures == old(failures) ==>
                && |runs| == |old(runs)| + 1 && |launches| == |old(launches)| + 1 && launches[..|old(launches)|] == old(launches)
                && var r, l := runs[|old(runs)|], launches[|old(launches)|];
                && now <= r.started
                && if l.Launched? then r.status.Running? && r.agent == l.agent else r.status.Error? && r.agent == ""
      ensures !readable || !Fires(lib, ca, old(runs), now) ==> fires == old(fires) && runs == old(runs) && launches == old(launches)
    {
      if ca.schedule == "" || !ca.enabled { return true; }
      readable := Stored();
      if !readable { return; }
      var last := LastRun(ca.id, Later(ca.created, ca.updated));
      DueExactly(lib, ca, runs, last, now);
      if !CronAgentDue(lib, ca, last, now) { return; }
      ghost var x := lib.next(ca.schedule, last);
      Trigger(ca, x);
    }

    /** Fires every due cron agent of a listing, which may be outdated by edits made meanwhile. */
    method FireDue(listed: seq<CronAgent>) returns (now: Time)
      requires Valid()
      modifies this`clock, this`runs, this`fires, this`failures, this`launches
      ensures Valid() && Ended() && old(clock) <= now <= clock && old(fires) <= fires
      ensures failures == old(failures) && DistinctIds(listed) ==>
                TriggeredIds(fires, |old(fires)|) == DueIds(lib, listed, old(runs), now, |listed|)
    {
      now := Now();
      for k := 0 to |listed|
        invariant Valid() && Ended() && old(clock) <= now <= clock && old(fires) <= fires
        invariant Appended(set j | 0 <= j < k :: listed[j].id)
        invariant failures == old(failures) && DistinctIds(listed) ==>
                    TriggeredIds(fires, |old(fires)|) == DueIds(lib, listed, old(runs), now, k)
      {
        label Before:
        var _ := FireOne(listed[k], now);
        if DistinctIds(listed) {
          forall i | |old(runs)| <= i < |old@Before(runs)| ensures old@Before(runs)[i].cronAgent != listed[k].id {
            assert old@Before(runs)[i].cronAgent in (set j | 0 <= j < k :: listed[j].id);
          }
          SameDue(lib, listed[k], old(runs), old@Before(runs), now);
        }
      }
    }

    /**
     Looks at every run that was running.  A run that ended stays as it is; a success was observed; and unless
     a store call fails, every other run stands as its age or the daemon's answer about it says -- so no run
     started more than two hours before the tick is still running.
     */
    method CheckRunning()
      requires Valid()
      modifies this
      ensures Valid() && Ended() && fires == old(fires) && old(observed) <= observed && |runs| == |old(runs)|
      ensures failures == old(failures) ==> forall i | 0 <= i < |runs| && old(runs)[i].status.Running? ::
                exists t :: old(clock) <= t <= clock && Judged(i, t)
      ensures failures == old(failures) ==> forall i | 0 <= i < |runs| && runs[i].status.Running? :: old(clock) - runs[i].started <= MAX_RUN
    {
      answers := map[];
      var ok := Stored();
      if !ok { return; }
      for k := 0 to |runs|
        invariant Valid() && Ended() && fires == old(fires) && old(observed) <= observed && |runs| == |old(runs)|
        invariant forall i | k <= i < |runs| :: runs[i] == old(runs)[i] && i !in answers
        invariant failures == old(failures) ==> forall i | 0 <= i < k && old(runs)[i].status.Running? ::
                    exists t :: old(clock) <= t <= clock && Judged(i, t)
      {
        if runs[k].status.Running? {
          label Before:
          var now := CheckOne(k);
          if failures == old(failures) {
            forall i | 0 <= i < k && old(runs)[i].status.Running? ensures exists t :: old(clock) <= t <= clock && Judged(i, t) {
              ghost var t :| old(clock) <= t <= old@Before(clock) && old@Before(Judged(i, t));
              assert Judged(i, t);
            }
            assert Judged(k, now);
          }
        }
      }
    }

    /** Run i stands as its age at time t, or the daemon's answer about it, says. */
    ghost predicate Judged(i: int, t: Time)
      requires 0 <= i < |runs|
      reads this
    {
      if t - runs[i].started > MAX_RUN then runs[i].status.Error? else i in answers && runs[i].status == Verdict(0, answers[i])
    }

    /** CheckScheduledRunStatus: the daemon's answer; a completion sentinel is remembered. */
    method Ask(k: int) returns (answer: Answer)
      modifies this`answers, this`observed
      ensures answers == old(answers)[k := answer]
      ensures observed == if answer.Done? then old(observed) + {k} else old(observed)
    {
      answer := *;
      answers := answers[k := answer];
      if answer.Done? { observed := observed + {k}; }
    }

    /** One run: the age limit first, then the answer of the daemon. */
    method CheckOne(k: int) returns (now: Time)
      requires Valid() && 0 <= k < |runs| && runs[k].status.Running?
      modifies this
      ensures Valid() && Ended() && fires == old(fires) && old(observed) <= observed && |runs| == |old(runs)|
      ensures forall i | 0 <= i < |runs| && i != k :: runs[i] == old(runs)[i]
      ensures forall i | i != k :: (i in answers <==> i in old(answers)) && (i in answers ==> answers[i] == old(answers)[i])
      ensures old(clock) <= now <= clock
      ensures now - old(runs)[k].started <= MAX_RUN ==> k in answers
      ensures failures == old(failures) ==>
                runs[k].status == if now - old(runs)[k].started > MAX_RUN then Error else Verdict(now - old(runs)[k].started, answers[k])
    {
      now := Now();
      if now - runs[k].started > MAX_RUN {
        var _ := FinishScheduledRun(k, Error);
        return;
      }
      var answer := Ask(k);
      match answer
      case StillRunning =>
      case Unknown =>
      case Failed => var _ := FinishScheduledRun(k, Error);
      case Gone => var _ := Finish(k, Error);
      case Done => var _ := FinishScheduledRun(k, Success);
    }

    /** The completion policy runs first, and whatever it answers the run is finished. */
    method FinishScheduledRun(k: int, status: RunStatus) returns (ok: bool)
      requires Valid() && 0 <= k < |runs| && runs[k].status.Running? && !status.Running? && (status.Success? ==> k in observed)
      modifies this`runs, this`failures
      ensures Valid() && runs == if ok then old(runs)[k := old(runs)[k].(status := status)] else old(runs)
      ensures old(failures) <= failures && (failures == old(failures) ==> ok)
    {
      var readable := Stored();
      if !readable { return false; }
      ok := Finish(k, status);
    }

    /** A tick fires what is due and judges what is running; the second half runs even when the first cannot list. */
    method Tick(listed: seq<CronAgent>) returns (now: Time)
      requires Valid()
      modifies this
      ensures Valid() && Ended() && old(fires) <= fires && old(observed) <= observed && old(clock) <= now <= clock
      ensures failures == old(failures) && DistinctIds(listed) ==>
                TriggeredIds(fires, |old(fires)|) == DueIds(lib, listed, old(runs), now, |listed|)
      ensures failures == old(failures) ==> forall i | 0 <= i < |runs| && runs[i].status.Running? :: old(clock) - runs[i].started <= MAX_RUN
    {
      var listable := Stored();
      now := clock;
      if listable { now := FireDue(listed); }
      CheckRunning();
    }
  }

  // ---------------------------------------------------------------- what the history means

  /** The instants used for one cron agent, in the order of the triggers. */
  function InstantsOf(fires: seq<Fire>, c: string): seq<Time> {
    if fires == [] then []
    else
      var n := |fires| - 1;
      InstantsOf(fires[..n], c) + if fires[n].cronAgent == c && fires[n].instant.Some? then [fires[n].instant.value] else []
  }

  ghost predicate AllRecorded(fires: seq<Fire>, c: string) {
    forall i | 0 <= i < |fires| && fires[i].cronAgent == c :: fires[i].run >= 0
  }

  predicate Increasing(xs: seq<Time>) {
    forall i, j | 0 <= i < j < |xs| :: xs[i] < xs[j]
  }

  lemma HistoryPrefix(lib: Library, runs: seq<Run>, fires: seq<Fire>, clock: Time, n: nat)
    requires History(lib, runs, fires, clock) && n <= |fires|
    ensures History(lib, runs, fires[..n], clock)
  {
    assert forall i | 0 <= i < n :: fires[..n][i] == fires[i];
  }

  /** Every instant listed belongs to a trigger. */
  lemma {:induction false} InstantFrom(fires: seq<Fire>, c: string, k: nat) returns (i: nat)
    requires k < |InstantsOf(fires, c)|
    ensures i < |fires| && fires[i].cronAgent == c && fires[i].instant == Some(InstantsOf(fires, c)[k])
  {
    var n := |fires| - 1;
    if k < |InstantsOf(fires[..n], c)| {
      i := InstantFrom(fires[..n], c, k);
    } else {
      i := n;
    }
  }

  /** As long as every run of a cron agent is recorded, its triggers use strictly increasing instants. */
  lemma {:induction false} InstantsIncrease(lib: Library, runs: seq<Run>, fires: seq<Fire>, clock: Time, c: string)
    requires History(lib, runs, fires, clock) && AllRecorded(fires, c)
    ensures Increasing(InstantsOf(fires, c))
  {
    if fires != [] {
      var n := |fires| - 1;
      HistoryPrefix(lib, runs, fires, clock, n);
      assert forall i | 0 <= i < n :: fires[..n][i] == fires[i];
      InstantsIncrease(lib, runs, fires[..n], clock, c);
      var before := InstantsOf(fires[..n], c);
      forall k | 0 <= k < |before| ensures fires[n].cronAgent == c && fires[n].instant.Some? ==> before[k] < fires[n].instant.value {
        var i := InstantFrom(fires[..n], c, k);
        assert FireOk(lib, runs, fires[i], clock);
      }
    }
  }

  /** The instants up to now, since the creation, of the schedules a cron agent's triggers used: edits included. */
  ghost function InstantsInForce(lib: Library, fires: seq<Fire>, c: string, since: Time, clock: Time): set<Time> {
    set x | since < x <= clock && InForce(lib, fires, c, x)
  }

  ghost predicate InForce(lib: Library, fires: seq<Fire>, c: string, x: Time) {
    exists i :: 0 <= i < |fires| && fires[i].cronAgent == c && IsInstant(lib, fires[i].schedule, x)
  }

  lemma {:induction false} IncreasingFits(xs: seq<Time>, s: set<Time>)
    requires Increasing(xs) && forall k | 0 <= k < |xs| :: xs[k] in s
    ensures |xs| <= |s|
  {
    if xs != [] {
      var n := |xs| - 1;
      assert forall k | 0 <= k < n :: xs[k] in s - {xs[n]};
      IncreasingFits(xs[..n], s - {xs[n]});
    }
  }

  /** How often a cron agent was triggered. */
  function Triggers(fires: seq<Fire>, c: string): nat {
    if fires == [] then 0
    else Triggers(fires[..|fires| - 1], c) + if fires[|fires| - 1].cronAgent == c then 1 else 0
  }

  ghost predicate AllTimed(fires: seq<Fire>, c: string) {
    forall i | 0 <= i < |fires| && fires[i].cronAgent == c :: fires[i].instant.Some?
  }

  /** Every trigger has its instant exactly when no schedule was exhausted. */
  lemma {:induction false} TriggersAreInstants(fires: seq<Fire>, c: string)
    ensures |InstantsOf(fires, c)| <= Triggers(fires, c)
    ensures |InstantsOf(fires, c)| == Triggers(fires, c) <==> AllTimed(fires, c)
  {
    if fires != [] {
      var n := |fires| - 1;
      TriggersAreInstants(fires[..n], c);
      assert fires == fires[..n] + [fires[n]];
    }
  }

  /**
   So, however often its schedule was edited, a cron agent has been triggered at most once for each instant,
   since its creation, of the schedules it was triggered by -- as long as none of them was exhausted.
   */
  lemma TriggersNeverOutnumberInstants(lib: Library, runs: seq<Run>, fires: seq<Fire>, clock: Time, c: string, since: Time)
    requires History(lib, runs, fires, clock) && AllRecorded(fires, c) && AllTimed(fires, c)
    requires forall i | 0 <= i < |fires| && fires[i].cronAgent == c :: since <= fires[i].born
    ensures Triggers(fires, c) <= |InstantsInForce(lib, fires, c, since, clock)|
  {
    InstantsIncrease(lib, runs, fires, clock, c);
    TriggersAreInstants(fires, c);
    var xs := InstantsOf(fires, c);
    forall k | 0 <= k < |xs| ensures xs[k] in InstantsInForce(lib, fires, c, since, clock) {
      var i := InstantFrom(fires, c, k);
      assert FireOk(lib, runs, fires[i], clock);
    }
    IncreasingFits(xs, InstantsInForce(lib, fires, c, since, clock));
  }

  /** Where the recording fails, no run moves the anchor: the same instant is due at every later tick, and still the least. */
  lemma UnrecordedInstantIsDueAgain(lib: Library, ca: CronAgent, runs: seq<Run>, now: Time, later: Time, x: Time)
    requires DueAt(lib, ca, runs, now, x) && now <= later && forall y | DueAt(lib, ca, runs, now, y) :: x <= y
    ensures DueAt(lib, ca, runs, later, x) && forall y | DueAt(lib, ca, runs, later, y) :: x <= y
  {
    forall y | DueAt(lib, ca, runs, later, y) ensures x <= y {
      if y <= now { assert DueAt(lib, ca, runs, now, y); }
    }
  }
}
