/**
 Runs of the lifecycle: operations in which no call fails, and the runs that show where the
 guarantees end -- the MAX_AGENTS cap, and reconcile claims made on an outdated listing.
 */
module LifecycleWitness {
  import opened Agents
  import opened Lifecycle
  import opened LifecycleInvariant
  import opened LifecycleSafety

  // ---------------------------------------------------------------- building runs

  /** Some run in which every claim and completion is compatible leads from s to s'. */
  ghost predicate Reaches(s: State, s': State, cap: nat) {
    exists acts :: CompatibleRun(s, acts, cap) && After(s, acts, cap) == s'
  }

  lemma Stay(s: State, cap: nat)
    ensures Reaches(s, s, cap)
  {
    assert CompatibleRun(s, [], cap) && After(s, [], cap) == s;
  }

  /** Extend a run by one action. */
  lemma Do(s: State, s': State, a: Action, cap: nat)
    requires Reaches(s, s', cap) && Compatible(s', a)
    ensures Reaches(s, Next(s', a, cap), cap)
  {
    var acts :| CompatibleRun(s, acts, cap) && After(s, acts, cap) == s';
    var longer := acts + [a];
    assert longer[..|longer| - 1] == acts;
    assert CompatibleRun(s, longer, cap) && After(s, longer, cap) == Next(s', a, cap);
  }

  /** Every ID handed out so far is below lo. */
  ghost predicate Below(issued: map<Cid, Owner>, lo: Cid) {
    forall c | c in issued :: c < lo
  }

  /** A run leads to s, up to the ledger of container IDs, having used IDs below lo only. */
  ghost predicate Gets(s0: State, s: State, lo: Cid, cap: nat) {
    exists issued :: Below(issued, lo) && Reaches(s0, s.(issued := issued), cap)
  }

  /** A state written without its ledger. */
  predicate Bare(s: State) {
    s.issued == map[]
  }

  lemma Leave(s0: State, s: State, lo: Cid, cap: nat) returns (s': State)
    requires Gets(s0, s, lo, cap)
    ensures Reaches(s0, s', cap) && s'.world == s.world && s'.refs == s.refs && s'.threads == s.threads && Below(s'.issued, lo)
  {
    var issued :| Below(issued, lo) && Reaches(s0, s.(issued := issued), cap);
    s' := s.(issued := issued);
  }

  /** An action that creates no container and is taken whatever IDs have been used. */
  predicate Plain(s: State, a: Action, lo: Cid) {
    || a.Start? || a.Crash? || a.Complete? || a.Die? || a.Event?
    || (a.Run? && a.cid == lo > 0 && a.t in s.threads && !Creates(s.threads[a.t]))
  }

  lemma LedgerIsInert(s: State, issued: map<Cid, Owner>, a: Action, lo: Cid, cap: nat)
    requires Bare(s) && Below(issued, lo) && Plain(s, a, lo)
    ensures Next(s.(issued := issued), a, cap) == Next(s, a, cap).(issued := issued) && Bare(Next(s, a, cap))
  {
    if a.Run? { LedgerIsInertAtRun(s, issued, a, lo, cap); }
  }

  lemma LedgerIsInertAtRun(s: State, issued: map<Cid, Owner>, a: Action, lo: Cid, cap: nat)
    requires Bare(s) && Below(issued, lo) && Plain(s, a, lo) && a.Run?
    ensures Next(s.(issued := issued), a, cap) == Next(s, a, cap).(issued := issued) && Bare(Next(s, a, cap))
  {
    assert SliceOf(s.(issued := issued), s.threads[a.t].id) == SliceOf(s, s.threads[a.t].id);
  }

  lemma Act(s0: State, s: State, a: Action, lo: Cid, cap: nat)
    requires Gets(s0, s, lo, cap) && Bare(s) && Plain(s, a, lo) && Compatible(s, a)
    ensures Gets(s0, Next(s, a, cap), lo, cap) && Bare(Next(s, a, cap))
  {
    var issued :| Below(issued, lo) && Reaches(s0, s.(issued := issued), cap);
    LedgerIsInert(s, issued, a, lo, cap);
    Do(s0, s.(issued := issued), a, cap);
  }

  /** Where one operation is: its agent's slice, the operation, and a bound on the IDs used so far. */
  datatype Point = Point(v: Slice, th: Thread, lo: Cid)

  predicate CanStep(th: Thread) {
    th.Op? && !th.pc.Release? && th.pc != Entering(Insert)
  }

  /** One step in which no call fails; a created container gets `cid`. */
  predicate StepsWith(x: Point, cid: Cid, y: Point) {
    && CanStep(x.th) && 0 < x.lo <= cid && x.lo <= y.lo && (Creates(x.th) ==> cid < y.lo)
    && OpStep(x.v, x.th, Ok, cid, false) == StepResult(y.v, y.th)
  }

  ghost predicate Steps(x: Point, y: Point) {
    exists cid :: StepsWith(x, cid, y)
  }

  ghost predicate IsPath(path: seq<Point>, x: Point, y: Point) {
    && path != [] && path[0] == x && path[|path| - 1] == y
    && forall i | 0 <= i < |path| - 1 :: Steps(path[i], path[i + 1])
  }

  /** With no failing call the operation gets from one point to the other. */
  ghost predicate RunsTo(x: Point, y: Point) {
    exists path :: IsPath(path, x, y)
  }

  lemma Here(x: Point)
    ensures RunsTo(x, x)
  {
    assert IsPath([x], x, x);
  }

  lemma Prepend(x: Point, y: Point, z: Point, path: seq<Point>)
    requires Steps(x, y) && IsPath(path, y, z)
    ensures IsPath([x] + path, x, z)
  {
    var longer := [x] + path;
    forall i | 0 <= i < |longer| - 1 ensures Steps(longer[i], longer[i + 1]) {
      if i > 0 { assert longer[i] == path[i - 1] && longer[i + 1] == path[i]; }
    }
  }

  /** Put one step in front that creates no container. */
  lemma Ahead(v: Slice, th: Thread, lo: Cid, z: Point)
    requires CanStep(th) && !Creates(th) && 0 < lo
    requires var r := OpStep(v, th, Ok, lo, false); RunsTo(Point(r.v, r.th, lo), z)
    ensures RunsTo(Point(v, th, lo), z)
  {
    var r := OpStep(v, th, Ok, lo, false);
    var path :| IsPath(path, Point(r.v, r.th, lo), z);
    assert StepsWith(Point(v, th, lo), lo, Point(r.v, r.th, lo));
    Prepend(Point(v, th, lo), Point(r.v, r.th, lo), z, path);
  }

  /** Put the creation of a container in front. */
  lemma AheadNew(v: Slice, th: Thread, lo: Cid, cid: Cid, z: Point)
    requires CanStep(th) && 0 < lo <= cid
    requires var r := OpStep(v, th, Ok, cid, false); RunsTo(Point(r.v, r.th, cid + 1), z)
    ensures RunsTo(Point(v, th, lo), z)
  {
    var r := OpStep(v, th, Ok, cid, false);
    var path :| IsPath(path, Point(r.v, r.th, cid + 1), z);
    assert StepsWith(Point(v, th, lo), cid, Point(r.v, r.th, cid + 1));
    Prepend(Point(v, th, lo), Point(r.v, r.th, cid + 1), z, path);
  }

  function Focus(s: State, t: Tid, id: Id, v: Slice, th: Thread): State {
    s.(world := s.world[id := v], threads := s.threads[t := th])
  }

  lemma CapOnlyMattersAtInsert(v: Slice, th: Thread, cid: Cid, full: bool)
    requires CanStep(th)
    ensures OpStep(v, th, Ok, cid, full) == OpStep(v, th, Ok, cid, false)
    ensures OpStep(v, th, Ok, cid, false).th.Op? && OpStep(v, th, Ok, cid, false).th.id == th.id
  {
    OpKeepsId(v, th, Ok, cid, false);
  }

  lemma FocusStep(s: State, t: Tid, v: Slice, th: Thread, cid: Cid, cap: nat)
    requires CanStep(th) && cid != 0 && cid !in s.issued
    ensures var r := OpStep(v, th, Ok, cid, false);
            Next(Focus(s, t, th.id, v, th), Run(t, Ok, cid), cap)
            == Focus(s, t, th.id, r.v, r.th).(issued := Issue(s.issued, th, cid))
  {
    CapOnlyMattersAtInsert(v, th, cid, |LiveIds(Focus(s, t, th.id, v, th).world)| >= cap);
  }

  lemma GoOne(s0: State, s: State, t: Tid, x: Point, y: Point, cap: nat)
    requires Steps(x, y) && Gets(s0, Focus(s, t, x.th.id, x.v, x.th), x.lo, cap)
    ensures y.th.Op? && y.th.id == x.th.id && Gets(s0, Focus(s, t, x.th.id, y.v, y.th), y.lo, cap)
  {
    var cid :| StepsWith(x, cid, y);
    var issued :| Below(issued, x.lo) && Reaches(s0, Focus(s, t, x.th.id, x.v, x.th).(issued := issued), cap);
    var f := s.(issued := issued);
    assert Focus(f, t, x.th.id, x.v, x.th) == Focus(s, t, x.th.id, x.v, x.th).(issued := issued);
    FocusStep(f, t, x.v, x.th, cid, cap);
    CapOnlyMattersAtInsert(x.v, x.th, cid, false);
    Do(s0, Focus(f, t, x.th.id, x.v, x.th), Run(t, Ok, cid), cap);
    var next := Issue(issued, x.th, cid);
    assert Below(next, y.lo);
    assert Focus(s, t, x.th.id, y.v, y.th).(issued := next) == Focus(f, t, x.th.id, y.v, y.th).(issued := next);
  }

  lemma {:induction false} GoSteps(s0: State, s: State, t: Tid, id: Id, path: seq<Point>, k: nat, cap: nat)
    requires k < |path| && forall i | 0 <= i < |path| - 1 :: Steps(path[i], path[i + 1])
    requires path[0].th.Op? && path[0].th.id == id && Gets(s0, Focus(s, t, id, path[0].v, path[0].th), path[0].lo, cap)
    ensures path[k].th.Op? && path[k].th.id == id && Gets(s0, Focus(s, t, id, path[k].v, path[k].th), path[k].lo, cap)
  {
    if k > 0 {
      GoSteps(s0, s, t, id, path, k - 1, cap);
      assert Steps(path[k - 1], path[k - 1 + 1]);
      GoOne(s0, s, t, path[k - 1], path[k], cap);
    }
  }

  /** Extend a run by steps of one operation. */
  lemma Go(s0: State, s: State, t: Tid, x: Point, y: Point, cap: nat)
    requires RunsTo(x, y) && x.th.Op? && Gets(s0, Focus(s, t, x.th.id, x.v, x.th), x.lo, cap)
    ensures y.th.Op? && y.th.id == x.th.id && Gets(s0, Focus(s, t, x.th.id, y.v, y.th), y.lo, cap)
  {
    var path :| IsPath(path, x, y);
    GoSteps(s0, s, t, x.th.id, path, |path| - 1, cap);
  }

  /** An ID above all those of a finite set. */
  lemma {:induction false} Bound(xs: set<Cid>) returns (n: Cid)
    ensures n > 0 && forall x | x in xs :: x < n
  {
    if xs == {} {
      n := 1;
    } else {
      var x :| x in xs;
      var m := Bound(xs - {x});
      n := m + x;
      forall y | y in xs ensures y < n { assert y == x || y in xs - {x}; }
    }
  }

  // ---------------------------------------------------------------- beginning and ending an operation

  function Held(s: State, id: Id): State {
    s.(refs := s.refs[id := 1])
  }

  lemma BeginOp(s0: State, s: State, t: Tid, kind: Kind, id: Id, v: Slice, lo: Cid, cap: nat)
    requires Gets(s0, s, lo, cap) && Bare(s) && t !in s.threads && id !in s.refs && id in s.world && s.world[id] == v
    requires kind.Update? || kind.Delete? || kind.Stop? || kind.Resume?
    ensures Gets(s0, Focus(Held(s, id), t, id, v, Entry(kind, id)), lo, cap)
  {
    Act(s0, s, Start(t, kind, id), lo, cap);
    assert s.world[id := v] == s.world;
  }

  lemma FinishOp(s0: State, s: State, t: Tid, id: Id, v: Slice, th: Thread, lo: Cid, cap: nat)
    requires Gets(s0, Focus(Held(s, id), t, id, v, th), lo, cap) && Bare(s) && 0 < lo
    requires t !in s.threads && id !in s.refs && th.Op? && th.id == id && th.pc.Release?
    ensures Gets(s0, s.(world := s.world[id := v]), lo, cap)
  {
    assert s.refs[id := 1] - {id} == s.refs;
    assert s.threads[t := th] - {t} == s.threads;
    Act(s0, Focus(Held(s, id), t, id, v, th), Run(t, Ok, lo), lo, cap);
  }

  /** An operation in which no call fails runs to its end and lets go of the agent. */
  lemma RunToEnd(s0: State, s: State, t: Tid, x: Point, y: Point, cap: nat)
    requires RunsTo(x, y) && Bare(s) && x.th.Op? && y.th.Op? && y.th.pc.Release? && 0 < y.lo && t !in s.threads && x.th.id !in s.refs
    requires Gets(s0, Focus(Held(s, x.th.id), t, x.th.id, x.v, x.th), x.lo, cap)
    ensures Gets(s0, s.(world := s.world[x.th.id := y.v]), y.lo, cap)
  {
    Go(s0, Held(s, x.th.id), t, x, y, cap);
    FinishOp(s0, s, t, x.th.id, y.v, y.th, y.lo, cap);
  }

  // ---------------------------------------------------------------- a Create with no failing call

  /** The agent a Create with no failing call leaves behind. */
  function Healthy(dind: Cid, agent: Cid): Slice {
    Slice(Some(Record(Running, agent, dind)),
          Resources(Some(Box(agent, true)), Some(Box(dind, true)), true, true, true, true, true),
          agent, {}, {})
  }

  const Blank := Record(Creating, 0, 0)

  function Working(id: Id, pc: Pc, a: Record, made: Cid): Thread {
    Op(Create, id, pc, a, made, false)
  }

  function Half(rec: Record, agent: Option<Box>, dind: Option<Box>, proxied: bool, last: Cid): Slice {
    Slice(Some(rec), Resources(agent, dind, true, proxied, true, true, true), last, {}, {})
  }

  /** Create with its sidecar up. */
  function Sidecarred(id: Id, dind: Cid): Point {
    Point(Half(Record(Creating, 0, dind), None, Some(Box(dind, true)), true, 0),
          Working(id, Renewing(AgentCreate), Record(Creating, 0, dind), dind), dind + 1)
  }

  function Created(id: Id, dind: Cid, agent: Cid): Point {
    Point(Healthy(dind, agent), Working(id, Release, Record(Creating, agent, dind), agent), agent + 1)
  }

  lemma CreateAgentBox(id: Id, dind: Cid, agent: Cid)
    requires 0 < dind < agent
    ensures RunsTo(Sidecarred(id, dind), Created(id, dind, agent))
  {
    var d, rec, early := Some(Box(dind, true)), Record(Creating, agent, dind), Record(Creating, 0, dind);
    var up := Half(rec, Some(Box(agent, true)), d, true, agent);
    var z := Created(id, dind, agent);
    Here(z);
    Ahead(up, Working(id, Renewing(MarkRunning), rec, agent), agent + 1, z);
    Ahead(up, Working(id, Renewing(Tmux), rec, agent), agent + 1, z);
    Ahead(Half(rec, Some(Box(agent, false)), d, true, agent), Working(id, Renewing(AgentStart), rec, agent), agent + 1, z);
    Ahead(Half(early, Some(Box(agent, false)), d, true, agent), Working(id, Renewing(AgentStamp), early, agent), agent + 1, z);
    AheadNew(Half(early, None, d, true, 0), Working(id, Renewing(AgentCreate), early, dind), dind + 1, agent, z);
  }

  function Furnishing(id: Id, lo: Cid): Point {
    Point(Half(Blank, None, None, false, 0), Working(id, Sidecar(DindCreate), Blank, 0), lo)
  }

  lemma CreateSidecar(id: Id, lo: Cid, dind: Cid)
    requires 0 < lo <= dind
    ensures RunsTo(Furnishing(id, lo), Sidecarred(id, dind))
  {
    var rec := Record(Creating, 0, dind);
    var up := Half(rec, None, Some(Box(dind, true)), false, 0);
    var z := Sidecarred(id, dind);
    Here(z);
    Ahead(up, Working(id, Building(Connect), rec, dind), dind + 1, z);
    Ahead(up, Working(id, Sidecar(DindSettle), rec, dind), dind + 1, z);
    Ahead(Half(rec, None, Some(Box(dind, false)), false, 0), Working(id, Sidecar(DindBoot), rec, dind), dind + 1, z);
    Ahead(Half(Blank, None, Some(Box(dind, false)), false, 0), Working(id, Sidecar(DindStamp), Blank, dind), dind + 1, z);
    AheadNew(Half(Blank, None, None, false, 0), Working(id, Sidecar(DindCreate), Blank, 0), lo, dind, z);
  }

  function Reserved(net: bool, w: bool, c: bool, k: bool): Slice {
    Slice(Some(Blank), Resources(None, None, net, false, w, c, k), 0, {}, {})
  }

  /** Create right after it reserved its slot. */
  function Reserving(id: Id, lo: Cid): Point {
    Point(Reserved(false, false, false, false), Working(id, Building(Prep), Blank, 0), lo)
  }

  lemma CreateStorage(id: Id, lo: Cid)
    requires 0 < lo
    ensures RunsTo(Reserving(id, lo), Furnishing(id, lo))
  {
    var z := Furnishing(id, lo);
    Here(z);
    Ahead(Reserved(false, true, true, true), Working(id, Building(MakeNet), Blank, 0), lo, z);
    Ahead(Reserved(false, true, true, false), Working(id, Building(MakeVolume(Cache)), Blank, 0), lo, z);
    Ahead(Reserved(false, true, false, false), Working(id, Building(MakeVolume(Config)), Blank, 0), lo, z);
    Ahead(Reserved(false, false, false, false), Working(id, Building(MakeVolume(Workspace)), Blank, 0), lo, z);
    Ahead(Reserved(false, false, false, false), Working(id, Building(Prep), Blank, 0), lo, z);
  }

  function Begun(s: State, t: Tid, id: Id): State {
    Focus(Held(s, id), t, id, Reserving(id, 1).v, Reserving(id, 1).th)
  }

  lemma BeginCreate(s0: State, s: State, t: Tid, id: Id, lo: Cid, cap: nat)
    requires Gets(s0, s, lo, cap) && Bare(s) && 0 < lo
    requires t !in s.threads && id !in s.refs && id !in s.world && |LiveIds(s.world)| < cap
    ensures Gets(s0, Begun(s, t, id), lo, cap)
  {
    var s1 := Held(s, id).(threads := s.threads[t := Entry(Create, id)]);
    Act(s0, s, Start(t, Create, id), lo, cap);
    InsertCreate(s, s1, t, id, lo, cap);
    Act(s0, s1, Run(t, Ok, lo), lo, cap);
  }

  lemma InsertCreate(s: State, s1: State, t: Tid, id: Id, lo: Cid, cap: nat)
    requires id !in s.world && |LiveIds(s.world)| < cap && Bare(s) && 0 < lo
    requires s1 == Held(s, id).(threads := s.threads[t := Entry(Create, id)])
    ensures Next(s1, Run(t, Ok, lo), cap) == Begun(s, t, id)
  {
  }

  /** A Create that holds its slot and in which no call fails: the agent runs. */
  lemma CreateRuns(s0: State, s: State, t: Tid, id: Id, lo: Cid, dind: Cid, agent: Cid, cap: nat)
    requires Gets(s0, Begun(s, t, id), lo, cap) && Bare(s) && t !in s.threads && id !in s.refs && 0 < lo <= dind < agent
    ensures Gets(s0, s.(world := s.world[id := Healthy(dind, agent)]), agent + 1, cap)
  {
    CreateStorage(id, lo);
    Go(s0, Held(s, id), t, Reserving(id, lo), Furnishing(id, lo), cap);
    CreateSidecar(id, lo, dind);
    Go(s0, Held(s, id), t, Furnishing(id, lo), Sidecarred(id, dind), cap);
    CreateAgentBox(id, dind, agent);
    RunToEnd(s0, s, t, Sidecarred(id, dind), Created(id, dind, agent), cap);
  }

  lemma CreateFrom(s0: State, s: State, t: Tid, id: Id, lo: Cid, dind: Cid, agent: Cid, cap: nat)
    requires Gets(s0, s, lo, cap) && Bare(s) && 0 < lo <= dind < agent
    requires t !in s.threads && id !in s.refs && id !in s.world && |LiveIds(s.world)| < cap
    ensures Gets(s0, s.(world := s.world[id := Healthy(dind, agent)]), agent + 1, cap)
  {
    BeginCreate(s0, s, t, id, lo, cap);
    CreateRuns(s0, s, t, id, lo, dind, agent, cap);
  }

  // ---------------------------------------------------------------- an agent that dies by itself

  /**
   The container of a running agent dies, its die event is delivered, and the handler looks and writes: the
   record says Errored.
   */
  lemma DeathIsRecorded(s0: State, s: State, t: Tid, id: Id, dind: Cid, agent: Cid, lo: Cid, cap: nat)
    requires Gets(s0, s, lo, cap) && Bare(s) && t !in s.threads && 0 < dind < agent < lo
    requires id in s.world && s.world[id] == Healthy(dind, agent)
    ensures Gets(s0, s.(world := s.world[id := Dead(dind, agent)]), lo, cap)
  {
    var down := Dead(dind, agent).(rec := Healthy(dind, agent).rec);
    var s1 := s.(world := s.world[id := down]);
    assert {} + {agent} == {agent};
    assert Die1(Healthy(dind, agent), AgentRole) == down;
    assert Next(s, Die(id, AgentRole), cap) == s1;
    Act(s0, s, Die(id, AgentRole), lo, cap);
    var h := Handler(id, agent, Errored, false);
    var s2 := s1.(threads := s.threads[t := h]);
    assert Next(s1, Event(t, id, AgentRole, agent, DieEvent), cap) == s2;
    Act(s0, s1, Event(t, id, AgentRole, agent, DieEvent), lo, cap);
    HandlerRuns(s0, s1, t, id, dind, agent, lo, cap);
    assert s1.world[id := Dead(dind, agent)] == s.world[id := Dead(dind, agent)];
  }

  function Dead(dind: Cid, agent: Cid): Slice {
    Slice(Some(Record(Errored, agent, dind)),
          Resources(Some(Box(agent, false)), Some(Box(dind, true)), true, true, true, true, true),
          agent, {}, {agent})
  }

  lemma HandlerRuns(s0: State, s1: State, t: Tid, id: Id, dind: Cid, agent: Cid, lo: Cid, cap: nat)
    requires Bare(s1) && t !in s1.threads && 0 < dind < agent < lo
    requires Gets(s0, s1.(threads := s1.threads[t := Handler(id, agent, Errored, false)]), lo, cap)
    requires id in s1.world && s1.world[id] == Dead(dind, agent).(rec := Some(Record(Running, agent, dind)))
    ensures Gets(s0, s1.(world := s1.world[id := Dead(dind, agent)]), lo, cap)
  {
    var s2 := s1.(threads := s1.threads[t := Handler(id, agent, Errored, false)]);
    var s3 := s1.(threads := s1.threads[t := Handler(id, agent, Errored, true)]);
    HandlerLooks(s2, t, lo, cap);
    assert Next(s2, Run(t, Ok, lo), cap) == s3;
    Act(s0, s2, Run(t, Ok, lo), lo, cap);
    HandlerRecords(s3, t, lo, cap);
    assert Next(s3, Run(t, Ok, lo), cap) == s1.(world := s1.world[id := Dead(dind, agent)]) by {
      assert s3.threads - {t} == s1.threads;
    }
    Act(s0, s3, Run(t, Ok, lo), lo, cap);
  }

  // ---------------------------------------------------------------- stop

  /** StopAgent on a healthy agent, with no failing call. */
  function Halted(dind: Cid, agent: Cid): Slice {
    Slice(Some(Record(Stopped, agent, dind)),
          Resources(Some(Box(agent, false)), Some(Box(dind, false)), true, true, true, true, true),
          agent, {agent}, {agent})
  }

  lemma StopSteps(id: Id, dind: Cid, agent: Cid, lo: Cid)
    requires 0 < dind < agent < lo
    ensures RunsTo(Point(Healthy(dind, agent), Entry(Stop, id), lo),
                   Point(Halted(dind, agent), Op(Stop, id, Release, Record(Running, agent, dind), 0, false), lo))
  {
    var a := Record(Running, agent, dind);
    var z := Point(Halted(dind, agent), Op(Stop, id, Release, a, 0, false), lo);
    var v1 := Healthy(dind, agent);
    var v2 := v1.(rec := Some(Record(Updating, agent, dind)));
    var v3 := v2.(res := v2.res.(agent := Some(Box(agent, false))), retired := {agent}, died := {agent});
    var v4 := v3.(res := v3.res.(dind := Some(Box(dind, false))));
    Here(z);
    Ahead(v4, Op(Stop, id, Settling(MarkStopped), a, 0, false), lo, z);
    Ahead(v3, Op(Stop, id, Settling(HaltDind), a, 0, false), lo, z);
    assert StopAgentBox(v2, agent, Ok) == v3;
    Ahead(v2, Op(Stop, id, Settling(HaltAgent), a, 0, false), lo, z);
    Ahead(v1, Op(Stop, id, Entering(Shield), a, 0, false), lo, z);
    Ahead(v1, Entry(Stop, id), lo, z);
  }

  lemma StopRuns(s0: State, s: State, t: Tid, id: Id, dind: Cid, agent: Cid, lo: Cid, cap: nat)
    requires Gets(s0, s, lo, cap) && Bare(s) && t !in s.threads && id !in s.refs && 0 < dind < agent < lo
    requires id in s.world && s.world[id] == Healthy(dind, agent)
    ensures Gets(s0, s.(world := s.world[id := Halted(dind, agent)]), lo, cap)
  {
    BeginOp(s0, s, t, Stop, id, Healthy(dind, agent), lo, cap);
    StopSteps(id, dind, agent, lo);
    RunToEnd(s0, s, t, Point(Healthy(dind, agent), Entry(Stop, id), lo),
             Point(Halted(dind, agent), Op(Stop, id, Release, Record(Running, agent, dind), 0, false), lo), cap);
  }

  // ---------------------------------------------------------------- replacing the agent container

  /** An agent whose container is being replaced. */
  function Returning(rec: Record, agent: Option<Box>, up: bool, last: Cid, prior: Cid): Slice {
    Slice(Some(rec), Resources(agent, Some(Box(rec.dind, up)), true, true, true, true, true), last, {prior}, {prior})
  }

  function Doing(kind: Kind, id: Id, pc: Pc, a: Record, made: Cid): Thread {
    Op(kind, id, pc, a, made, false)
  }

  /** Running again in a new container, on the same sidecar, network and volumes. */
  function Resumed(dind: Cid, agent: Cid, cid: Cid): Slice {
    Returning(Record(Running, cid, dind), Some(Box(cid, true)), true, cid, agent)
  }

  predicate Replaces(kind: Kind) {
    kind.Resume? || kind.Wake? || kind.Update?
  }

  /** Removing the stopped agent container. */
  lemma RemovesOld(kind: Kind, id: Id, a: Record, dind: Cid, agent: Cid, lo: Cid)
    requires 0 < dind < agent < lo && a.cid == agent && Replaces(kind)
    ensures var r := Record(Updating, agent, dind);
            RunsTo(Point(Returning(r, Some(Box(agent, false)), true, agent, agent), Doing(kind, id, Replacing(OldStop), a, 0), lo),
                   Point(Returning(r, None, true, agent, agent),
                         Doing(kind, id, if kind.Update? then Replacing(Configure) else Renewing(AgentCreate), a, 0), lo))
  {
    var r := Record(Updating, agent, dind);
    var u := Returning(r, Some(Box(agent, false)), true, agent, agent);
    var z := Point(Returning(r, None, true, agent, agent),
                   Doing(kind, id, if kind.Update? then Replacing(Configure) else Renewing(AgentCreate), a, 0), lo);
    assert {agent} + {agent} == {agent};
    Here(z);
    Ahead(u, Doing(kind, id, Replacing(OldRemove), a, 0), lo, z);
    Ahead(u, Doing(kind, id, Replacing(OldStop), a, 0), lo, z);
  }

  /** Up to the last step, with whatever shielded status the record has. */
  function AlmostRunning(kind: Kind, id: Id, s: Status, dind: Cid, agent: Cid, cid: Cid): Point {
    Point(Returning(Record(s, cid, dind), Some(Box(cid, true)), true, cid, agent),
          Doing(kind, id, Renewing(MarkRunning), Record(s, cid, dind), cid), cid + 1)
  }

  /** Starting the new agent container. */
  lemma StartsNew(kind: Kind, id: Id, s: Status, a: Record, prior: Cid, dind: Cid, agent: Cid, lo: Cid, cid: Cid)
    requires 0 < dind < agent < lo <= cid && Replaces(kind)
    ensures RunsTo(Point(Returning(Record(s, prior, dind), None, true, agent, agent), Doing(kind, id, Renewing(AgentCreate), a, 0), lo),
                   AlmostRunning(kind, id, s, dind, agent, cid))
  {
    var r, z := Record(s, cid, dind), AlmostRunning(kind, id, s, dind, agent, cid);
    Here(z);
    Ahead(Returning(r, Some(Box(cid, true)), true, cid, agent), Doing(kind, id, Renewing(Tmux), r, cid), cid + 1, z);
    Ahead(Returning(r, Some(Box(cid, false)), true, cid, agent), Doing(kind, id, Renewing(AgentStart), r, cid), cid + 1, z);
    Ahead(Returning(r.(cid := prior), Some(Box(cid, false)), true, cid, agent), Doing(kind, id, Renewing(AgentStamp), a, cid), cid + 1, z);
    AheadNew(Returning(r.(cid := prior), None, true, agent, agent), Doing(kind, id, Renewing(AgentCreate), a, 0), lo, cid, z);
  }

  lemma Finishes(kind: Kind, id: Id, s: Status, dind: Cid, agent: Cid, cid: Cid)
    requires Replaces(kind)
    ensures RunsTo(AlmostRunning(kind, id, s, dind, agent, cid),
                   Point(Resumed(dind, agent, cid), Doing(kind, id, Release, Record(s, cid, dind), cid), cid + 1))
  {
    var x, z := AlmostRunning(kind, id, s, dind, agent, cid),
                Point(Resumed(dind, agent, cid), Doing(kind, id, Release, Record(s, cid, dind), cid), cid + 1);
    Here(z);
    Ahead(x.v, x.th, cid + 1, z);
  }

  // ---------------------------------------------------------------- resume

  lemma ResumeSidecar(id: Id, dind: Cid, agent: Cid, lo: Cid)
    requires 0 < dind < agent < lo
    ensures var a := Record(Stopped, agent, dind);
            RunsTo(Point(Halted(dind, agent), Entry(Resume, id), lo),
                   Point(Returning(a, Some(Box(agent, false)), true, agent, agent), Doing(Resume, id, Entering(Shield), a, 0), lo))
  {
    var a, box := Record(Stopped, agent, dind), Some(Box(agent, false));
    var down, up := Returning(a, box, false, agent, agent), Returning(a, box, true, agent, agent);
    var z := Point(up, Doing(Resume, id, Entering(Shield), a, 0), lo);
    Here(z);
    Ahead(up, Doing(Resume, id, Building(Resolve), a, 0), lo, z);
    Ahead(up, Doing(Resume, id, Sidecar(DindWait), a, 0), lo, z);
    Ahead(down, Doing(Resume, id, Sidecar(DindStart), a, 0), lo, z);
    Ahead(down, Doing(Resume, id, Sidecar(DindInspect), a, 0), lo, z);
    Ahead(down, Entry(Resume, id), lo, z);
  }

  lemma ResumeRemoves(id: Id, dind: Cid, agent: Cid, lo: Cid)
    requires 0 < dind < agent < lo
    ensures var a := Record(Stopped, agent, dind);
            RunsTo(Point(Returning(a, Some(Box(agent, false)), true, agent, agent), Doing(Resume, id, Entering(Shield), a, 0), lo),
                   Point(Returning(a.(status := Updating), None, true, agent, agent), Doing(Resume, id, Renewing(AgentCreate), a, 0), lo))
  {
    var a := Record(Stopped, agent, dind);
    RemovesOld(Resume, id, a, dind, agent, lo);
    Ahead(Returning(a, Some(Box(agent, false)), true, agent, agent), Doing(Resume, id, Entering(Shield), a, 0), lo,
          Point(Returning(a.(status := Updating), None, true, agent, agent), Doing(Resume, id, Renewing(AgentCreate), a, 0), lo));
  }

  /** A Resume that has removed the old container. */
  function Bereft(id: Id, dind: Cid, agent: Cid, lo: Cid): Point {
    Point(Returning(Record(Updating, agent, dind), None, true, agent, agent),
          Doing(Resume, id, Renewing(AgentCreate), Record(Stopped, agent, dind), 0), lo)
  }

  lemma ResumeHalfway(s0: State, s: State, t: Tid, id: Id, dind: Cid, agent: Cid, lo: Cid, cap: nat)
    requires Gets(s0, s, lo, cap) && Bare(s) && t !in s.threads && id !in s.refs && 0 < dind < agent < lo
    requires id in s.world && s.world[id] == Halted(dind, agent)
    ensures Gets(s0, Focus(Held(s, id), t, id, Bereft(id, dind, agent, lo).v, Bereft(id, dind, agent, lo).th), lo, cap)
  {
    var a := Record(Stopped, agent, dind);
    var back := Point(Returning(a, Some(Box(agent, false)), true, agent, agent), Doing(Resume, id, Entering(Shield), a, 0), lo);
    BeginOp(s0, s, t, Resume, id, Halted(dind, agent), lo, cap);
    ResumeSidecar(id, dind, agent, lo);
    Go(s0, Held(s, id), t, Point(Halted(dind, agent), Entry(Resume, id), lo), back, cap);
    ResumeRemoves(id, dind, agent, lo);
    Go(s0, Held(s, id), t, back, Bereft(id, dind, agent, lo), cap);
  }

  /** StopAgent and then ResumeAgent, with no failing call: the agent runs again and has lost nothing. */
  lemma StopThenResume(s0: State, s: State, t: Tid, id: Id, dind: Cid, agent: Cid, cid: Cid, lo: Cid, cap: nat)
    requires Gets(s0, s, lo, cap) && Bare(s) && t !in s.threads && id !in s.refs && 0 < dind < agent < lo <= cid
    requires id in s.world && s.world[id] == Healthy(dind, agent)
    ensures Gets(s0, s.(world := s.world[id := Resumed(dind, agent, cid)]), cid + 1, cap)
    ensures SameStorage(Healthy(dind, agent).res, Resumed(dind, agent, cid).res)
  {
    StopRuns(s0, s, t, id, dind, agent, lo, cap);
    var s1, a := s.(world := s.world[id := Halted(dind, agent)]), Record(Stopped, agent, dind);
    ResumeHalfway(s0, s1, t, id, dind, agent, lo, cap);
    StartsNew(Resume, id, Updating, a, agent, dind, agent, lo, cid);
    Go(s0, Held(s1, id), t, Bereft(id, dind, agent, lo), AlmostRunning(Resume, id, Updating, dind, agent, cid), cap);
    Finishes(Resume, id, Updating, dind, agent, cid);
    RunToEnd(s0, s1, t, AlmostRunning(Resume, id, Updating, dind, agent, cid),
             Point(Resumed(dind, agent, cid), Doing(Resume, id, Release, Record(Updating, cid, dind), cid), cid + 1), cap);
    assert s1.world[id := Resumed(dind, agent, cid)] == s.world[id := Resumed(dind, agent, cid)];
  }

  /**
   A crash between the creation of a container and the write of its ID leaves the record with the ID of
   a container that is gone: the reference no longer reaches the agent's container.
   */
  lemma CrashLeavesAnOutdatedId(s0: State, s: State, t: Tid, id: Id, dind: Cid, agent: Cid, cid: Cid, lo: Cid, cap: nat)
    requires Gets(s0, s, lo, cap) && Bare(s) && t !in s.threads && id !in s.refs && 0 < dind < agent < lo <= cid
    requires id in s.world && s.world[id] == Halted(dind, agent)
    ensures exists s' :: Reaches(s0, s', cap) && s'.threads == map[] && s'.refs == map[] &&
                         SliceOf(s', id) == Returning(Record(Updating, agent, dind), Some(Box(cid, false)), true, cid, agent)
    ensures !Reached(Some(Box(cid, false)), agent)
  {
    var a, x := Record(Stopped, agent, dind), Bereft(id, dind, agent, lo);
    var y := Point(Returning(a.(status := Updating), Some(Box(cid, false)), true, cid, agent),
                   Doing(Resume, id, Renewing(AgentStamp), a, cid), cid + 1);
    ResumeHalfway(s0, s, t, id, dind, agent, lo, cap);
    assert StepsWith(x, cid, y);
    GoOne(s0, Held(s, id), t, x, y, cap);
    var f := Focus(Held(s, id), t, id, y.v, y.th);
    Act(s0, f, Crash, cid + 1, cap);
    var s' := Leave(s0, Next(f, Crash, cap), cid + 1, cap);
  }

  // ---------------------------------------------------------------- update

  lemma UpdateSidecar(id: Id, dind: Cid, agent: Cid, lo: Cid)
    requires 0 < dind < agent < lo
    ensures var r := Record(Updating, agent, dind);
            RunsTo(Point(Halted(dind, agent), Entry(Update, id), lo),
                   Point(Returning(r, Some(Box(agent, false)), true, agent, agent), Doing(Update, id, Replacing(OldStop), r, 0), lo))
  {
    var a, r, box := Record(Stopped, agent, dind), Record(Updating, agent, dind), Some(Box(agent, false));
    var down, up := Returning(r, box, false, agent, agent), Returning(r, box, true, agent, agent);
    var z := Point(up, Doing(Update, id, Replacing(OldStop), r, 0), lo);
    Here(z);
    Ahead(up, Doing(Update, id, Sidecar(DindWait), r, 0), lo, z);
    Ahead(down, Doing(Update, id, Sidecar(DindStart), r, 0), lo, z);
    Ahead(down, Doing(Update, id, Sidecar(DindInspect), r, 0), lo, z);
    Ahead(down, Doing(Update, id, Building(Image), r, 0), lo, z);
    Ahead(Halted(dind, agent), Doing(Update, id, Entering(Mark), a, 0), lo, z);
    Ahead(Halted(dind, agent), Entry(Update, id), lo, z);
  }

  /** An Update that has removed the old container. */
  function Unconfigured(id: Id, s: Status, dind: Cid, agent: Cid, lo: Cid): Point {
    Point(Returning(Record(s, agent, dind), None, true, agent, agent),
          Doing(Update, id, Replacing(Configure), Record(Updating, agent, dind), 0), lo)
  }

  lemma UpdateHalfway(s0: State, s: State, t: Tid, id: Id, dind: Cid, agent: Cid, lo: Cid, cap: nat)
    requires Gets(s0, s, lo, cap) && Bare(s) && t !in s.threads && id !in s.refs && 0 < dind < agent < lo
    requires id in s.world && s.world[id] == Halted(dind, agent)
    ensures var x := Unconfigured(id, Updating, dind, agent, lo); Gets(s0, Focus(Held(s, id), t, id, x.v, x.th), lo, cap)
  {
    var r := Record(Updating, agent, dind);
    var x := Point(Returning(r, Some(Box(agent, false)), true, agent, agent), Doing(Update, id, Replacing(OldStop), r, 0), lo);
    BeginOp(s0, s, t, Update, id, Halted(dind, agent), lo, cap);
    UpdateSidecar(id, dind, agent, lo);
    Go(s0, Held(s, id), t, Point(Halted(dind, agent), Entry(Update, id), lo), x, cap);
    RemovesOld(Update, id, r, dind, agent, lo);
    Go(s0, Held(s, id), t, x, Unconfigured(id, Updating, dind, agent, lo), cap);
  }

  lemma UpdateRenews(id: Id, s: Status, dind: Cid, agent: Cid, lo: Cid, cid: Cid)
    requires 0 < dind < agent < lo <= cid
    ensures RunsTo(Unconfigured(id, s, dind, agent, lo), AlmostRunning(Update, id, s, dind, agent, cid))
  {
    var x := Unconfigured(id, s, dind, agent, lo);
    StartsNew(Update, id, s, Record(s, 0, dind), 0, dind, agent, lo, cid);
    Ahead(x.v, x.th, lo, AlmostRunning(Update, id, s, dind, agent, cid));
  }

  /** An Update of a stopped agent in which no call fails: it runs in a new container and has lost nothing. */
  lemma UpdateRuns(s0: State, s: State, t: Tid, id: Id, dind: Cid, agent: Cid, cid: Cid, lo: Cid, cap: nat)
    requires Gets(s0, s, lo, cap) && Bare(s) && t !in s.threads && id !in s.refs && 0 < dind < agent < lo <= cid
    requires id in s.world && s.world[id] == Halted(dind, agent)
    ensures Gets(s0, s.(world := s.world[id := Resumed(dind, agent, cid)]), cid + 1, cap)
    ensures SameStorage(Halted(dind, agent).res, Resumed(dind, agent, cid).res)
  {
    UpdateHalfway(s0, s, t, id, dind, agent, lo, cap);
    UpdateRenews(id, Updating, dind, agent, lo, cid);
    Go(s0, Held(s, id), t, Unconfigured(id, Updating, dind, agent, lo), AlmostRunning(Update, id, Updating, dind, agent, cid), cap);
    Finishes(Update, id, Updating, dind, agent, cid);
    RunToEnd(s0, s, t, AlmostRunning(Update, id, Updating, dind, agent, cid),
             Point(Resumed(dind, agent, cid), Doing(Update, id, Release, Record(Updating, cid, dind), cid), cid + 1), cap);
  }

  /** An agent whose Update or wake failed: Errored, no container, no ID. */
  function Broken(dind: Cid, agent: Cid): Slice {
    Returning(Record(Errored, 0, dind), None, true, agent, agent)
  }

  lemma UpdateTakesBroken(id: Id, dind: Cid, agent: Cid, lo: Cid)
    requires 0 < dind < agent < lo
    ensures var r := Record(Updating, 0, dind);
            RunsTo(Point(Broken(dind, agent), Entry(Update, id), lo),
                   Point(Returning(r, None, true, agent, agent), Doing(Update, id, Replacing(Configure), r, 0), lo))
  {
    var a, r := Record(Errored, 0, dind), Record(Updating, 0, dind);
    var v, w := Broken(dind, agent), Returning(r, None, true, agent, agent);
    var z := Point(w, Doing(Update, id, Replacing(Configure), r, 0), lo);
    assert {agent} + ({} + {}) == {agent};
    Here(z);
    assert RemoveAgentBox(w, 0, Ok) == w && StopAgentBox(w, 0, Ok) == w;
    Ahead(w, Doing(Update, id, Replacing(OldRemove), r, 0), lo, z);
    Ahead(w, Doing(Update, id, Replacing(OldStop), r, 0), lo, z);
    Ahead(w, Doing(Update, id, Sidecar(DindInspect), r, 0), lo, z);
    Ahead(w, Doing(Update, id, Building(Image), r, 0), lo, z);
    Ahead(v, Doing(Update, id, Entering(Mark), a, 0), lo, z);
    Ahead(v, Entry(Update, id), lo, z);
  }

  /** Retrying: an Update of a failed agent in which no call fails brings it back on the storage it had. */
  lemma UpdateRepairs(s0: State, s: State, t: Tid, id: Id, dind: Cid, agent: Cid, cid: Cid, lo: Cid, cap: nat)
    requires Gets(s0, s, lo, cap) && Bare(s) && t !in s.threads && id !in s.refs && 0 < dind < agent < lo <= cid
    requires id in s.world && s.world[id] == Broken(dind, agent)
    ensures Gets(s0, s.(world := s.world[id := Resumed(dind, agent, cid)]), cid + 1, cap)
    ensures SameStorage(Broken(dind, agent).res, Resumed(dind, agent, cid).res)
  {
    var r := Record(Updating, 0, dind);
    var x := Point(Returning(r, None, true, agent, agent), Doing(Update, id, Replacing(Configure), r, 0), lo);
    var y := AlmostRunning(Update, id, Updating, dind, agent, cid);
    BeginOp(s0, s, t, Update, id, Broken(dind, agent), lo, cap);
    UpdateTakesBroken(id, dind, agent, lo);
    Go(s0, Held(s, id), t, Point(Broken(dind, agent), Entry(Update, id), lo), x, cap);
    StartsNew(Update, id, Updating, r, 0, dind, agent, lo, cid);
    Ahead(x.v, x.th, lo, y);
    Go(s0, Held(s, id), t, x, y, cap);
    Finishes(Update, id, Updating, dind, agent, cid);
    RunToEnd(s0, s, t, y, Point(Resumed(dind, agent, cid), Doing(Update, id, Release, Record(Updating, cid, dind), cid), cid + 1), cap);
  }

  /**
   An Update whose configuration write fails: it has let go of the agent, the record says Updating, and the
   agent container is gone.  Only a reconcile pass settles the record from here.
   */
  lemma FailedUpdateStaysUpdating(s0: State, s: State, t: Tid, id: Id, dind: Cid, agent: Cid, lo: Cid, cap: nat)
    requires Gets(s0, s, lo, cap) && Bare(s) && t !in s.threads && id !in s.refs && 0 < dind < agent < lo
    requires id in s.world && s.world[id] == Halted(dind, agent)
    ensures exists s' :: Reaches(s0, s', cap) && s'.threads == s.threads && s'.refs == s.refs &&
                         SliceOf(s', id) == Returning(Record(Updating, agent, dind), None, true, agent, agent)
  {
    UpdateHalfway(s0, s, t, id, dind, agent, lo, cap);
    var x := Unconfigured(id, Updating, dind, agent, lo);
    var f := Focus(Held(s, id), t, id, x.v, x.th);
    Act(s0, f, Run(t, Refused, lo), lo, cap);
    var done := x.th.(pc := Release);
    assert Next(f, Run(t, Refused, lo), cap) == Focus(Held(s, id), t, id, x.v, done);
    FinishOp(s0, s, t, id, x.v, done, lo, cap);
    var s' := Leave(s0, s.(world := s.world[id := x.v]), lo, cap);
  }

  // ---------------------------------------------------------------- delete

  /** A healthy agent under deletion, with part of it gone. */
  function Fading(dind: Cid, agent: Cid, a: Option<Box>, d: Option<Box>, net: bool, proxied: bool, w: bool, c: bool, k: bool): Slice {
    Slice(Some(Record(Deleting, agent, dind)), Resources(a, d, net, proxied, w, c, k), agent, {agent}, {agent})
  }

  function Deleting1(id: Id, k: nat, dind: Cid, agent: Cid): Thread {
    Doing(Delete, id, Teardown(k), Record(Deleting, agent, dind), 0)
  }

  /** Nothing is left but the history. */
  function Gone(agent: Cid): Slice {
    Slice(None, NoResources, agent, {agent}, {agent})
  }

  function DeleteDone(id: Id, dind: Cid, agent: Cid, lo: Cid): Point {
    Point(Gone(agent), Doing(Delete, id, Release, Record(Deleting, agent, dind), 0), lo)
  }

  lemma DeleteStorage(id: Id, dind: Cid, agent: Cid, lo: Cid)
    requires 0 < dind < agent < lo
    ensures RunsTo(Point(Fading(dind, agent, None, None, true, true, true, true, true), Deleting1(id, 4, dind, agent), lo), DeleteDone(id, dind, agent, lo))
  {
    var z := DeleteDone(id, dind, agent, lo);
    Here(z);
    Ahead(Fading(dind, agent, None, None, false, false, false, false, false), Doing(Delete, id, Forget, Record(Deleting, agent, dind), 0), lo, z);
    Ahead(Fading(dind, agent, None, None, false, false, false, false, true), Deleting1(id, 8, dind, agent), lo, z);
    Ahead(Fading(dind, agent, None, None, false, false, false, true, true), Deleting1(id, 7, dind, agent), lo, z);
    Ahead(Fading(dind, agent, None, None, false, false, true, true, true), Deleting1(id, 6, dind, agent), lo, z);
    Ahead(Fading(dind, agent, None, None, true, false, true, true, true), Deleting1(id, 5, dind, agent), lo, z);
    Ahead(Fading(dind, agent, None, None, true, true, true, true, true), Deleting1(id, 4, dind, agent), lo, z);
  }

  /** The record is Deleting; nothing has been touched yet. */
  function Doomed(dind: Cid, agent: Cid): Slice {
    Healthy(dind, agent).(rec := Some(Record(Deleting, agent, dind)))
  }

  lemma DeleteMarks(id: Id, dind: Cid, agent: Cid, lo: Cid)
    requires 0 < dind < agent < lo
    ensures RunsTo(Point(Healthy(dind, agent), Entry(Delete, id), lo), Point(Doomed(dind, agent), Deleting1(id, 0, dind, agent), lo))
  {
    var z := Point(Doomed(dind, agent), Deleting1(id, 0, dind, agent), lo);
    Here(z);
    Ahead(Healthy(dind, agent), Doing(Delete, id, Entering(Mark), Record(Running, agent, dind), 0), lo, z);
    Ahead(Healthy(dind, agent), Entry(Delete, id), lo, z);
  }

  lemma DeleteContainers(id: Id, dind: Cid, agent: Cid, lo: Cid)
    requires 0 < dind < agent < lo
    ensures RunsTo(Point(Doomed(dind, agent), Deleting1(id, 0, dind, agent), lo),
                   Point(Fading(dind, agent, None, None, true, true, true, true, true), Deleting1(id, 4, dind, agent), lo))
  {
    var z := Point(Fading(dind, agent, None, None, true, true, true, true, true), Deleting1(id, 4, dind, agent), lo);
    var down, up := Some(Box(dind, false)), Some(Box(dind, true));
    Here(z);
    Ahead(Fading(dind, agent, None, down, true, true, true, true, true), Deleting1(id, 3, dind, agent), lo, z);
    Ahead(Fading(dind, agent, None, up, true, true, true, true, true), Deleting1(id, 2, dind, agent), lo, z);
    var stopped := Fading(dind, agent, Some(Box(agent, false)), up, true, true, true, true, true);
    assert {agent} + {agent} == {agent};
    Ahead(stopped, Deleting1(id, 1, dind, agent), lo, z);
    assert StopAgentBox(Doomed(dind, agent), agent, Ok) == stopped;
    Ahead(Doomed(dind, agent), Deleting1(id, 0, dind, agent), lo, z);
  }

  /** A Delete in which no call fails leaves neither record nor resources. */
  lemma DeleteRuns(s0: State, s: State, t: Tid, id: Id, dind: Cid, agent: Cid, lo: Cid, cap: nat)
    requires Gets(s0, s, lo, cap) && Bare(s) && t !in s.threads && id !in s.refs && 0 < dind < agent < lo
    requires id in s.world && s.world[id] == Healthy(dind, agent)
    ensures Gets(s0, s.(world := s.world[id := Gone(agent)]), lo, cap)
  {
    var x := Point(Fading(dind, agent, None, None, true, true, true, true, true), Deleting1(id, 4, dind, agent), lo);
    BeginOp(s0, s, t, Delete, id, Healthy(dind, agent), lo, cap);
    var y := Point(Doomed(dind, agent), Deleting1(id, 0, dind, agent), lo);
    DeleteMarks(id, dind, agent, lo);
    Go(s0, Held(s, id), t, Point(Healthy(dind, agent), Entry(Delete, id), lo), y, cap);
    DeleteContainers(id, dind, agent, lo);
    Go(s0, Held(s, id), t, y, x, cap);
    DeleteStorage(id, dind, agent, lo);
    RunToEnd(s0, s, t, x, DeleteDone(id, dind, agent, lo), cap);
  }

  // ---------------------------------------------------------------- the cap is not a bound on live agents

  /** Update takes a stopped agent back: one read and one guarded write. */
  lemma UpdateReadmits(s0: State, s: State, t: Tid, id: Id, dind: Cid, agent: Cid, lo: Cid, cap: nat) returns (s': State)
    requires Gets(s0, s, lo, cap) && Bare(s) && t !in s.threads && id !in s.refs && 0 < dind < agent < lo
    requires id in s.world && s.world[id] == Halted(dind, agent)
    ensures Reaches(s0, s', cap) && s'.world == s.world[id := Halted(dind, agent).(rec := Some(Record(Updating, agent, dind)))]
  {
    var v := Halted(dind, agent);
    var w := v.(rec := Some(Record(Updating, agent, dind)));
    var z := Point(w, Doing(Update, id, Building(Image), Record(Updating, agent, dind), 0), lo);
    BeginOp(s0, s, t, Update, id, v, lo, cap);
    Here(z);
    Ahead(v, Doing(Update, id, Entering(Mark), Record(Stopped, agent, dind), 0), lo, z);
    Ahead(v, Entry(Update, id), lo, z);
    Go(s0, Held(s, id), t, Point(v, Entry(Update, id), lo), z, cap);
    s' := Leave(s0, Focus(Held(s, id), t, id, z.v, z.th), lo, cap);
  }

  lemma CreateFirst(a: Id, cap: nat)
    requires cap == 1
    ensures Gets(Init, Init.(world := map[a := Healthy(1, 2)]), 3, cap)
  {
    Stay(Init, cap);
    assert Init.(issued := map[]) == Init;
    assert Below(map[], 1);
    assert LiveIds(Init.world) == {};
    CreateFrom(Init, Init, 0, a, 1, 1, 2, cap);
    assert Init.world[a := Healthy(1, 2)] == map[a := Healthy(1, 2)];
  }

  /** A stopped agent, then a new one in its slot: both exist, one holds a slot. */
  lemma StopThenCreate(a: Id, b: Id, cap: nat)
    requires a != b && cap == 1
    ensures Gets(Init, Init.(world := map[a := Halted(1, 2), b := Healthy(3, 4)]), 5, cap)
  {
    CreateFirst(a, cap);
    var s1 := Init.(world := map[a := Healthy(1, 2)]);
    StopRuns(Init, s1, 0, a, 1, 2, 3, cap);
    var s2 := Init.(world := map[a := Halted(1, 2)]);
    assert s1.world[a := Halted(1, 2)] == s2.world;
    assert LiveIds(s2.world) == {};
    CreateFrom(Init, s2, 0, b, 3, 3, 4, cap);
    assert s2.world[b := Healthy(3, 4)] == map[a := Halted(1, 2), b := Healthy(3, 4)];
  }

  /**
   With MAX_AGENTS = 1: create A, stop A, create B, update A.  Two agents hold slots at once.
   */
  lemma CapIsExceeded(a: Id, b: Id, cap: nat)
    requires a != b && cap == 1
    ensures exists s :: Reaches(Init, s, cap) && |LiveIds(s.world)| == 2
  {
    StopThenCreate(a, b, cap);
    var s := Init.(world := map[a := Halted(1, 2), b := Healthy(3, 4)]);
    var s' := UpdateReadmits(Init, s, 0, a, 1, 2, 5, cap);
    assert LiveIds(s'.world) == {a, b};
  }

  // ---------------------------------------------------------------- a completion policy frees the slot of a working Update

  /** A healthy agent whose record says something else. */
  function Marked(s: Status, dind: Cid, agent: Cid): Slice {
    Healthy(dind, agent).(rec := Some(Record(s, agent, dind)))
  }

  lemma UpdateMarks(id: Id, dind: Cid, agent: Cid, lo: Cid)
    requires 0 < dind < agent < lo
    ensures RunsTo(Point(Healthy(dind, agent), Entry(Update, id), lo),
                   Point(Marked(Updating, dind, agent), Doing(Update, id, Building(Image), Record(Updating, agent, dind), 0), lo))
  {
    var z := Point(Marked(Updating, dind, agent), Doing(Update, id, Building(Image), Record(Updating, agent, dind), 0), lo);
    Here(z);
    Ahead(Healthy(dind, agent), Doing(Update, id, Entering(Mark), Record(Running, agent, dind), 0), lo, z);
    Ahead(Healthy(dind, agent), Entry(Update, id), lo, z);
  }

  /** The Update goes on although its record says Stopped. */
  lemma UpdateGoesOn(id: Id, dind: Cid, agent: Cid, lo: Cid)
    requires 0 < dind < agent < lo
    ensures RunsTo(Point(Marked(Stopped, dind, agent), Doing(Update, id, Building(Image), Record(Updating, agent, dind), 0), lo),
                   Unconfigured(id, Stopped, dind, agent, lo))
  {
    var a, v := Record(Updating, agent, dind), Marked(Stopped, dind, agent);
    var z := Unconfigured(id, Stopped, dind, agent, lo);
    var halted := Returning(Record(Stopped, agent, dind), Some(Box(agent, false)), true, agent, agent);
    Here(z);
    assert {agent} + {agent} == {agent};
    Ahead(halted, Doing(Update, id, Replacing(OldRemove), a, 0), lo, z);
    assert StopAgentBox(v, agent, Ok) == halted;
    Ahead(v, Doing(Update, id, Replacing(OldStop), a, 0), lo, z);
    Ahead(v, Doing(Update, id, Sidecar(DindInspect), a, 0), lo, z);
    Ahead(v, Doing(Update, id, Building(Image), a, 0), lo, z);
  }

  /** A's Update, which has marked the record. */
  function AtWork(a: Id): Thread {
    Doing(Update, a, Building(Image), Record(Updating, 2, 1), 0)
  }

  /** A's Update is at work; the record says s, and `others` are there too. */
  function Underway(a: Id, s: Status, others: map<Id, Slice>): State {
    State(others[a := Marked(s, 1, 2)], map[a := 1], map[0 := AtWork(a)], map[])
  }

  lemma UpdateBegins(a: Id, cap: nat)
    requires cap == 1
    ensures Gets(Init, Underway(a, Updating, map[]), 3, cap)
  {
    var s := Init.(world := map[a := Healthy(1, 2)]);
    CreateFirst(a, cap);
    BeginOp(Init, s, 0, Update, a, Healthy(1, 2), 3, cap);
    UpdateMarks(a, 1, 2, 3);
    Go(Init, Held(s, a), 0, Point(Healthy(1, 2), Entry(Update, a), 3), Point(Marked(Updating, 1, 2), AtWork(a), 3), cap);
    assert Focus(Held(s, a), 0, a, Marked(Updating, 1, 2), AtWork(a)) == Underway(a, Updating, map[]);
  }

  lemma PolicyFreesTheSlot(a: Id, cap: nat)
    requires cap == 1
    ensures Gets(Init, Underway(a, Stopped, map[]), 3, cap)
  {
    UpdateBegins(a, cap);
    var f := Underway(a, Updating, map[]);
    assert Next(f, Complete(a), cap) == Underway(a, Stopped, map[]);
    Act(Init, f, Complete(a), 3, cap);
  }

  /** A has lost its slot to B while its own Update is at work. */
  lemma SlotIsTaken(a: Id, b: Id, cap: nat)
    requires a != b && cap == 1
    ensures Gets(Init, Underway(a, Stopped, map[b := Healthy(3, 4)]), 5, cap)
  {
    PolicyFreesTheSlot(a, cap);
    var g := Underway(a, Stopped, map[]);
    assert LiveIds(g.world) == {};
    CreateFrom(Init, g, 1, b, 3, 3, 4, cap);
    assert g.(world := g.world[b := Healthy(3, 4)]) == Underway(a, Stopped, map[b := Healthy(3, 4)]);
  }

  /**
   With MAX_AGENTS = 1: create A, begin to update A, let a completion policy mark A Stopped, create B, and let
   the Update finish.  Its last write takes A to Running: no stopped or failed agent was taken back, and two
   agents hold slots.
   */
  lemma CapIsExceededByCompletion(a: Id, b: Id, cap: nat)
    requires a != b && cap == 1
    ensures exists s, cid: Cid :: Reaches(Init, s, cap) && LastWriteExceeds(s, a, cid, cap)
  {
    SlotIsTaken(a, b, cap);
    var s := Underway(a, Stopped, map[b := Healthy(3, 4)]);
    assert Focus(s, 0, a, Marked(Stopped, 1, 2), AtWork(a)) == s;
    UpdateGoesOn(a, 1, 2, 5);
    Go(Init, s, 0, Point(Marked(Stopped, 1, 2), AtWork(a), 5), Unconfigured(a, Stopped, 1, 2, 5), cap);
    UpdateRenews(a, Stopped, 1, 2, 5, 5);
    Go(Init, s, 0, Unconfigured(a, Stopped, 1, 2, 5), AlmostRunning(Update, a, Stopped, 1, 2, 5), cap);
    var y := AlmostRunning(Update, a, Stopped, 1, 2, 5);
    var s' := Leave(Init, Focus(s, 0, a, y.v, y.th), 6, cap);
    assert s'.world == map[a := y.v, b := Healthy(3, 4)] && s'.threads == map[0 := y.th];
    LastWrite(s', a, b, 6, cap);
  }

  /** One slot is taken, A's operation is about to mark A Running although A has lost its slot, and then two are taken. */
  ghost predicate LastWriteExceeds(s: State, a: Id, cid: Cid, cap: nat) {
    && |LiveIds(s.world)| == 1 && 0 in s.threads && s.threads[0].id == a && LostItsSlot(SliceOf(s, a), s.threads[0])
    && Enabled(s, Run(0, Ok, cid)) && |LiveIds(Next(s, Run(0, Ok, cid), cap).world)| == 2
  }

  lemma LastWrite(s: State, a: Id, b: Id, cid: Cid, cap: nat)
    requires a != b && cid != 0 && cid !in s.issued
    requires var y := AlmostRunning(Update, a, Stopped, 1, 2, 5);
             s.world == map[a := y.v, b := Healthy(3, 4)] && s.threads == map[0 := y.th]
    ensures LastWriteExceeds(s, a, cid, cap)
  {
    assert LiveIds(s.world) == {b};
    assert LiveIds(Next(s, Run(0, Ok, cid), cap).world) == {a, b};
  }
}
