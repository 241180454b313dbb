/**
 Container IDs: every ID that occurs in an agent's record, containers or history, or in the hands of
 one of its operations, was handed out for a container of that very agent and role.
 */
module LifecycleIdentity {
  import opened Agents
  import opened Lifecycle

  predicate OwnBox(issued: map<Cid, Owner>, b: Option<Box>, id: Id, role: Role) {
    b.Some? ==> b.value.cid != 0 && OwnId(issued, b.value.cid, id, role)
  }

  ghost predicate OwnAll(issued: map<Cid, Owner>, cs: set<Cid>, id: Id) {
    forall c | c in cs :: OwnId(issued, c, id, AgentRole)
  }

  ghost predicate OwnSlice(issued: map<Cid, Owner>, id: Id, v: Slice) {
    && (v.rec.Some? ==> OwnRecord(issued, v.rec.value, id))
    && OwnBox(issued, v.res.agent, id, AgentRole) && OwnBox(issued, v.res.dind, id, DindRole)
    && OwnId(issued, v.last, id, AgentRole) && OwnAll(issued, v.retired, id) && OwnAll(issued, v.died, id)
  }

  /** While an operation works on the container it created, the ID it holds is that container's. */
  predicate OwnMade(issued: map<Cid, Owner>, th: Thread)
    requires th.Op?
  {
    && (th.pc.Sidecar? && (th.pc.d.DindStamp? || th.pc.d.DindBoot? || th.pc.d.DindSettle?) ==> OwnId(issued, th.made, th.id, DindRole))
    && (th.pc.Renewing? && !th.pc.n.AgentCreate? ==> OwnId(issued, th.made, th.id, AgentRole))
  }

  predicate OwnThread(issued: map<Cid, Owner>, th: Thread) {
    if th.Op? then OwnRecord(issued, th.a, th.id) && OwnMade(issued, th)
    else OwnId(issued, th.cid, th.id, AgentRole)
  }

  ghost predicate Owned(s: State) {
    && 0 !in s.issued
    && (forall id | id in s.world :: OwnSlice(s.issued, id, s.world[id]))
    && (forall t | t in s.threads :: OwnThread(s.issued, s.threads[t]))
  }

  /** A fresh ID occurs nowhere in an agent's history. */
  lemma FreshIsNew(issued: map<Cid, Owner>, id: Id, v: Slice, cid: Cid)
    requires OwnSlice(issued, id, v) && cid != 0 && cid !in issued
    ensures cid !in v.retired
  {
  }

  // ---------------------------------------------------------------- one step of an operation

  ghost predicate OwnResult(issued: map<Cid, Owner>, id: Id, r: StepResult) {
    r.th.Op? && r.th.id == id && OwnSlice(issued, id, r.v) && OwnThread(issued, r.th)
  }

  ghost predicate OwnPoint(issued: map<Cid, Owner>, v: Slice, th: Thread) {
    th.Op? && OwnSlice(issued, th.id, v) && OwnThread(issued, th)
  }

  lemma {:induction false} IssueGrows(issued: map<Cid, Owner>, issued': map<Cid, Owner>, id: Id, v: Slice)
    requires OwnSlice(issued, id, v) && forall c | c in issued :: c in issued' && issued'[c] == issued[c]
    ensures OwnSlice(issued', id, v)
  {
  }

  lemma OwnStopAgent(issued: map<Cid, Owner>, id: Id, v: Slice, ref: Cid, o: Outcome)
    requires OwnSlice(issued, id, v) && OwnId(issued, ref, id, AgentRole)
    ensures OwnSlice(issued, id, StopAgentBox(v, ref, o))
  {
  }

  lemma OwnRemoveAgent(issued: map<Cid, Owner>, id: Id, v: Slice, ref: Cid, o: Outcome)
    requires OwnSlice(issued, id, v) && OwnId(issued, ref, id, AgentRole)
    ensures OwnSlice(issued, id, RemoveAgentBox(v, ref, o))
  {
  }

  /** Record, agent container and history are as they were, and the sidecar was not replaced. */
  predicate SameIds(v: Slice, w: Slice) {
    && w.rec == v.rec && w.last == v.last && w.retired == v.retired && w.died == v.died && w.res.agent == v.res.agent
    && (w.res.dind.Some? ==> v.res.dind.Some? && w.res.dind.value.cid == v.res.dind.value.cid)
  }

  lemma OwnSameIds(issued: map<Cid, Owner>, id: Id, v: Slice, w: Slice)
    requires OwnSlice(issued, id, v) && SameIds(v, w)
    ensures OwnSlice(issued, id, w)
  {
  }

  lemma BuildSameIds(v: Slice, th: Thread, o: Outcome)
    requires th.Op? && th.pc.Building?
    ensures SameIds(v, BuildStep(v, th, o).v)
  {
    if th.pc.b.MakeVolume? {
      assert SetVolume(v.res, th.pc.b.v, true).agent == v.res.agent && SetVolume(v.res, th.pc.b.v, true).dind == v.res.dind;
    }
  }

  /** Building never hands over to a point that works on a container of its own making. */
  lemma BuildGoesOn(v: Slice, th: Thread, o: Outcome)
    requires th.Op? && th.pc.Building?
    ensures var th' := BuildStep(v, th, o).th;
            && th'.Op? && th'.id == th.id && th'.a == th.a
            && (th'.pc.Renewing? ==> th'.pc.n.AgentCreate?) && (th'.pc.Sidecar? ==> th'.pc.d.DindCreate? || th'.pc.d.DindInspect?)
  {
  }

  lemma SidecarTeardownSameIds(v: Slice, a: Record, k: nat, o: Outcome)
    requires k == 2 || k == 3
    ensures SameIds(v, TeardownCall(v, a, k, o))
  {
  }

  lemma StorageTeardownSameIds(v: Slice, a: Record, k: nat, o: Outcome)
    requires k >= 4
    ensures SameIds(v, TeardownCall(v, a, k, o))
  {
  }

  lemma OwnEntry(issued: map<Cid, Owner>, v: Slice, th: Thread, o: Outcome, full: bool)
    requires OwnPoint(issued, v, th) && th.pc.Entering?
    ensures OwnResult(issued, th.id, EntryStep(v, th, o, full))
  {
  }

  lemma OwnBuild(issued: map<Cid, Owner>, v: Slice, th: Thread, o: Outcome)
    requires OwnPoint(issued, v, th) && th.pc.Building?
    ensures OwnResult(issued, th.id, BuildStep(v, th, o))
  {
    BuildSameIds(v, th, o);
    BuildGoesOn(v, th, o);
    OwnSameIds(issued, th.id, v, BuildStep(v, th, o).v);
  }

  lemma OwnDindRevive(issued: map<Cid, Owner>, v: Slice, th: Thread, o: Outcome, cid: Cid)
    requires OwnPoint(issued, v, th) && th.pc.Sidecar? && (th.pc.d.DindInspect? || th.pc.d.DindStart? || th.pc.d.DindWait?)
    ensures OwnResult(issued, th.id, DindStep(v, th, o, cid))
  {
    OwnSameIds(issued, th.id, v, DindStep(v, th, o, cid).v);
  }

  lemma OwnDindRemoval(issued: map<Cid, Owner>, v: Slice, th: Thread, o: Outcome, cid: Cid)
    requires OwnPoint(issued, v, th) && th.pc.Sidecar? && (th.pc.d.DindStop? || th.pc.d.DindRemove?)
    ensures OwnResult(issued, th.id, DindStep(v, th, o, cid))
  {
    OwnSameIds(issued, th.id, v, DindStep(v, th, o, cid).v);
  }

  lemma OwnDindBoot(issued: map<Cid, Owner>, v: Slice, th: Thread, o: Outcome, cid: Cid)
    requires OwnPoint(issued, v, th) && th.pc.Sidecar? && (th.pc.d.DindStamp? || th.pc.d.DindBoot? || th.pc.d.DindSettle?)
    ensures OwnResult(issued, th.id, DindStep(v, th, o, cid))
  {
    if !th.pc.d.DindStamp? { OwnSameIds(issued, th.id, v, DindStep(v, th, o, cid).v); }
  }

  lemma OwnDindCreate(issued: map<Cid, Owner>, v: Slice, th: Thread, o: Outcome, cid: Cid)
    requires OwnPoint(issued, v, th) && th.pc == Sidecar(DindCreate) && cid != 0 && cid !in issued
    ensures OwnResult(Issue(issued, th, cid), th.id, DindStep(v, th, o, cid))
  {
    IssueGrows(issued, Issue(issued, th, cid), th.id, v);
  }

  lemma OwnOld(issued: map<Cid, Owner>, v: Slice, th: Thread, o: Outcome)
    requires OwnPoint(issued, v, th) && th.pc.Replacing?
    ensures OwnResult(issued, th.id, OldStep(v, th, o))
  {
    OwnStopAgent(issued, th.id, v, th.a.cid, o);
    OwnRemoveAgent(issued, th.id, v, th.a.cid, o);
  }

  lemma OwnNew(issued: map<Cid, Owner>, v: Slice, th: Thread, o: Outcome, cid: Cid)
    requires OwnPoint(issued, v, th) && th.pc.Renewing? && !th.pc.n.AgentCreate?
    ensures OwnResult(issued, th.id, NewStep(v, th, o, cid))
  {
  }

  lemma OwnAgentCreate(issued: map<Cid, Owner>, v: Slice, th: Thread, o: Outcome, cid: Cid)
    requires OwnPoint(issued, v, th) && th.pc == Renewing(AgentCreate) && cid != 0 && cid !in issued
    ensures OwnResult(Issue(issued, th, cid), th.id, NewStep(v, th, o, cid))
  {
    IssueGrows(issued, Issue(issued, th, cid), th.id, v);
  }

  lemma OwnSettle(issued: map<Cid, Owner>, v: Slice, th: Thread, o: Outcome)
    requires OwnPoint(issued, v, th) && th.pc.Settling?
    ensures OwnResult(issued, th.id, SettleStep(v, th, o))
  {
    if th.pc.x.HaltAgent? { OwnStopAgent(issued, th.id, v, th.a.cid, o); }
    else if th.pc.x.HaltDind? { OwnSameIds(issued, th.id, v, SettleStep(v, th, o).v); }
  }

  lemma OwnTeardownCall(issued: map<Cid, Owner>, id: Id, v: Slice, a: Record, k: nat, o: Outcome)
    requires OwnSlice(issued, id, v) && OwnRecord(issued, a, id)
    ensures OwnSlice(issued, id, TeardownCall(v, a, k, o))
  {
    if k == 0 { OwnStopAgent(issued, id, v, a.cid, o); }
    else if k == 1 { OwnRemoveAgent(issued, id, v, a.cid, o); }
    else {
      if k < 4 { SidecarTeardownSameIds(v, a, k, o); } else { StorageTeardownSameIds(v, a, k, o); }
      OwnSameIds(issued, id, v, TeardownCall(v, a, k, o));
    }
  }

  lemma OwnTeardown(issued: map<Cid, Owner>, v: Slice, th: Thread, o: Outcome)
    requires OwnPoint(issued, v, th) && th.pc.Teardown?
    ensures OwnResult(issued, th.id, TeardownStep(v, th, o))
  {
    OwnTeardownCall(issued, th.id, v, th.a, th.pc.k, o);
  }

  lemma OwnStep(issued: map<Cid, Owner>, v: Slice, th: Thread, o: Outcome, cid: Cid, full: bool)
    requires OwnPoint(issued, v, th) && !th.pc.Release? && cid != 0 && cid !in issued
    ensures OwnResult(Issue(issued, th, cid), th.id, OpStep(v, th, o, cid, full))
  {
    match th.pc
    case Entering(_) => OwnEntry(issued, v, th, o, full);
    case Building(_) => OwnBuild(issued, v, th, o);
    case Sidecar(d) =>
      if d.DindCreate? { OwnDindCreate(issued, v, th, o, cid); }
      else if d.DindStop? || d.DindRemove? { OwnDindRemoval(issued, v, th, o, cid); }
      else if d.DindInspect? || d.DindStart? || d.DindWait? { OwnDindRevive(issued, v, th, o, cid); }
      else { OwnDindBoot(issued, v, th, o, cid); }
    case Replacing(_) => OwnOld(issued, v, th, o);
    case Renewing(n) => if n.AgentCreate? { OwnAgentCreate(issued, v, th, o, cid); } else { OwnNew(issued, v, th, o, cid); }
    case Settling(_) => OwnSettle(issued, v, th, o);
    case Teardown(_) => OwnTeardown(issued, v, th, o);
    case Forget =>
  }

  // ---------------------------------------------------------------- every action

  lemma OwnNewSlice(s: State, id: Id)
    requires Owned(s)
    ensures OwnSlice(s.issued, id, SliceOf(s, id))
  {
  }

  lemma OwnedRun(s: State, t: Tid, o: Outcome, cid: Cid, cap: nat)
    requires Owned(s) && Enabled(s, Run(t, o, cid)) && s.threads[t].Op? && !s.threads[t].pc.Release?
    ensures Owned(Exec(s, Run(t, o, cid), cap))
  {
    var th := s.threads[t];
    OwnNewSlice(s, th.id);
    OwnStep(s.issued, SliceOf(s, th.id), th, o, cid, |LiveIds(s.world)| >= cap);
    OwnedAdvance(s, t, OpStep(SliceOf(s, th.id), th, o, cid, |LiveIds(s.world)| >= cap), Issue(s.issued, th, cid));
  }

  lemma OwnedAdvance(s: State, t: Tid, r: StepResult, issued: map<Cid, Owner>)
    requires Owned(s) && OwnResult(issued, r.th.id, r) && 0 !in issued
    requires forall c | c in s.issued :: c in issued && issued[c] == s.issued[c]
    ensures Owned(State(s.world[r.th.id := r.v], s.refs, s.threads[t := r.th], issued))
  {
    var s' := State(s.world[r.th.id := r.v], s.refs, s.threads[t := r.th], issued);
    forall id | id in s'.world ensures OwnSlice(issued, id, s'.world[id]) {
      if id != r.th.id { IssueGrows(s.issued, issued, id, s.world[id]); }
    }
  }

  lemma OwnedHandler(s: State, t: Tid, o: Outcome, cid: Cid, cap: nat)
    requires Owned(s) && Enabled(s, Run(t, o, cid)) && (s.threads[t].Handler? || s.threads[t].pc.Release?)
    ensures Owned(Exec(s, Run(t, o, cid), cap))
  {
    OwnNewSlice(s, s.threads[t].id);
  }

  lemma OwnedEnvironment(s: State, a: Action, cap: nat)
    requires Owned(s) && Enabled(s, a) && (a.Die? || a.Vanish? || a.Complete?)
    ensures Owned(Exec(s, a, cap))
  {
    OwnNewSlice(s, a.id);
  }

  /** Every action keeps IDs with the agent they were handed out for. */
  lemma OwnedNext(s: State, a: Action, cap: nat)
    requires Owned(s)
    ensures Owned(Next(s, a, cap))
  {
    if Enabled(s, a) {
      match a
      case Run(t, o, cid) =>
        if s.threads[t].Op? && !s.threads[t].pc.Release? { OwnedRun(s, t, o, cid, cap); } else { OwnedHandler(s, t, o, cid, cap); }
      case Die(_, _) => OwnedEnvironment(s, a, cap);
      case Vanish(_, _) => OwnedEnvironment(s, a, cap);
      case Complete(_) => OwnedEnvironment(s, a, cap);
      case Event(_, id, _, _, _) => OwnNewSlice(s, id);
      case _ =>
    }
  }

  /** So in every state of every run, compatible or not, IDs are where they belong. */
  lemma {:induction false} ReachableOwned(acts: seq<Action>, cap: nat)
    ensures Owned(After(Init, acts, cap))
    decreases |acts|
  {
    if acts != [] {
      var n := |acts| - 1;
      ReachableOwned(acts[..n], cap);
      OwnedNext(After(Init, acts[..n], cap), acts[n], cap);
    }
  }
}
