/**
 The inductive invariant of the lifecycle protocol, and the proof that every step keeps it.
 */
module LifecycleInvariant {
  import opened Agents
  import opened Lifecycle
  import opened LifecycleIdentity

  // ---------------------------------------------------------------- the invariant

  predicate Furnished(r: Resources) {
    AllVolumes(r) && r.net
  }

  /** `cid` is the last agent container created, and no operation has stopped or removed it. */
  predicate Current(v: Slice, cid: Cid) {
    cid != 0 && cid == v.last && cid !in v.retired
  }

  predicate RecordOk(v: Slice, r: Record) {
    && (Settled(r.status) ==> Furnished(v.res))
    && (r.status.Running? ==> Current(v, r.cid))
  }

  predicate SliceOk(v: Slice) {
    DaemonOk(v.res) && (v.rec.Some? ==> RecordOk(v, v.rec.value))
  }

  /** What an operation relies on about its record, at each point. */
  datatype Need = Nothing | MustBe(s: Status) | MustBeShielded | MustBeSettled | SettledIfAny | DoomedIfAny | Illegal

  function NeedOf(kind: Kind, pc: Pc): Need {
    match pc
    case Release => Nothing
    case Entering(e) =>
      if e.Insert? then (if kind.Create? then Nothing else Illegal)
      else if e.Get? then (if (kind.Update? || kind.Delete? || kind.Stop? || kind.Resume?) then Nothing else Illegal)
      else if e.Mark? then (if (kind.Update? || kind.Delete?) then Nothing else Illegal)
      else if kind.Stop? then Nothing
      else if kind.Resume? then MustBeSettled
      else if kind.Wake? then SettledIfAny
      else Illegal
    case Building(b) =>
      if b.Image? then (if kind.Update? then MustBeShielded else Illegal)
      else if b.Resolve? then (if kind.Resume? then MustBeSettled else if kind.Wake? then SettledIfAny else Illegal)
      else if kind.Create? then MustBe(Creating) else Illegal
    case Sidecar(d) =>
      if kind.Create? then (if StartingPc(d) then MustBe(Creating) else Illegal)
      else if kind.Update? then MustBeShielded
      else if kind.Resume? then MustBeSettled
      else if kind.Wake? then SettledIfAny
      else Illegal
    case Replacing(r) =>
      if r.AgentInspect? then (if kind.Wake? then SettledIfAny else Illegal)
      else if r.Configure? then (if kind.Update? then MustBeShielded else Illegal)
      else if (kind.Update? || kind.Resume? || kind.Wake?) then MustBeShielded else Illegal
    case Renewing(_) =>
      if kind.Create? then MustBe(Creating)
      else if (kind.Update? || kind.Resume? || kind.Wake?) then MustBeShielded
      else Illegal
    case Settling(x) =>
      if x.MarkInterrupted? then (if kind.Cleanup? then SettledIfAny else Illegal)
      else if kind.Stop? then MustBeShielded
      else if x.Fail? && kind.Update? then MustBeShielded
      else if x.Fail? && kind.Resume? then MustBeSettled
      else if x.Fail? && kind.Wake? then SettledIfAny
      else Illegal
    case Teardown(k) => if k < 9 then RemovalNeed(kind) else Illegal
    case Forget => RemovalNeed(kind)
  }

  function RemovalNeed(kind: Kind): Need {
    match kind
    case Create => MustBe(Creating)
    case Delete => MustBe(Deleting)
    case Cleanup => DoomedIfAny
    case _ => Illegal
  }

  predicate StartingPc(d: DindPc) {
    d.DindCreate? || d.DindStamp? || d.DindBoot? || d.DindSettle?
  }

  predicate Stamped(pc: Pc) {
    pc.Renewing? && (pc.n.AgentStart? || pc.n.Tmux? || pc.n.MarkRunning?)
  }

  /** Updating, or Stopped when a completion policy has come by since: no event changes it either way. */
  predicate Shielded(s: Status) {
    s.Updating? || s.Stopped?
  }

  predicate NeedMet(n: Need, rec: Option<Record>) {
    match n
    case Nothing => true
    case MustBe(s) => rec.Some? && rec.value.status == s
    case MustBeShielded => rec.Some? && Shielded(rec.value.status)
    case MustBeSettled => rec.Some? && Settled(rec.value.status)
    case SettledIfAny => rec.Some? ==> Settled(rec.value.status)
    case DoomedIfAny => rec.Some? ==> !Settled(rec.value.status)
    case Illegal => false
  }

  /** How much of the agent Create has built by the time it makes each call. */
  predicate Built(pc: Pc, r: Resources) {
    match pc
    case Building(b) =>
      && (b == MakeVolume(Config) ==> r.workspace)
      && (b == MakeVolume(Cache) ==> r.workspace && r.config)
      && (b.MakeNet? ==> AllVolumes(r))
      && (b.Connect? ==> Furnished(r))
    case Sidecar(_) => Furnished(r)
    case Renewing(_) => Furnished(r)
    case _ => true
  }

  predicate OpOk(th: Thread, v: Slice)
    requires th.Op?
  {
    && NeedMet(NeedOf(th.kind, th.pc), v.rec)
    && (th.kind.Create? ==> Built(th.pc, v.res))
    && (th.pc == Renewing(AgentStamp) ==> Current(v, th.made))
    && (Stamped(th.pc) ==> v.rec.Some? && v.rec.value.cid == th.made && Current(v, th.made))
  }

  predicate HandlerOk(th: Thread)
    requires th.Handler?
  {
    th.cid != 0 && (th.to == Errored || th.to == Stopped)
  }

  predicate ThreadOk(th: Thread, v: Slice) {
    if th.Op? then OpOk(th, v) else HandlerOk(th)
  }

  ghost predicate Holds(s: State, t: Tid, id: Id) {
    t in s.threads && s.threads[t].Op? && s.threads[t].id == id
  }

  /** The registry counts exactly the operations that hold an ID, and there is never more than one. */
  ghost predicate RegistryOk(s: State) {
    && (forall t, u, id | Holds(s, t, id) && Holds(s, u, id) :: t == u)
    && (forall t, id | Holds(s, t, id) :: id in s.refs)
    && (forall id | id in s.refs :: s.refs[id] == 1 && exists t :: Holds(s, t, id))
  }

  ghost predicate Good(s: State) {
    && (forall id | id in s.world :: SliceOk(s.world[id]))
    && (forall t | t in s.threads :: ThreadOk(s.threads[t], SliceOf(s, s.threads[t].id)))
    && RegistryOk(s)
  }

  // ---------------------------------------------------------------- one step of an operation

  predicate Ready(v: Slice, th: Thread) {
    th.Op? && SliceOk(v) && OpOk(th, v)
  }

  lemma EntryKeeps(v: Slice, th: Thread, o: Outcome, full: bool)
    requires Ready(v, th) && th.pc.Entering? && (th.pc.e.Insert? || th.pc.e.Get?)
    ensures var r := EntryStep(v, th, o, full); Ready(r.v, r.th)
  {
  }

  lemma MarkingKeeps(v: Slice, th: Thread, o: Outcome, full: bool)
    requires Ready(v, th) && th.pc.Entering? && (th.pc.e.Mark? || th.pc.e.Shield?)
    ensures var r := EntryStep(v, th, o, full); Ready(r.v, r.th)
  {
  }

  lemma VolumeKeeps(v: Slice, th: Thread, o: Outcome)
    requires Ready(v, th) && th.pc.Building? && (th.pc.b.Prep? || th.pc.b.MakeVolume?)
    ensures var r := BuildStep(v, th, o); Ready(r.v, r.th)
  {
  }

  lemma BuildKeeps(v: Slice, th: Thread, o: Outcome)
    requires Ready(v, th) && th.pc.Building? && !th.pc.b.Prep? && !th.pc.b.MakeVolume?
    ensures var r := BuildStep(v, th, o); Ready(r.v, r.th)
  {
  }

  lemma ReviveKeeps(v: Slice, th: Thread, o: Outcome, cid: Cid)
    requires Ready(v, th) && th.pc.Sidecar? && (th.pc.d.DindInspect? || th.pc.d.DindStart? || th.pc.d.DindWait?)
    ensures var r := DindStep(v, th, o, cid); Ready(r.v, r.th)
  {
  }

  lemma DindRemovalKeeps(v: Slice, th: Thread, o: Outcome, cid: Cid)
    requires Ready(v, th) && th.pc.Sidecar? && (th.pc.d.DindStop? || th.pc.d.DindRemove?)
    ensures var r := DindStep(v, th, o, cid); Ready(r.v, r.th)
  {
  }

  lemma DindCreateKeeps(v: Slice, th: Thread, o: Outcome, cid: Cid)
    requires Ready(v, th) && th.pc.Sidecar? && (th.pc.d.DindCreate? || th.pc.d.DindStamp?)
    ensures var r := DindStep(v, th, o, cid); Ready(r.v, r.th)
  {
  }

  lemma DindBootKeeps(v: Slice, th: Thread, o: Outcome, cid: Cid)
    requires Ready(v, th) && th.pc.Sidecar? && (th.pc.d.DindBoot? || th.pc.d.DindSettle?)
    ensures var r := DindStep(v, th, o, cid); Ready(r.v, r.th)
  {
  }

  lemma OldKeeps(v: Slice, th: Thread, o: Outcome)
    requires Ready(v, th) && th.pc.Replacing? && (th.pc.r.OldStop? || th.pc.r.OldRemove?)
    ensures var r := OldStep(v, th, o); Ready(r.v, r.th)
  {
  }

  lemma ConfigureKeeps(v: Slice, th: Thread, o: Outcome)
    requires Ready(v, th) && th.pc.Replacing? && (th.pc.r.AgentInspect? || th.pc.r.Configure?)
    ensures var r := OldStep(v, th, o); Ready(r.v, r.th)
  {
  }

  lemma NewKeeps(v: Slice, th: Thread, o: Outcome, cid: Cid)
    requires Ready(v, th) && th.pc == Renewing(AgentCreate) && cid != 0 && cid !in v.retired
    ensures var r := NewStep(v, th, o, cid); Ready(r.v, r.th)
  {
  }

  lemma StampKeeps(v: Slice, th: Thread, o: Outcome, cid: Cid)
    requires Ready(v, th) && th.pc == Renewing(AgentStamp)
    ensures var r := NewStep(v, th, o, cid); Ready(r.v, r.th)
  {
  }

  lemma AgentStartKeeps(v: Slice, th: Thread, o: Outcome, cid: Cid)
    requires Ready(v, th) && th.pc.Renewing? && (th.pc.n.AgentStart? || th.pc.n.Tmux?)
    ensures var r := NewStep(v, th, o, cid); Ready(r.v, r.th)
  {
  }

  lemma MarkRunningKeeps(v: Slice, th: Thread, o: Outcome, cid: Cid)
    requires Ready(v, th) && th.pc == Renewing(MarkRunning)
    ensures var r := NewStep(v, th, o, cid); Ready(r.v, r.th)
  {
  }

  lemma SettleKeeps(v: Slice, th: Thread, o: Outcome)
    requires Ready(v, th) && th.pc.Settling?
    ensures var r := SettleStep(v, th, o); Ready(r.v, r.th)
  {
  }

  lemma TeardownKeeps(v: Slice, th: Thread, o: Outcome)
    requires Ready(v, th) && th.pc.Teardown?
    ensures var r := TeardownStep(v, th, o); Ready(r.v, r.th)
  {
  }

  /** Every step of every operation keeps its own slice and its own thread in order. */
  lemma OpKeeps(v: Slice, th: Thread, o: Outcome, cid: Cid, full: bool)
    requires Ready(v, th) && !th.pc.Release? && cid != 0 && cid !in v.retired
    ensures var r := OpStep(v, th, o, cid, full); Ready(r.v, r.th)
  {
    match th.pc
    case Entering(e) => if e.Insert? || e.Get? { EntryKeeps(v, th, o, full); } else { MarkingKeeps(v, th, o, full); }
    case Building(b) => if b.Prep? || b.MakeVolume? { VolumeKeeps(v, th, o); } else { BuildKeeps(v, th, o); }
    case Sidecar(d) =>
      if d.DindCreate? || d.DindStamp? { DindCreateKeeps(v, th, o, cid); }
      else if d.DindBoot? || d.DindSettle? { DindBootKeeps(v, th, o, cid); }
      else if d.DindStop? || d.DindRemove? { DindRemovalKeeps(v, th, o, cid); }
      else { ReviveKeeps(v, th, o, cid); }
    case Replacing(r) => if r.OldStop? || r.OldRemove? { OldKeeps(v, th, o); } else { ConfigureKeeps(v, th, o); }
    case Renewing(n) =>
      if n.AgentCreate? { NewKeeps(v, th, o, cid); }
      else if n.AgentStamp? { StampKeeps(v, th, o, cid); }
      else if n.MarkRunning? { MarkRunningKeeps(v, th, o, cid); }
      else { AgentStartKeeps(v, th, o, cid); }
    case Settling(_) => SettleKeeps(v, th, o);
    case Teardown(_) => TeardownKeeps(v, th, o);
    case Forget =>
  }

  // ---------------------------------------------------------------- steps that bypass the registry

  /** An event handler changes only a Running record, so no operation notices. */
  lemma HandlerKeeps(v: Slice, h: Thread, th: Thread)
    requires h.Handler? && HandlerOk(h) && SliceOk(v)
    ensures SliceOk(HandlerWrite(v, h))
    ensures th.Op? && OpOk(th, v) ==> OpOk(th, HandlerWrite(v, h))
  {
  }

  /** A container that dies or vanishes by itself changes no volume, network or record. */
  lemma EnvironmentKeeps(v: Slice, role: Role, th: Thread)
    requires SliceOk(v)
    ensures SliceOk(Die1(v, role)) && SliceOk(Vanish1(v, role))
    ensures th.Op? && OpOk(th, v) ==> OpOk(th, Die1(v, role)) && OpOk(th, Vanish1(v, role))
  {
  }

  // ---------------------------------------------------------------- every action

  /**
   The two actions that need care.  A reconcile claim: if the record is still there, the status that was
   listed and the status now agree on whether the agent is half built or half removed.  The completion
   policy of a scheduled run: the record it marks Stopped is not being created or deleted.
   */
  predicate Compatible(s: State, a: Action) {
    match a
    case Claim(_, id, listed) =>
      var rec := SliceOf(s, id).rec;
      rec.Some? ==> Settled(listed.status) == Settled(rec.value.status)
    case Complete(id) =>
      var rec := SliceOf(s, id).rec;
      rec.Some? ==> Settled(rec.value.status)
    case _ => true
  }

  lemma RegistryTakes(s: State, t: Tid, th: Thread)
    requires RegistryOk(s) && t !in s.threads && th.Op? && !Busy(s, th.id)
    ensures RegistryOk(s.(refs := s.refs[th.id := 1], threads := s.threads[t := th]))
  {
    var s' := s.(refs := s.refs[th.id := 1], threads := s.threads[t := th]);
    assert Holds(s', t, th.id);
    forall u, id | Holds(s', u, id) ensures id in s'.refs && (u == t <==> id == th.id) {
      assert u != t ==> Holds(s, u, id);
    }
    forall u, w, id | Holds(s', u, id) && Holds(s', w, id) ensures u == w {
      assert u != t && w != t ==> Holds(s, u, id) && Holds(s, w, id);
    }
    forall id | id in s'.refs ensures s'.refs[id] == 1 && exists u :: Holds(s', u, id) {
      if id != th.id {
        var u :| Holds(s, u, id);
        assert Holds(s', u, id);
      }
    }
  }

  /** An operation takes a free agent and starts at a point whose needs are met. */
  lemma TakeKeeps(s: State, t: Tid, th: Thread)
    requires Good(s) && t !in s.threads && th.Op? && !Busy(s, th.id) && OpOk(th, SliceOf(s, th.id))
    ensures Good(s.(refs := s.refs[th.id := 1], threads := s.threads[t := th]))
  {
    RegistryTakes(s, t, th);
  }

  lemma RegistryDrops(s: State, t: Tid)
    requires RegistryOk(s) && t in s.threads && s.threads[t].Op?
    ensures RegistryOk(s.(refs := ReleaseRef(s.refs, s.threads[t].id), threads := s.threads - {t}))
  {
    var mine := s.threads[t].id;
    var s' := s.(refs := ReleaseRef(s.refs, mine), threads := s.threads - {t});
    assert Holds(s, t, mine);
    forall u, id | Holds(s', u, id) ensures id in s'.refs {
      assert Holds(s, u, id);
    }
    forall u, w, id | Holds(s', u, id) && Holds(s', w, id) ensures u == w {
      assert Holds(s, u, id) && Holds(s, w, id);
    }
    forall id | id in s'.refs ensures s'.refs[id] == 1 && exists u :: Holds(s', u, id) {
      var u :| Holds(s, u, id);
      assert Holds(s', u, id);
    }
  }

  /** Replacing one operation by its next point, or adding and removing handlers, moves no reference. */
  lemma RegistrySame(s: State, s': State)
    requires RegistryOk(s) && s'.refs == s.refs
    requires forall t, id :: Holds(s, t, id) <==> Holds(s', t, id)
    ensures RegistryOk(s')
  {
    forall id | id in s'.refs ensures s'.refs[id] == 1 && exists u :: Holds(s', u, id) {
      var u :| Holds(s, u, id);
      assert Holds(s', u, id);
    }
  }

  lemma RunOpKeeps(s: State, t: Tid, o: Outcome, cid: Cid, cap: nat)
    requires Good(s) && Owned(s) && Enabled(s, Run(t, o, cid)) && s.threads[t].Op?
    ensures Good(Exec(s, Run(t, o, cid), cap))
  {
    var th := s.threads[t];
    if th.pc.Release? {
      RegistryDrops(s, t);
    } else {
      var full := |LiveIds(s.world)| >= cap;
      OwnNewSlice(s, th.id);
      FreshIsNew(s.issued, th.id, SliceOf(s, th.id), cid);
      OpKeeps(SliceOf(s, th.id), th, o, cid, full);
      OpKeepsId(SliceOf(s, th.id), th, o, cid, full);
      AdvanceKeeps(s, t, OpStep(SliceOf(s, th.id), th, o, cid, full), Issue(s.issued, th, cid));
    }
  }

  /** The holder of an agent moves to its next point and rewrites that agent's slice. */
  lemma AdvanceKeeps(s: State, t: Tid, r: StepResult, issued: map<Cid, Owner>)
    requires Good(s) && t in s.threads && s.threads[t].Op?
    requires Ready(r.v, r.th) && r.th.id == s.threads[t].id
    ensures Good(State(s.world[r.th.id := r.v], s.refs, s.threads[t := r.th], issued))
  {
    var s' := State(s.world[r.th.id := r.v], s.refs, s.threads[t := r.th], issued);
    RegistrySame(s, s');
    assert Holds(s, t, r.th.id);
    forall u | u in s'.threads ensures ThreadOk(s'.threads[u], SliceOf(s', s'.threads[u].id)) {
      if u != t && s.threads[u].Op? && s.threads[u].id == r.th.id {
        assert Holds(s, u, r.th.id);
      }
    }
  }

  lemma OpKeepsId(v: Slice, th: Thread, o: Outcome, cid: Cid, full: bool)
    requires th.Op? && !th.pc.Release?
    ensures var r := OpStep(v, th, o, cid, full); r.th.Op? && r.th.id == th.id && r.th.kind == th.kind
  {
  }

  lemma RunHandlerKeeps(s: State, t: Tid, o: Outcome, cid: Cid, cap: nat)
    requires Good(s) && Enabled(s, Run(t, o, cid)) && s.threads[t].Handler?
    ensures Good(Exec(s, Run(t, o, cid), cap))
  {
    var th := s.threads[t];
    var s' := Exec(s, Run(t, o, cid), cap);
    RegistrySame(s, s');
    HandlerKeeps(SliceOf(s, th.id), th, th);
    forall u | u in s'.threads ensures ThreadOk(s'.threads[u], SliceOf(s', s'.threads[u].id)) {
      HandlerKeeps(SliceOf(s, th.id), th, s'.threads[u]);
    }
  }

  lemma EnvironmentActionKeeps(s: State, a: Action, cap: nat)
    requires Good(s) && Enabled(s, a) && (a.Die? || a.Vanish?)
    ensures Good(Exec(s, a, cap))
  {
    var s' := Exec(s, a, cap);
    RegistrySame(s, s');
    EnvironmentKeeps(SliceOf(s, a.id), a.role, Handler("", 0, Errored, false));
    forall u | u in s'.threads ensures ThreadOk(s'.threads[u], SliceOf(s', s'.threads[u].id)) {
      EnvironmentKeeps(SliceOf(s, a.id), a.role, s'.threads[u]);
    }
  }

  /** No operation relies on more than its record being shielded. */
  lemma CompleteKeeps(v: Slice, th: Thread)
    requires SliceOk(v) && v.rec.Some? && Settled(v.rec.value.status)
    ensures SliceOk(Stopped1(v))
    ensures th.Op? && OpOk(th, v) ==> OpOk(th, Stopped1(v))
  {
  }

  lemma CompleteActionKeeps(s: State, a: Action, cap: nat)
    requires Good(s) && Enabled(s, a) && a.Complete? && Compatible(s, a)
    ensures Good(Exec(s, a, cap))
  {
    var s' := Exec(s, a, cap);
    RegistrySame(s, s');
    CompleteKeeps(SliceOf(s, a.id), Handler("", 0, Errored, false));
    forall u | u in s'.threads ensures ThreadOk(s'.threads[u], SliceOf(s', s'.threads[u].id)) {
      CompleteKeeps(SliceOf(s, a.id), s'.threads[u]);
    }
  }

  /** The invariant is inductive: every compatible action keeps it. */
  lemma NextKeeps(s: State, a: Action, cap: nat)
    requires Good(s) && Owned(s) && Compatible(s, a)
    ensures Good(Next(s, a, cap))
  {
    if Enabled(s, a) {
      match a
      case Start(t, kind, id) => TakeKeeps(s, t, Entry(kind, id));
      case Claim(t, id, listed) => TakeKeeps(s, t, ClaimEntry(id, listed));
      case Event(_, _, _, _, _) => RegistrySame(s, Exec(s, a, cap));
      case Run(t, o, cid) =>
        if s.threads[t].Op? { RunOpKeeps(s, t, o, cid, cap); } else { RunHandlerKeeps(s, t, o, cid, cap); }
      case Die(_, _) => EnvironmentActionKeeps(s, a, cap);
      case Vanish(_, _) => EnvironmentActionKeeps(s, a, cap);
      case Complete(_) => CompleteActionKeeps(s, a, cap);
      case Crash =>
    }
  }

  /** Every claim and every completion of the run is compatible with the record it finds. */
  predicate CompatibleRun(s: State, acts: seq<Action>, cap: nat)
    decreases |acts|
  {
    acts == [] ||
    (var n := |acts| - 1;
     CompatibleRun(s, acts[..n], cap) && Compatible(After(s, acts[..n], cap), acts[n]))
  }

  /** Every state of every run is good. */
  lemma {:induction false} ReachableGood(acts: seq<Action>, cap: nat)
    requires CompatibleRun(Init, acts, cap)
    ensures Good(After(Init, acts, cap))
    decreases |acts|
  {
    if acts != [] {
      var n := |acts| - 1;
      ReachableGood(acts[..n], cap);
      ReachableOwned(acts[..n], cap);
      NextKeeps(After(Init, acts[..n], cap), acts[n], cap);
    }
  }
}
