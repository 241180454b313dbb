/**
 What holds in every run of the lifecycle protocol: the event shield, deletion as an
 absorbing state, no loss of volumes, exclusive ownership, and the exact reach of the
 MAX_AGENTS cap.
 */
module LifecycleSafety {
  import opened Agents
  import opened Lifecycle
  import opened LifecycleInvariant

  // ---------------------------------------------------------------- what one step of an operation can do

  /** A volume disappears only in teardown, while the record says Creating or Deleting or is already gone. */
  lemma OpVolumes(v: Slice, th: Thread, o: Outcome, cid: Cid, full: bool, vol: Volume)
    requires Ready(v, th) && !th.pc.Release?
    requires HasVolume(v.res, vol) && !HasVolume(OpStep(v, th, o, cid, full).v.res, vol)
    ensures th.pc.Teardown? && (v.rec.Some? ==> !Settled(v.rec.value.status))
  {
    match th.pc
    case Sidecar(_) => SidecarKeepsVolumes(v, th, o, cid);
    case Renewing(_) => NewBoxKeepsStorage(v, th, o, cid);
    case Replacing(_) => OldBoxKeepsStorage(v, th, o);
    case _ =>
  }

  predicate KeepsVolumes(r: Resources, r': Resources) {
    (r.workspace ==> r'.workspace) && (r.config ==> r'.config) && (r.cache ==> r'.cache)
  }

  lemma SidecarKeepsVolumes(v: Slice, th: Thread, o: Outcome, cid: Cid)
    requires th.Op? && th.pc.Sidecar?
    ensures KeepsVolumes(v.res, DindStep(v, th, o, cid).v.res)
  {
    if StartingPc(th.pc.d) { BootKeepsVolumes(v, th, o, cid); } else { RepairKeepsVolumes(v, th, o, cid); }
  }

  lemma BootKeepsVolumes(v: Slice, th: Thread, o: Outcome, cid: Cid)
    requires th.Op? && th.pc.Sidecar? && StartingPc(th.pc.d)
    ensures KeepsVolumes(v.res, DindStep(v, th, o, cid).v.res)
  {
  }

  lemma RepairKeepsVolumes(v: Slice, th: Thread, o: Outcome, cid: Cid)
    requires th.Op? && th.pc.Sidecar? && !StartingPc(th.pc.d)
    ensures KeepsVolumes(v.res, DindStep(v, th, o, cid).v.res)
  {
  }

  /** Operations that recreate or stop containers leave the volumes and the network exactly as they are. */
  lemma RecreateKeepsStorage(v: Slice, th: Thread, o: Outcome, cid: Cid, full: bool)
    requires Ready(v, th) && !th.pc.Release?
    requires th.kind.Update? || th.kind.Stop? || th.kind.Resume? || (th.kind.Wake? && v.rec.Some?)
    ensures SameStorage(v.res, OpStep(v, th, o, cid, full).v.res)
  {
    match th.pc
    case Sidecar(_) => SidecarKeepsStorage(v, th, o, cid);
    case Renewing(_) => NewBoxKeepsStorage(v, th, o, cid);
    case Replacing(_) => OldBoxKeepsStorage(v, th, o);
    case _ =>
  }

  predicate SameStorage(r: Resources, r': Resources) {
    r'.workspace == r.workspace && r'.config == r.config && r'.cache == r.cache && r'.net == r.net
  }

  lemma NewBoxKeepsStorage(v: Slice, th: Thread, o: Outcome, cid: Cid)
    requires Ready(v, th) && th.pc.Renewing?
    ensures SameStorage(v.res, NewStep(v, th, o, cid).v.res)
  {
  }

  lemma OldBoxKeepsStorage(v: Slice, th: Thread, o: Outcome)
    requires Ready(v, th) && th.pc.Replacing?
    ensures SameStorage(v.res, OldStep(v, th, o).v.res)
  {
  }

  lemma SidecarKeepsStorage(v: Slice, th: Thread, o: Outcome, cid: Cid)
    requires Ready(v, th) && th.pc.Sidecar? && (th.kind.Wake? ==> v.rec.Some?)
    ensures SameStorage(v.res, DindStep(v, th, o, cid).v.res)
  {
  }

  /** The step that lets a half-built agent become a settled one. */
  predicate Completes(th: Thread) {
    th.Op? && th.kind.Create? && th.pc == Renewing(MarkRunning)
  }

  lemma OpStatus(v: Slice, th: Thread, o: Outcome, cid: Cid, full: bool)
    requires Ready(v, th) && !th.pc.Release? && v.rec.Some? && !Settled(v.rec.value.status)
    ensures var rec' := OpStep(v, th, o, cid, full).v.rec;
            && (rec'.Some? && Settled(rec'.value.status) ==> Completes(th))
            && (v.rec.value.status.Deleting? && rec'.Some? ==> rec'.value.status.Deleting?)
  {
  }

  lemma OpHistory(v: Slice, th: Thread, o: Outcome, cid: Cid, full: bool)
    requires th.Op? && !th.pc.Release?
    ensures v.retired <= OpStep(v, th, o, cid, full).v.retired
  {
  }

  /**
   A record that holds no slot takes one without any capacity check: Update or ResumeAgent takes a stopped
   or failed agent back, or an operation completes on a record whose slot a completion policy has freed.
   */
  predicate Readmits(v: Slice, th: Thread, o: Outcome) {
    && th.Op? && o.Ok? && v.rec.Some?
    && ( || (th.kind.Update? && th.pc == Entering(Mark) && (v.rec.value.status.Stopped? || v.rec.value.status.Errored?))
         || (th.kind.Resume? && th.pc == Entering(Shield) && v.rec.value.status.Stopped?)
         || LostItsSlot(v, th))
  }

  predicate LostItsSlot(v: Slice, th: Thread) {
    th.Op? && th.pc == Renewing(MarkRunning) && v.rec.Some? && v.rec.value.status.Stopped?
  }

  predicate Admits(v: Slice, th: Thread, o: Outcome, full: bool) {
    th.Op? && o.Ok? && v.rec.None? && th.pc == Entering(Insert) && !full
  }

  /** A slot is taken by an admission under the cap, or by a readmission; by nothing else. */
  lemma OpLive(v: Slice, th: Thread, o: Outcome, cid: Cid, full: bool)
    requires Ready(v, th) && !th.pc.Release?
    ensures !IsLive(v) && IsLive(OpStep(v, th, o, cid, full).v) <==> Admits(v, th, o, full) || Readmits(v, th, o)
  {
  }

  // ---------------------------------------------------------------- what one action can do

  /** The thread an action runs, when it runs an operation that is still working. */
  predicate RunsOp(s: State, a: Action) {
    a.Run? && Enabled(s, a) && s.threads[a.t].Op? && !s.threads[a.t].pc.Release?
  }

  function Stepped(s: State, a: Action, cap: nat): Slice
    requires RunsOp(s, a)
  {
    var th := s.threads[a.t];
    OpStep(SliceOf(s, th.id), th, a.o, a.cid, |LiveIds(s.world)| >= cap).v
  }

  /** The container is as it was, or it died, or it vanished. */
  predicate Fades(b: Option<Box>, c: Option<Box>) {
    c == b || (b.Some? && (c.None? || c == Some(b.value.(running := false))))
  }

  /** An event marks a Running record; a completion policy marks a settled one. */
  predicate QuietRecord(r: Option<Record>, r': Option<Record>) {
    || r' == r
    || (r.Some? && r.value.status.Running? && r' == Some(r.value.(status := Errored)))
    || (r.Some? && Settled(r.value.status) && r' == Some(r.value.(status := Stopped)))
  }

  /** Any action but a step of an operation: only a settled status and the running state of containers can change. */
  predicate Quiet(v: Slice, w: Slice) {
    && w.retired == v.retired && w.last == v.last
    && w.res == v.res.(agent := w.res.agent, dind := w.res.dind)
    && Fades(v.res.agent, w.res.agent) && Fades(v.res.dind, w.res.dind)
    && (w.died == v.died || (v.res.agent.Some? && w.died == v.died + {v.res.agent.value.cid}))
    && QuietRecord(v.rec, w.rec)
  }

  lemma OperationReach(s: State, a: Action, cap: nat, id: Id)
    requires RunsOp(s, a)
    ensures SliceOf(Next(s, a, cap), id) == if s.threads[a.t].id == id then Stepped(s, a, cap) else SliceOf(s, id)
  {
  }

  lemma HandlerIsQuiet(v: Slice, th: Thread)
    requires th.Handler? && HandlerOk(th)
    ensures Quiet(v, HandlerWrite(v, th))
  {
  }

  lemma EnvironmentIsQuiet(v: Slice, role: Role)
    ensures Quiet(v, Die1(v, role)) && Quiet(v, Vanish1(v, role))
  {
  }

  lemma CompletionIsQuiet(v: Slice)
    requires v.rec.Some? && Settled(v.rec.value.status)
    ensures Quiet(v, Stopped1(v))
  {
  }

  lemma HandlerReach(s: State, a: Action, cap: nat, id: Id)
    requires Good(s) && a.Run? && Enabled(s, a) && !RunsOp(s, a)
    ensures Quiet(SliceOf(s, id), SliceOf(Next(s, a, cap), id))
  {
    if s.threads[a.t].Handler? { HandlerIsQuiet(SliceOf(s, id), s.threads[a.t]); }
  }

  lemma EnvironmentReach(s: State, a: Action, cap: nat, id: Id)
    requires Enabled(s, a) && (a.Die? || a.Vanish?)
    ensures Quiet(SliceOf(s, id), SliceOf(Next(s, a, cap), id))
  {
    EnvironmentIsQuiet(SliceOf(s, id), a.role);
  }

  lemma QuietReach(s: State, a: Action, cap: nat, id: Id)
    requires Good(s) && Compatible(s, a) && !RunsOp(s, a)
    ensures Quiet(SliceOf(s, id), SliceOf(Next(s, a, cap), id))
  {
    if Enabled(s, a) {
      match a
      case Run(_, _, _) => HandlerReach(s, a, cap, id);
      case Die(_, _) => EnvironmentReach(s, a, cap, id);
      case Vanish(_, _) => EnvironmentReach(s, a, cap, id);
      case Complete(_) => if a.id == id { CompletionIsQuiet(SliceOf(s, id)); }
      case _ => assert SliceOf(Next(s, a, cap), id) == SliceOf(s, id);
    }
  }

  /** An action changes one agent at most: the one its operation holds, or quietly the one its event names. */
  lemma ActionReach(s: State, a: Action, cap: nat, id: Id)
    requires Good(s) && Compatible(s, a)
    ensures var w := SliceOf(Next(s, a, cap), id);
            if RunsOp(s, a) && s.threads[a.t].id == id then w == Stepped(s, a, cap) && Holds(s, a.t, id)
            else QuietAction(a, id, SliceOf(s, id), w)
  {
    if RunsOp(s, a) {
      OperationReach(s, a, cap, id);
    } else {
      QuietReach(s, a, cap, id);
      if !Kills(a, id) { QuietContainers(s, a, cap, id); }
    }
  }

  /** A container of the agent dies or vanishes. */
  predicate Kills(a: Action, id: Id) {
    (a.Die? || a.Vanish?) && a.id == id
  }

  predicate QuietAction(a: Action, id: Id, v: Slice, w: Slice) {
    Quiet(v, w) && (!Kills(a, id) ==> w.res == v.res && w.died == v.died)
  }

  /** Without an operation's step, only a dying or vanishing container changes the daemon. */
  lemma QuietContainers(s: State, a: Action, cap: nat, id: Id)
    requires !RunsOp(s, a) && !Kills(a, id)
    ensures var v, w := SliceOf(s, id), SliceOf(Next(s, a, cap), id); w.res == v.res && w.died == v.died
  {
  }

  function At(acts: seq<Action>, i: nat, cap: nat): State
    requires i <= |acts|
  {
    After(Init, acts[..i], cap)
  }

  lemma AtStep(acts: seq<Action>, i: nat, cap: nat)
    requires i < |acts|
    ensures At(acts, i + 1, cap) == Next(At(acts, i, cap), acts[i], cap)
  {
    assert acts[..i + 1][..i] == acts[..i];
  }

  lemma {:induction false} AtGood(acts: seq<Action>, i: nat, cap: nat)
    requires CompatibleRun(Init, acts, cap) && i <= |acts|
    ensures Good(At(acts, i, cap)) && (i < |acts| ==> Compatible(At(acts, i, cap), acts[i]))
    decreases |acts|
  {
    if i == |acts| {
      assert acts[..i] == acts;
      ReachableGood(acts, cap);
    } else {
      assert acts[..|acts| - 1][..i] == acts[..i];
      AtGood(acts[..|acts| - 1], i, cap);
    }
  }

  // ---------------------------------------------------------------- the event shield

  lemma {:induction false} RetiredForever(acts: seq<Action>, i: nat, j: nat, cap: nat, id: Id)
    requires CompatibleRun(Init, acts, cap) && i <= j <= |acts|
    ensures SliceOf(At(acts, i, cap), id).retired <= SliceOf(At(acts, j, cap), id).retired
    decreases j
  {
    if i < j {
      RetiredForever(acts, i, j - 1, cap, id);
      var s, a := At(acts, j - 1, cap), acts[j - 1];
      AtStep(acts, j - 1, cap);
      AtGood(acts, j - 1, cap);
      ActionReach(s, a, cap, id);
      if RunsOp(s, a) && s.threads[a.t].id == id {
        OpHistory(SliceOf(s, id), s.threads[a.t], a.o, a.cid, |LiveIds(s.world)| >= cap);
      }
    }
  }

  /**
   Once an operation has stopped or removed agent container C, the record is never again
   Running with C.
   */
  lemma RetiredNeverRunning(acts: seq<Action>, i: nat, j: nat, cap: nat, id: Id, c: Cid)
    requires CompatibleRun(Init, acts, cap) && i <= j <= |acts|
    requires c in SliceOf(At(acts, i, cap), id).retired
    ensures var rec := SliceOf(At(acts, j, cap), id).rec;
            rec.Some? && rec.value.status.Running? ==>
              rec.value.cid != c && rec.value.cid != 0 && rec.value.cid == SliceOf(At(acts, j, cap), id).last
  {
    RetiredForever(acts, i, j, cap, id);
    AtGood(acts, j, cap);
  }

  /** So the events of C, delivered at any later time and any number of times, change nothing. */
  lemma EventShield(acts: seq<Action>, i: nat, j: nat, cap: nat, id: Id, c: Cid, t: Tid)
    requires CompatibleRun(Init, acts, cap) && i <= j < |acts|
    requires c in SliceOf(At(acts, i, cap), id).retired
    requires acts[j].Run? && acts[j].t == t && t in At(acts, j, cap).threads
    requires var th := At(acts, j, cap).threads[t]; th.Handler? && th.id == id && th.cid == c
    ensures forall x :: SliceOf(At(acts, j + 1, cap), x) == SliceOf(At(acts, j, cap), x)
  {
    RetiredNeverRunning(acts, i, j, cap, id, c);
    AtStep(acts, j, cap);
    AtGood(acts, j, cap);
  }

  // ---------------------------------------------------------------- unexpected exits are recorded

  /** A die or oom event of the agent's own container starts a handler that will record Errored, a stop event one for Stopped; nothing else starts one. */
  lemma EventStartsHandler(s: State, t: Tid, id: Id, role: Role, cid: Cid, what: DockerEvent, cap: nat)
    requires Enabled(s, Event(t, id, role, cid, what))
    ensures var s' := Next(s, Event(t, id, role, cid, what), cap);
            && s'.world == s.world && s'.refs == s.refs
            && s'.threads == (if role == AgentRole && (what == DieEvent || what == OomEvent) then s.threads[t := Handler(id, cid, Errored, false)]
                              else if role == AgentRole && what == StopEvent then s.threads[t := Handler(id, cid, Stopped, false)]
                              else s.threads)
  {
  }

  /** The event is about the container a Running record names. */
  ghost predicate Concerns(s: State, th: Thread) {
    && th.Handler? && SliceOf(s, th.id).rec.Some?
    && var r := SliceOf(s, th.id).rec.value;
    r.status == Running && (r.cid == th.cid || r.cid == 0 || th.cid == 0)
  }

  /** A handler looks at the record first and goes on exactly when the event concerns it. */
  lemma HandlerLooks(s: State, t: Tid, c: Cid, cap: nat)
    requires Enabled(s, Run(t, Ok, c)) && s.threads[t].Handler? && !s.threads[t].checked
    ensures var s' := Next(s, Run(t, Ok, c), cap);
            && s'.world == s.world
            && s'.threads == if Concerns(s, s.threads[t]) then s.threads[t := s.threads[t].(checked := true)] else s.threads - {t}
  {
  }

  /** It then writes the event's status exactly when the event still concerns the record, and changes nothing else. */
  lemma HandlerRecords(s: State, t: Tid, c: Cid, cap: nat)
    requires Enabled(s, Run(t, Ok, c)) && s.threads[t].Handler? && s.threads[t].checked
    ensures var th, s' := s.threads[t], Next(s, Run(t, Ok, c), cap);
            && s'.threads == s.threads - {t}
            && (forall x | x != th.id :: SliceOf(s', x) == SliceOf(s, x))
            && SliceOf(s', th.id) == (if Concerns(s, th) then SliceOf(s, th.id).(rec := Some(SliceOf(s, th.id).rec.value.(status := th.to)))
                                      else SliceOf(s, th.id))
  {
  }

  // ---------------------------------------------------------------- how operations end

  /** The step after which an operation lets go of its agent. */
  predicate Ends(v: Slice, th: Thread, o: Outcome, full: bool)
    requires th.Op?
  {
    var missing := !o.Ok? || v.rec.None?;
    var completed := th.pc == Renewing(MarkRunning) && o.Ok? && v.rec.Some?;
    var torn := th.pc == Forget || (th.pc == Teardown(8) && (th.errs || !o.Ok? || !CanRemoveVolume(v.res, Cache)));
    match th.kind
    case Create => completed || th.pc == Forget || (th.pc == Entering(Insert) && (!o.Ok? || v.rec.Some? || full))
    case Update =>
      || completed || th.pc == Settling(Fail) || (th.pc == Replacing(Configure) && missing)
      || (th.pc.Entering? && (missing || !(v.rec.value.status in {Running, Stopped, Errored})))
    case Delete => torn || (th.pc.Entering? && missing)
    case Stop =>
      || th.pc == Settling(Fail) || (th.pc == Settling(MarkStopped) && !missing)
      || (th.pc.Entering? && (missing || v.rec.value.status != Running))
    case Resume =>
      || completed || th.pc == Settling(Fail)
      || (th.pc == Entering(Get) && (missing || v.rec.value.status != Stopped))
      || (th.pc == Entering(Shield) && !missing && v.rec.value.status != Stopped)
    case Wake =>
      || completed || th.pc == Settling(Fail)
      || (th.pc == Entering(Shield) && !missing && v.rec.value.status != Running)
      || (th.pc == Replacing(AgentInspect) && o.Ok? && Hits(v.res.agent, th.a.cid) && v.res.agent.value.running)
    case Cleanup => torn || th.pc == Settling(MarkInterrupted)
  }

  /** Every operation ends exactly there: refused at its entry, complete, settled, or torn down. */
  lemma EndsExactly(v: Slice, th: Thread, o: Outcome, cid: Cid, full: bool)
    requires Ready(v, th) && !th.pc.Release?
    ensures OpStep(v, th, o, cid, full).th.pc.Release? <==> Ends(v, th, o, full)
  {
    match th.pc
    case Entering(_) => EntryEnds(v, th, o, full);
    case Sidecar(_) => SidecarGoesOn(v, th, o, cid);
    case _ =>
  }

  lemma EntryEnds(v: Slice, th: Thread, o: Outcome, full: bool)
    requires Ready(v, th) && th.pc.Entering?
    ensures EntryStep(v, th, o, full).th.pc.Release? <==> Ends(v, th, o, full)
  {
  }

  lemma SidecarGoesOn(v: Slice, th: Thread, o: Outcome, cid: Cid)
    requires Ready(v, th) && th.pc.Sidecar?
    ensures !DindStep(v, th, o, cid).th.pc.Release?
  {
  }

  /** The record an operation leaves when it completes, and when it settles after a failure. */
  lemma EndingRecord(v: Slice, th: Thread, o: Outcome, cid: Cid, full: bool)
    requires Ready(v, th) && o.Ok? && v.rec.Some?
    requires th.pc == Renewing(MarkRunning) || th.pc == Settling(Fail) || th.pc == Settling(MarkStopped) || th.pc == Settling(MarkInterrupted)
    ensures var r := v.rec.value;
            OpStep(v, th, o, cid, full).v ==
            v.(rec := Some(if th.pc == Renewing(MarkRunning) then r.(status := Running)
                           else if th.pc == Settling(MarkStopped) then r.(status := Stopped)
                           else if th.kind == Stop || th.pc == Settling(MarkInterrupted) then r.(status := Errored)
                           else r.(status := Errored, cid := 0)))
  {
  }

  // ---------------------------------------------------------------- sidecar recovery

  /** The steps of one operation with the given outcomes; a created container gets `cid`. */
  function Through(v: Slice, th: Thread, outs: seq<Outcome>, cid: Cid): (r: StepResult)
    requires th.Op?
    ensures r.th.Op?
    decreases |outs|
  {
    if outs == [] || th.pc.Release? then StepResult(v, th)
    else
      var r := OpStep(v, th, outs[0], cid, false);
      OpKeepsId(v, th, outs[0], cid, false);
      Through(r.v, r.th, outs[1..], cid)
  }

  lemma ThroughFirst(v: Slice, th: Thread, o: Outcome, outs: seq<Outcome>, cid: Cid)
    requires th.Op? && !th.pc.Release?
    ensures var r := OpStep(v, th, o, cid, false); r.th.Op? && Through(v, th, [o] + outs, cid) == Through(r.v, r.th, outs, cid)
  {
    OpKeepsId(v, th, o, cid, false);
    assert ([o] + outs)[1..] == outs;
  }

  /** Update goes on to replace the agent container, a wake to look at it, a resume to resolve the backend. */
  function PastSidecar(kind: Kind): Pc {
    match kind
    case Update => Replacing(OldStop)
    case Wake => Replacing(AgentInspect)
    case _ => Building(Resolve)
  }

  /** The sidecar with this ID runs; it is stored, and the agent and its storage are as they were. */
  function NewSidecar(v: Slice, cid: Cid): Slice
    requires v.rec.Some?
  {
    v.(rec := Some(v.rec.value.(dind := cid)), res := v.res.(dind := Some(Box(cid, true))))
  }

  /** A new sidecar is created, stored, started and awaited. */
  lemma SidecarMade(v: Slice, th: Thread, cid: Cid)
    requires th.Op? && th.kind in {Update, Wake, Resume} && th.pc == Sidecar(DindCreate) && cid != 0
    requires v.rec.Some? && Furnished(v.res) && v.res.dind.None?
    ensures var r := Through(v, th, [Ok, Ok, Ok, Ok], cid);
            r.v == NewSidecar(v, cid) && r.th.a == th.a && r.th.pc == PastSidecar(th.kind)
  {
    var v1, th1 := v.(res := v.res.(dind := Some(Box(cid, false)))), th.(made := cid, pc := Sidecar(DindStamp));
    assert v1.res == CreateBox(v.res, DindRole, cid);
    var v2, th2 := v1.(rec := Some(v.rec.value.(dind := cid))), th1.(pc := Sidecar(DindBoot));
    ThroughFirst(v, th, Ok, [Ok, Ok, Ok], cid);
    ThroughFirst(v1, th1, Ok, [Ok, Ok], cid);
    ThroughFirst(v2, th2, Ok, [Ok], cid);
    ThroughFirst(NewSidecar(v, cid), th2.(pc := Sidecar(DindSettle)), Ok, [], cid);
    assert [Ok] + [Ok, Ok, Ok] == [Ok, Ok, Ok, Ok];
  }

  /** The old sidecar is removed first. */
  lemma SidecarReplaced(v: Slice, th: Thread, cid: Cid)
    requires th.Op? && th.kind in {Update, Wake, Resume} && th.pc == Sidecar(DindStop) && cid != 0
    requires v.rec.Some? && Furnished(v.res) && Hits(v.res.dind, th.a.dind)
    ensures var r := Through(v, th, [Ok, Ok, Ok, Ok, Ok, Ok], cid);
            r.v == NewSidecar(v, cid) && r.th.a == th.a && r.th.pc == PastSidecar(th.kind)
  {
    var v1, th1 := StopDindBox(v, th.a.dind, Ok), th.(pc := Sidecar(DindRemove), errs := false);
    var v2, th2 := v.(res := v.res.(dind := None)), th1.(pc := Sidecar(DindCreate));
    assert v2 == RemoveDindBox(v1, th.a.dind, Ok);
    ThroughFirst(v, th, Ok, [Ok, Ok, Ok, Ok, Ok], cid);
    ThroughFirst(v1, th1, Ok, [Ok, Ok, Ok, Ok], cid);
    assert [Ok] + [Ok, Ok, Ok, Ok] == [Ok, Ok, Ok, Ok, Ok] && [Ok] + [Ok, Ok, Ok, Ok, Ok] == [Ok, Ok, Ok, Ok, Ok, Ok];
    SidecarMade(v2, th2, cid);
  }

  /** A sidecar that is unhealthy at first sight, or does not become healthy in time, is replaced by a new one. */
  lemma UnhealthySidecarIsReplaced(v: Slice, th: Thread, cid: Cid)
    requires th.Op? && th.kind in {Update, Wake, Resume} && cid != 0
    requires v.rec.Some? && Furnished(v.res) && Hits(v.res.dind, th.a.dind)
    requires th.pc == Sidecar(DindWait) || (th.pc == Sidecar(DindInspect) && v.res.dind.value.running)
    ensures var r := Through(v, th, [Lost, Ok, Ok, Ok, Ok, Ok, Ok], cid);
            r.v == NewSidecar(v, cid) && r.th.a == th.a && r.th.pc == PastSidecar(th.kind)
  {
    ThroughFirst(v, th, Lost, [Ok, Ok, Ok, Ok, Ok, Ok], cid);
    assert [Lost] + [Ok, Ok, Ok, Ok, Ok, Ok] == [Lost, Ok, Ok, Ok, Ok, Ok, Ok];
    SidecarReplaced(v, th.(pc := Sidecar(DindStop)), cid);
  }

  /** n exits, each followed by another start, and then a healthy sidecar. */
  function Exits(n: nat): seq<Outcome> {
    if n == 0 then [Ok] else [Refused] + ([Ok] + Exits(n - 1))
  }

  /** A sidecar that exits while it is awaited is started again, and the operation goes on once it is healthy. */
  lemma {:induction false} ExitedSidecarIsStartedAgain(v: Slice, th: Thread, n: nat, cid: Cid)
    requires th.Op? && th.kind in {Update, Wake, Resume} && th.pc == Sidecar(DindWait) && Hits(v.res.dind, th.a.dind)
    ensures var r := Through(v, th, Exits(n), cid);
            && r.v == (if n == 0 then v else v.(res := v.res.(dind := Some(v.res.dind.value.(running := true)))))
            && r.th.a == th.a && r.th.pc == PastSidecar(th.kind)
    decreases n
  {
    if n == 0 {
      assert Exits(0) == [Ok] + [];
      ThroughFirst(v, th, Ok, [], cid);
    } else {
      var up := v.(res := v.res.(dind := Some(v.res.dind.value.(running := true))));
      assert StartBox(v.res, DindRole, th.a.dind) == up.res;
      ThroughFirst(v, th, Refused, [Ok] + Exits(n - 1), cid);
      ThroughFirst(v, th.(pc := Sidecar(DindStart)), Ok, Exits(n - 1), cid);
      ExitedSidecarIsStartedAgain(up, th, n - 1, cid);
    }
  }

  // ---------------------------------------------------------------- deletion

  /** Leaving Creating or Deleting: the record goes, or it is marked Deleting, or its own Create completes it. */
  lemma StepDoomed(s: State, a: Action, cap: nat, id: Id)
    requires Good(s) && Compatible(s, a)
    requires var rec := SliceOf(s, id).rec; rec.Some? && !Settled(rec.value.status)
    ensures var rec, rec' := SliceOf(s, id).rec, SliceOf(Next(s, a, cap), id).rec;
            && (rec'.Some? && Settled(rec'.value.status) ==> RunsOp(s, a) && Holds(s, a.t, id) && Completes(s.threads[a.t]))
            && (rec.value.status.Deleting? && rec'.Some? ==> rec'.value.status.Deleting?)
  {
    ActionReach(s, a, cap, id);
    if RunsOp(s, a) && s.threads[a.t].id == id {
      OpStatus(SliceOf(s, id), s.threads[a.t], a.o, a.cid, |LiveIds(s.world)| >= cap);
    }
  }

  ghost predicate IsDeleting(s: State, id: Id) {
    SliceOf(s, id).rec.Some? && SliceOf(s, id).rec.value.status.Deleting?
  }

  lemma StepDeleting(s: State, a: Action, cap: nat, id: Id)
    requires Good(s) && Compatible(s, a) && IsDeleting(s, id)
    ensures var s' := Next(s, a, cap); SliceOf(s', id).rec.None? || IsDeleting(s', id)
  {
    StepDoomed(s, a, cap, id);
  }

  lemma DeletingAt(acts: seq<Action>, k: nat, cap: nat, id: Id)
    requires CompatibleRun(Init, acts, cap) && k < |acts| && IsDeleting(At(acts, k, cap), id)
    ensures SliceOf(At(acts, k + 1, cap), id).rec.None? || IsDeleting(At(acts, k + 1, cap), id)
  {
    AtStep(acts, k, cap);
    AtGood(acts, k, cap);
    StepDeleting(At(acts, k, cap), acts[k], cap, id);
  }

  /** The record exists in every state from the i-th to the j-th. */
  ghost predicate Present(acts: seq<Action>, i: nat, j: nat, cap: nat, id: Id)
    requires j <= |acts|
  {
    forall k: nat | i <= k <= j :: SliceOf(At(acts, k, cap), id).rec.Some?
  }

  /** A Deleting record stays Deleting until it is removed. */
  lemma {:induction false} DeletingAbsorbs(acts: seq<Action>, i: nat, j: nat, cap: nat, id: Id)
    requires CompatibleRun(Init, acts, cap) && i <= j <= |acts|
    requires IsDeleting(At(acts, i, cap), id) && Present(acts, i, j, cap, id)
    ensures IsDeleting(At(acts, j, cap), id)
    decreases j
  {
    if i < j {
      DeletingAbsorbs(acts, i, j - 1, cap, id);
      DeletingAt(acts, j - 1, cap, id);
    }
  }

  /** A half-built or half-removed agent becomes usable only through the last step of its own Create. */
  lemma OnlyCreateCompletes(acts: seq<Action>, i: nat, cap: nat, id: Id)
    requires CompatibleRun(Init, acts, cap) && i < |acts|
    requires var rec := SliceOf(At(acts, i, cap), id).rec; rec.Some? && !Settled(rec.value.status)
    requires var rec := SliceOf(At(acts, i + 1, cap), id).rec; rec.Some? && Settled(rec.value.status)
    ensures acts[i].Run? && Holds(At(acts, i, cap), acts[i].t, id) && Completes(At(acts, i, cap).threads[acts[i].t])
  {
    AtStep(acts, i, cap);
    AtGood(acts, i, cap);
    StepDoomed(At(acts, i, cap), acts[i], cap, id);
  }

  // ---------------------------------------------------------------- no data loss

  /** Every agent that is not being created or deleted has its network and all three volumes. */
  lemma SettledAgentsKeepTheirData(acts: seq<Action>, i: nat, cap: nat, id: Id)
    requires CompatibleRun(Init, acts, cap) && i <= |acts|
    requires var rec := SliceOf(At(acts, i, cap), id).rec; rec.Some? && Settled(rec.value.status)
    ensures AllVolumes(SliceOf(At(acts, i, cap), id).res) && SliceOf(At(acts, i, cap), id).res.net
  {
    AtGood(acts, i, cap);
  }

  /**
   A volume is removed only inside teardown, by the holder of the ID, while the record is Creating or
   Deleting -- or already gone, when a reconcile pass comes back to leftovers of a record it had listed.
   */
  lemma VolumesGoOnlyInTeardown(acts: seq<Action>, i: nat, cap: nat, id: Id, vol: Volume)
    requires CompatibleRun(Init, acts, cap) && i < |acts|
    requires HasVolume(SliceOf(At(acts, i, cap), id).res, vol)
    requires !HasVolume(SliceOf(At(acts, i + 1, cap), id).res, vol)
    ensures var s := At(acts, i, cap);
            && acts[i].Run? && Holds(s, acts[i].t, id) && Busy(s, id)
            && s.threads[acts[i].t].pc.Teardown?
            && (SliceOf(s, id).rec.Some? ==> !Settled(SliceOf(s, id).rec.value.status))
  {
    var s, a := At(acts, i, cap), acts[i];
    AtStep(acts, i, cap);
    AtGood(acts, i, cap);
    ActionReach(s, a, cap, id);
    if RunsOp(s, a) && s.threads[a.t].id == id {
      OpVolumes(SliceOf(s, id), s.threads[a.t], a.o, a.cid, |LiveIds(s.world)| >= cap, vol);
    }
  }

  /** The operations that recreate or stop containers; a wake counts as long as its record is there. */
  predicate Recreates(s: State, a: Action) {
    && RunsOp(s, a)
    && var th := s.threads[a.t];
    th.kind.Update? || th.kind.Stop? || th.kind.Resume? || (th.kind.Wake? && SliceOf(s, th.id).rec.Some?)
  }

  /** Update, StopAgent, ResumeAgent and wake keep every volume and the network, on every path. */
  lemma RecreatePreservesStorage(acts: seq<Action>, i: nat, cap: nat)
    requires CompatibleRun(Init, acts, cap) && i < |acts| && Recreates(At(acts, i, cap), acts[i])
    ensures forall id :: SameStorage(SliceOf(At(acts, i, cap), id).res, SliceOf(At(acts, i + 1, cap), id).res)
  {
    AtStep(acts, i, cap);
    AtGood(acts, i, cap);
    forall id { StepKeepsStorage(At(acts, i, cap), acts[i], cap, id); }
  }

  lemma StepKeepsStorage(s: State, a: Action, cap: nat, id: Id)
    requires Good(s) && Compatible(s, a) && Recreates(s, a)
    ensures SameStorage(SliceOf(s, id).res, SliceOf(Next(s, a, cap), id).res)
  {
    ActionReach(s, a, cap, id);
    var th := s.threads[a.t];
    RecreateKeepsStorage(SliceOf(s, th.id), th, a.o, a.cid, |LiveIds(s.world)| >= cap);
  }

  predicate SameBox(b: Option<Box>, c: Option<Box>) {
    b.Some? == c.Some? && (b.Some? ==> b.value.cid == c.value.cid)
  }

  /** StopAgent never removes a container and never forgets an ID, whatever fails. */
  lemma StopKeepsContainers(v: Slice, th: Thread, o: Outcome, cid: Cid, full: bool)
    requires Ready(v, th) && !th.pc.Release? && th.kind.Stop?
    ensures var w := OpStep(v, th, o, cid, full).v;
            && SameBox(v.res.agent, w.res.agent) && SameBox(v.res.dind, w.res.dind)
            && v.rec.Some? == w.rec.Some?
            && (v.rec.Some? ==> w.rec.value.cid == v.rec.value.cid && w.rec.value.dind == v.rec.value.dind)
  {
    match th.pc
    case Settling(x) =>
      if x.HaltAgent? { assert SameBox(v.res.agent, StopAgentBox(v, th.a.cid, o).res.agent); }
    case _ =>
  }

  // ---------------------------------------------------------------- how a failed Update ends

  /**
   An Update that ends without settling its record: exactly when the write of the new configuration
   fails, after which the caller's record is empty and nothing can be settled, or the settling write does.
   */
  lemma UpdateEndsUpdatingExactly(v: Slice, th: Thread, o: Outcome, cid: Cid, full: bool)
    requires Ready(v, th) && th.kind.Update? && !th.pc.Entering? && !th.pc.Release?
    requires v.rec.Some? && v.rec.value.status.Updating? && OpStep(v, th, o, cid, full).th.pc.Release?
    ensures var w := OpStep(v, th, o, cid, full).v;
            && w.rec.Some?
            && (w.rec.value.status.Updating? <==> !o.Ok? && (th.pc == Replacing(Configure) || th.pc == Settling(Fail)))
            && (!w.rec.value.status.Updating? ==>
                w.rec.value == if th.pc.Renewing? then v.rec.value.(status := Running) else v.rec.value.(status := Errored, cid := 0))
  {
  }

  // ---------------------------------------------------------------- exclusive ownership

  ghost function Holders(s: State, id: Id): set<Tid> {
    set t | t in s.threads && Holds(s, t, id)
  }

  function RefCount(s: State, id: Id): nat {
    if id in s.refs then s.refs[id] else 0
  }

  /** The registry counts the holders, keeps no zero entry, and nobody shares an agent. */
  lemma RegistryCountsHolders(acts: seq<Action>, i: nat, cap: nat, id: Id)
    requires CompatibleRun(Init, acts, cap) && i <= |acts|
    ensures var s := At(acts, i, cap);
            RefCount(s, id) == |Holders(s, id)| <= 1 && (id in s.refs ==> s.refs[id] > 0)
  {
    AtGood(acts, i, cap);
    var s := At(acts, i, cap);
    if t: Tid :| Holds(s, t, id) {
      assert Holders(s, id) == {t};
    } else {
      assert Holders(s, id) == {};
    }
  }

  /** While one operation holds an agent, nothing else but an event, a completion policy or a dying container touches that agent. */
  lemma HolderWorksAlone(acts: seq<Action>, i: nat, cap: nat, t: Tid, id: Id)
    requires CompatibleRun(Init, acts, cap) && i < |acts| && Holds(At(acts, i, cap), t, id)
    requires !acts[i].Crash? && !(acts[i].Run? && acts[i].t == t)
    ensures Holds(At(acts, i + 1, cap), t, id)
    ensures At(acts, i + 1, cap).threads[t] == At(acts, i, cap).threads[t]
    ensures QuietAction(acts[i], id, SliceOf(At(acts, i, cap), id), SliceOf(At(acts, i + 1, cap), id))
    ensures acts[i].Claim? && acts[i].id == id ==> At(acts, i + 1, cap) == At(acts, i, cap)
  {
    AtStep(acts, i, cap);
    AtGood(acts, i, cap);
    StepAlone(At(acts, i, cap), acts[i], cap, t, id);
  }

  lemma StepAlone(s: State, a: Action, cap: nat, t: Tid, id: Id)
    requires Good(s) && Compatible(s, a) && Holds(s, t, id) && !a.Crash? && !(a.Run? && a.t == t)
    ensures var s' := Next(s, a, cap);
            && Holds(s', t, id) && s'.threads[t] == s.threads[t]
            && QuietAction(a, id, SliceOf(s, id), SliceOf(s', id))
            && (a.Claim? && a.id == id ==> s' == s)
  {
    ActionReach(s, a, cap, id);
  }

  // ---------------------------------------------------------------- the MAX_AGENTS cap

  ghost predicate ReadmitsAction(s: State, a: Action) {
    RunsOp(s, a) && Readmits(SliceOf(s, s.threads[a.t].id), s.threads[a.t], a.o)
  }

  lemma LiveIdsUpdate(world: map<Id, Slice>, id: Id, w: Slice)
    ensures LiveIds(world[id := w]) == if IsLive(w) then LiveIds(world) + {id} else LiveIds(world) - {id}
  {
  }

  /** The number of agents that hold a slot grows by one at most, and only by an admission or a readmission. */
  lemma LiveStep(s: State, a: Action, cap: nat)
    requires Good(s) && Compatible(s, a)
    ensures var before, after := |LiveIds(s.world)|, |LiveIds(Next(s, a, cap).world)|;
            && after <= before + 1
            && (ReadmitsAction(s, a) ==> after == before + 1)
            && (after == before + 1 ==> ReadmitsAction(s, a) || before < cap)
  {
    if RunsOp(s, a) { LiveOp(s, a, cap); } else { LiveQuiet(s, a, cap); }
  }

  lemma LiveOp(s: State, a: Action, cap: nat)
    requires Good(s) && RunsOp(s, a)
    ensures var before, after := |LiveIds(s.world)|, |LiveIds(Next(s, a, cap).world)|;
            && after <= before + 1
            && (ReadmitsAction(s, a) ==> after == before + 1)
            && (after == before + 1 ==> ReadmitsAction(s, a) || before < cap)
  {
    var th := s.threads[a.t];
    var v, w := SliceOf(s, th.id), Stepped(s, a, cap);
    OpLive(v, th, a.o, a.cid, |LiveIds(s.world)| >= cap);
    LiveCount(s.world, th.id, v, w);
  }

  lemma LiveCount(world: map<Id, Slice>, id: Id, v: Slice, w: Slice)
    requires v == if id in world then world[id] else NewSlice
    ensures var before, after := |LiveIds(world)|, |LiveIds(world[id := w])|;
            && after <= before + 1 && (after == before + 1 <==> !IsLive(v) && IsLive(w))
  {
    LiveIdsUpdate(world, id, w);
    assert id in LiveIds(world) <==> IsLive(v);
  }

  lemma LiveQuiet(s: State, a: Action, cap: nat)
    requires Good(s) && Compatible(s, a) && !RunsOp(s, a)
    ensures |LiveIds(Next(s, a, cap).world)| <= |LiveIds(s.world)|
  {
    var s' := Next(s, a, cap);
    forall id | id in LiveIds(s'.world) ensures id in LiveIds(s.world) { QuietReach(s, a, cap, id); }
    SubsetSize(LiveIds(s'.world), LiveIds(s.world));
  }

  lemma SubsetSize(x: set<Id>, y: set<Id>)
    requires x <= y
    ensures |x| <= |y|
  {
    assert y == x + (y - x);
  }

  /** How many agents hold a slot after i actions. */
  function Live(acts: seq<Action>, i: nat, cap: nat): nat
    requires i <= |acts|
  {
    |LiveIds(At(acts, i, cap).world)|
  }

  /** Action k gives a slot to a record that holds none although every slot is taken. */
  ghost predicate OverAdmits(acts: seq<Action>, k: nat, cap: nat)
    requires k < |acts|
  {
    ReadmitsAction(At(acts, k, cap), acts[k]) && Live(acts, k, cap) >= cap
  }

  lemma LiveAt(acts: seq<Action>, k: nat, cap: nat)
    requires CompatibleRun(Init, acts, cap) && k < |acts|
    ensures Live(acts, k + 1, cap) <= Live(acts, k, cap) + 1
    ensures Live(acts, k, cap) <= cap ==> (Live(acts, k + 1, cap) <= cap <==> !OverAdmits(acts, k, cap))
  {
    AtStep(acts, k, cap);
    AtGood(acts, k, cap);
    LiveStep(At(acts, k, cap), acts[k], cap);
  }

  /** A count that leaves its bound only at marked steps stays bounded exactly when no step is marked. */
  lemma {:induction false} BoundedUnlessMarked(live: seq<nat>, over: seq<bool>, cap: nat)
    requires |live| == |over| + 1 && live[0] <= cap
    requires forall k | 0 <= k < |over| :: live[k] <= cap ==> (live[k + 1] <= cap <==> !over[k])
    ensures (forall i | 0 <= i < |live| :: live[i] <= cap) <==> (forall k | 0 <= k < |over| :: !over[k])
    decreases |over|
  {
    var n := |over|;
    if n > 0 {
      BoundedUnlessMarked(live[..n], over[..n - 1], cap);
      assert live[n - 1] <= cap ==> (live[n] <= cap <==> !over[n - 1]);
      assert forall i | 0 <= i < n :: live[..n][i] == live[i];
      var prior := over[..n - 1];
      assert forall k | 0 <= k < n - 1 :: prior[k] == over[k];
    }
  }

  /**
   The cap holds in every state of a run exactly when the run never, while every slot is taken, takes a stopped
   or failed agent back with Update or ResumeAgent, or completes an operation whose record a completion policy
   has marked Stopped meanwhile.
   */
  lemma CapHoldsExactlyWithoutOverAdmission(acts: seq<Action>, cap: nat)
    requires CompatibleRun(Init, acts, cap)
    ensures (forall i: nat | i <= |acts| :: Live(acts, i, cap) <= cap)
       <==> (forall k: nat | k < |acts| :: !OverAdmits(acts, k, cap))
  {
    var live: seq<nat> := seq(|acts| + 1, i requires 0 <= i <= |acts| => Live(acts, i, cap));
    var over: seq<bool> := seq(|acts|, k requires 0 <= k < |acts| => OverAdmits(acts, k, cap));
    assert LiveIds(At(acts, 0, cap).world) == {};
    forall k | 0 <= k < |over| ensures live[k] <= cap ==> (live[k + 1] <= cap <==> !over[k]) {
      LiveAt(acts, k, cap);
    }
    BoundedUnlessMarked(live, over, cap);
    assert forall i: nat | i <= |acts| :: live[i] == Live(acts, i, cap);
    assert forall k: nat | k < |acts| :: over[k] == OverAdmits(acts, k, cap);
  }
}
