/**
 The agent lifecycle protocol as a step system.

 A state holds, for every agent ID, its store record and its Docker resources; the
 process-local in-flight registry; and the operations and event handlers that are
 running.  Each store transaction, each Docker call and each registry call is one step,
 so every interleaving of operations is a sequence of actions.  A Docker call may be
 refused without effect, or take effect and still report an error.
 */
module Lifecycle {
  import opened Agents

  /** What the step system keeps about one agent ID.  The last three fields are history. */
  datatype Slice = Slice(
    rec: Option<Record>,      // the store record
    res: Resources,           // the daemon's resources
    last: Cid,                // the last agent container created
    retired: set<Cid>,        // agent containers some operation has stopped or removed
    died: set<Cid>)           // agent containers that have left the running state: events exist for them

  const NewSlice := Slice(None, NoResources, 0, {}, {})

  datatype Kind = Create | Update | Delete | Stop | Resume | Wake | Cleanup

  // Where an operation is.  Each constructor is the call it makes next.

  /** Entry of an operation: the first reads and the guarded status writes. */
  datatype EntryPc = Insert | Get | Mark | Shield

  /** Create's own steps, and the preparations that change neither record nor resources. */
  datatype BuildPc = Prep | MakeVolume(v: Volume) | MakeNet | Connect | Image | Resolve

  /** The sidecar: ensureDindRunning, recreateDind and startDind. */
  datatype DindPc =
    | DindInspect | DindStart | DindWait | DindStop | DindRemove
    | DindCreate | DindStamp | DindBoot | DindSettle

  /** Removing the old agent container. */
  datatype OldPc = AgentInspect | OldStop | OldRemove | Configure

  /** Starting a new agent container. */
  datatype NewPc = AgentCreate | AgentStamp | AgentStart | Tmux | MarkRunning

  /** StopAgent's calls, and the writes that settle a record. */
  datatype SettlePc = HaltAgent | HaltDind | MarkStopped | Fail | MarkInterrupted

  datatype Pc =
    | Entering(e: EntryPc)
    | Building(b: BuildPc)
    | Sidecar(d: DindPc)
    | Replacing(r: OldPc)
    | Renewing(n: NewPc)
    | Settling(x: SettlePc)
    | Teardown(k: nat)     // teardown's k-th call
    | Forget               // remove the record
    | Release

  datatype Thread =
    | Op(kind: Kind, id: Id, pc: Pc, a: Record, made: Cid, errs: bool)
    | Handler(id: Id, cid: Cid, to: Status, checked: bool)

  /** How a call ends.  `Lost` took effect but reported an error. */
  datatype Outcome = Ok | Refused | Lost | Cancelled

  predicate Happens(o: Outcome) { o.Ok? || o.Lost? }

  datatype StepResult = StepResult(v: Slice, th: Thread)

  // ---------------------------------------------------------------- one step of an operation

  function At(th: Thread, pc: Pc): Thread
    requires th.Op?
  {
    th.(pc := pc)
  }

  /** A failed step of Create rolls back; every other operation settles the record. */
  function OnFail(th: Thread): Thread
    requires th.Op?
  {
    if th.kind.Create? then th.(pc := Teardown(0), errs := false) else At(th, Settling(Fail))
  }

  function OkOrFail(th: Thread, o: Outcome, pc: Pc): Thread
    requires th.Op?
  {
    if o.Ok? then At(th, pc) else OnFail(th)
  }

  /** Where each caller of the sidecar code goes once the sidecar is up. */
  function AfterDind(th: Thread): Thread
    requires th.Op?
  {
    At(th, match th.kind
           case Create => Building(Connect)
           case Update => Replacing(OldStop)
           case Wake => Replacing(AgentInspect)
           case _ => Building(Resolve))
  }

  function WithRecord(v: Slice, r: Record): Slice {
    v.(rec := Some(r))
  }

  /** The agent containers a stop or remove through `ref` is aimed at. */
  function Targets(v: Slice, ref: Cid): set<Cid> {
    (if ref != 0 then {ref} else {}) +
    (if Hits(v.res.agent, ref) then {v.res.agent.value.cid} else {})
  }

  function Killed(v: Slice, ref: Cid): set<Cid> {
    if Hits(v.res.agent, ref) then {v.res.agent.value.cid} else {}
  }

  /** An operation stops (or force-removes) the agent container. */
  function StopAgentBox(v: Slice, ref: Cid, o: Outcome): Slice {
    var w := v.(retired := v.retired + Targets(v, ref));
    if Happens(o) then w.(res := StopBox(v.res, AgentRole, ref), died := v.died + Killed(v, ref)) else w
  }

  function RemoveAgentBox(v: Slice, ref: Cid, o: Outcome): Slice {
    var w := v.(retired := v.retired + Targets(v, ref));
    if Happens(o) then w.(res := RemoveBox(v.res, AgentRole, ref), died := v.died + Killed(v, ref)) else w
  }

  function StopDindBox(v: Slice, ref: Cid, o: Outcome): Slice {
    if Happens(o) then v.(res := StopBox(v.res, DindRole, ref)) else v
  }

  function RemoveDindBox(v: Slice, ref: Cid, o: Outcome): Slice {
    if Happens(o) then v.(res := RemoveBox(v.res, DindRole, ref)) else v
  }

  function NextVolume(v: Volume): Pc {
    match v
    case Workspace => Building(MakeVolume(Config))
    case Config => Building(MakeVolume(Cache))
    case Cache => Building(MakeNet)
  }

  function VolumeAt(i: int): Volume {
    if i == 0 then Workspace else if i == 1 then Config else Cache
  }

  /** Reading the record, and the first guarded status write. */
  function EntryStep(v: Slice, th: Thread, o: Outcome, full: bool): StepResult
    requires th.Op? && th.pc.Entering?
  {
    var bad := !o.Ok? || v.rec.None?;
    match th.pc.e
    case Insert =>
      if !o.Ok? || v.rec.Some? || full then StepResult(v, At(th, Release))
      else
        var r := Record(Creating, 0, 0);
        StepResult(WithRecord(v, r), th.(pc := Building(Prep), a := r))
    case Get =>
      if bad then StepResult(v, At(th, Release))
      else
        var r := v.rec.value;
        var pc := match th.kind
                  case Update => if Updatable(r.status) then Entering(Mark) else Release
                  case Delete => if r.status.Deleting? then Teardown(0) else Entering(Mark)
                  case Stop => if r.status.Running? then Entering(Shield) else Release
                  case Resume => if r.status.Stopped? then Sidecar(DindInspect) else Release
                  case _ => Release;
        StepResult(v, th.(pc := pc, a := r))
    case Mark =>
      if bad then StepResult(v, At(th, Release))
      else
        var r := v.rec.value;
        if th.kind.Delete? then
          var r' := r.(status := Deleting);
          StepResult(WithRecord(v, r'), th.(pc := Teardown(0), a := r'))
        else if Updatable(r.status) then
          var r' := r.(status := Updating);
          StepResult(WithRecord(v, r'), th.(pc := Building(Image), a := r'))
        else StepResult(v, At(th, Release))
    case Shield =>
      var from := if th.kind.Resume? then Stopped else Running;
      if bad then StepResult(v, At(th, if th.kind.Stop? then Release else Settling(Fail)))
      else if v.rec.value.status != from then StepResult(v, At(th, Release))
      else StepResult(WithRecord(v, v.rec.value.(status := Updating)),
                      At(th, if th.kind.Stop? then Settling(HaltAgent) else Replacing(OldStop)))
  }

  /** Create's volumes and network, and steps that can fail but change nothing modelled here. */
  function BuildStep(v: Slice, th: Thread, o: Outcome): StepResult
    requires th.Op? && th.pc.Building?
  {
    match th.pc.b
    case Prep => StepResult(v, OkOrFail(th, o, Building(MakeVolume(Workspace))))
    case MakeVolume(vol) =>
      StepResult(if Happens(o) then v.(res := SetVolume(v.res, vol, true)) else v,
                 OkOrFail(th, o, NextVolume(vol)))
    case MakeNet =>
      if v.res.net then StepResult(v, OnFail(th))
      else StepResult(if Happens(o) then v.(res := v.res.(net := true)) else v,
                      OkOrFail(th, o, Sidecar(DindCreate)))
    case Connect =>
      if !v.res.net then StepResult(v, OnFail(th))
      else StepResult(if Happens(o) then v.(res := v.res.(proxied := true)) else v,
                      OkOrFail(th, o, Renewing(AgentCreate)))
    case Image => StepResult(v, OkOrFail(th, o, Sidecar(DindInspect)))
    case Resolve => StepResult(v, OkOrFail(th, o, Entering(Shield)))
  }

  /** ensureDindRunning, recreateDind and startDind. */
  function DindStep(v: Slice, th: Thread, o: Outcome, cid: Cid): StepResult
    requires th.Op? && th.pc.Sidecar?
  {
    match th.pc.d
    case DindInspect =>
      if !Hits(v.res.dind, th.a.dind) || o.Refused? || o.Cancelled? then StepResult(v, OnFail(th))
      else if !v.res.dind.value.running then StepResult(v, At(th, Sidecar(DindStart)))
      else if o.Ok? then StepResult(v, AfterDind(th))
      else StepResult(v, At(th, Sidecar(DindStop)))                     // running but unhealthy
    case DindStart =>
      if !Hits(v.res.dind, th.a.dind) then StepResult(v, OnFail(th))
      else StepResult(if Happens(o) then v.(res := StartBox(v.res, DindRole, th.a.dind)) else v,
                      OkOrFail(th, o, Sidecar(DindWait)))
    case DindWait =>
      StepResult(v, match o
                    case Ok => AfterDind(th)
                    case Refused => At(th, Sidecar(DindStart))          // it exited: another attempt
                    case Lost => At(th, Sidecar(DindStop))              // recreate it
                    case Cancelled => OnFail(th))
    case DindStop =>
      StepResult(StopDindBox(v, th.a.dind, o), th.(pc := Sidecar(DindRemove), errs := !o.Ok?))
    case DindRemove =>
      StepResult(RemoveDindBox(v, th.a.dind, o),
                 if th.errs then OnFail(th) else OkOrFail(th, o, Sidecar(DindCreate)))
    case DindCreate =>
      if !CanCreateBox(v.res, DindRole) || !Happens(o) then StepResult(v, OnFail(th))
      else StepResult(v.(res := CreateBox(v.res, DindRole, cid)),
                      OkOrFail(th.(made := cid), o, Sidecar(DindStamp)))
    case DindStamp =>
      if !o.Ok? || v.rec.None? then StepResult(v, OnFail(th))
      else
        var r := v.rec.value.(dind := th.made);
        // ensureDindRunning works on its own copy of the record; Create on the caller's.
        StepResult(WithRecord(v, r), th.(pc := Sidecar(DindBoot), a := if th.kind.Create? then r else th.a))
    case DindBoot =>
      if !Hits(v.res.dind, th.made) then StepResult(v, OnFail(th))
      else StepResult(if Happens(o) then v.(res := StartBox(v.res, DindRole, th.made)) else v,
                      OkOrFail(th, o, Sidecar(DindSettle)))
    case DindSettle =>
      StepResult(v, if o.Ok? then AfterDind(th) else OnFail(th))
  }

  /** wakeAgent's look at the agent container, removeAgentContainer, and Update's new configuration. */
  function OldStep(v: Slice, th: Thread, o: Outcome): StepResult
    requires th.Op? && th.pc.Replacing?
  {
    match th.pc.r
    case AgentInspect =>
      if !Hits(v.res.agent, th.a.cid) || !o.Ok? then StepResult(v, At(th, Settling(Fail)))
      else StepResult(v, At(th, if v.res.agent.value.running then Release else Building(Resolve)))
    case OldStop =>
      StepResult(StopAgentBox(v, th.a.cid, o), th.(pc := Replacing(OldRemove), errs := !o.Ok?))
    case OldRemove =>
      StepResult(RemoveAgentBox(v, th.a.cid, o),
                 At(th, if th.errs || !o.Ok? then Settling(Fail)
                        else if th.kind.Update? then Replacing(Configure) else Renewing(AgentCreate)))
    case Configure =>
      // A failed write leaves the caller with an empty record: failUpdate then finds nothing to settle.
      if !o.Ok? || v.rec.None? then StepResult(v, At(th, Release))
      else
        var r := v.rec.value.(cid := 0);
        StepResult(WithRecord(v, r), th.(pc := Renewing(AgentCreate), a := r))
  }

  /** startAgentContainer, waitTmuxSession and markRunning. */
  function NewStep(v: Slice, th: Thread, o: Outcome, cid: Cid): StepResult
    requires th.Op? && th.pc.Renewing?
  {
    match th.pc.n
    case AgentCreate =>
      if !CanCreateBox(v.res, AgentRole) || !Happens(o) then StepResult(v, OnFail(th))
      else StepResult(v.(res := CreateBox(v.res, AgentRole, cid), last := cid),
                      OkOrFail(th.(made := cid), o, Renewing(AgentStamp)))
    case AgentStamp =>
      if !o.Ok? || v.rec.None? then StepResult(v, OnFail(th))
      else
        var r := v.rec.value.(cid := th.made);
        StepResult(WithRecord(v, r), th.(pc := Renewing(AgentStart), a := r))
    case AgentStart =>
      if !Hits(v.res.agent, th.made) then StepResult(v, OnFail(th))
      else StepResult(if Happens(o) then v.(res := StartBox(v.res, AgentRole, th.made)) else v,
                      OkOrFail(th, o, Renewing(Tmux)))
    case Tmux => StepResult(v, OkOrFail(th, o, Renewing(MarkRunning)))
    case MarkRunning =>
      if !o.Ok? || v.rec.None? then StepResult(v, OnFail(th))
      else StepResult(WithRecord(v, v.rec.value.(status := Running)), At(th, Release))
  }

  /** failUpdate and markRebuildError forget the container ID; markStopError keeps it. */
  function SettleError(kind: Kind, r: Record): Record {
    if kind.Stop? then r.(status := Errored) else r.(status := Errored, cid := 0)
  }

  /** StopAgent's calls, and the writes that settle a failed or interrupted operation. */
  function SettleStep(v: Slice, th: Thread, o: Outcome): StepResult
    requires th.Op? && th.pc.Settling?
  {
    var bad := !o.Ok? || v.rec.None?;
    match th.pc.x
    case HaltAgent =>
      StepResult(StopAgentBox(v, th.a.cid, o), th.(pc := Settling(HaltDind), errs := !o.Ok?))
    case HaltDind =>
      StepResult(StopDindBox(v, th.a.dind, o),
                 At(th, Settling(if th.errs || !o.Ok? then Fail else MarkStopped)))
    case MarkStopped =>
      if bad then StepResult(v, At(th, Settling(Fail)))
      else StepResult(WithRecord(v, v.rec.value.(status := Stopped)), At(th, Release))
    case Fail =>
      StepResult(if bad then v else WithRecord(v, SettleError(th.kind, v.rec.value)), At(th, Release))
    case MarkInterrupted =>
      StepResult(if bad then v else WithRecord(v, v.rec.value.(status := Errored)), At(th, Release))
  }

  /** Does the daemon accept teardown's k-th call? */
  predicate TeardownAllowed(r: Resources, k: nat) {
    if k == 5 then CanRemoveNet(r)
    else if 6 <= k then CanRemoveVolume(r, VolumeAt(k - 6))
    else true
  }

  /** teardown's calls, in order. */
  function TeardownCall(v: Slice, a: Record, k: nat, o: Outcome): Slice {
    if k == 0 then StopAgentBox(v, a.cid, o)
    else if k == 1 then RemoveAgentBox(v, a.cid, o)
    else if k == 2 then StopDindBox(v, a.dind, o)
    else if k == 3 then RemoveDindBox(v, a.dind, o)
    else if !Happens(o) || !TeardownAllowed(v.res, k) then v
    else if k == 4 then v.(res := v.res.(proxied := false))
    else if k == 5 then v.(res := v.res.(net := false))
    else v.(res := SetVolume(v.res, VolumeAt(k - 6), false))
  }

  /** The first calls of teardown, with the given outcomes. */
  function TornBy(v: Slice, a: Record, outs: seq<Outcome>): Slice {
    if outs == [] then v
    else
      var n := |outs| - 1;
      TeardownCall(TornBy(v, a, outs[..n]), a, n, outs[n])
  }

  /** A failed call is remembered and the rest still runs. */
  function TeardownStep(v: Slice, th: Thread, o: Outcome): StepResult
    requires th.Op? && th.pc.Teardown?
  {
    var k := th.pc.k;
    var errs := th.errs || !o.Ok? || !TeardownAllowed(v.res, k);
    StepResult(TeardownCall(v, th.a, k, o),
               th.(errs := errs,
                   pc := if k < 8 then Teardown(k + 1)
                         else if th.kind.Create? || !errs then Forget
                         else Release))
  }

  /** One step of an operation that is not at `Release`. */
  function OpStep(v: Slice, th: Thread, o: Outcome, cid: Cid, full: bool): StepResult
    requires th.Op? && !th.pc.Release?
  {
    match th.pc
    case Entering(_) => EntryStep(v, th, o, full)
    case Building(_) => BuildStep(v, th, o)
    case Sidecar(_) => DindStep(v, th, o, cid)
    case Replacing(_) => OldStep(v, th, o)
    case Renewing(_) => NewStep(v, th, o, cid)
    case Settling(_) => SettleStep(v, th, o)
    case Teardown(_) => TeardownStep(v, th, o)
    case Forget => StepResult(if o.Ok? then v.(rec := None) else v, At(th, Release))
  }

  // ---------------------------------------------------------------- container events

  /** Both IDs must be known to conclude that the event is about another container. */
  predicate IsStaleContainerEvent(event: Cid, recorded: Cid) {
    event != 0 && recorded != 0 && event != recorded
  }

  /** What the daemon reports about a container. */
  datatype DockerEvent = DieEvent | OomEvent | StopEvent | OtherEvent

  /** The status an event stands for; only the agent's own container counts. */
  function StatusOf(role: Role, what: DockerEvent): Option<Status> {
    if role.DindRole? then None
    else
      match what
      case DieEvent => Some(Errored)
      case OomEvent => Some(Errored)
      case StopEvent => Some(Stopped)
      case OtherEvent => None
  }

  predicate Relevant(v: Slice, th: Thread)
    requires th.Handler?
  {
    v.rec.Some? && v.rec.value.status.Running? && !IsStaleContainerEvent(th.cid, v.rec.value.cid)
  }

  /** MarkUnexpectedExit's transaction: the status and the container are checked again inside it. */
  function HandlerWrite(v: Slice, th: Thread): Slice
    requires th.Handler?
  {
    if Relevant(v, th) then WithRecord(v, v.rec.value.(status := th.to)) else v
  }

  // ---------------------------------------------------------------- the whole system

  type Tid = nat

  /** For which agent, and as what, a container was created. */
  datatype Owner = Owner(id: Id, role: Role)

  datatype State = State(
    world: map<Id, Slice>,
    refs: map<Id, nat>,          // the in-flight registry
    threads: map<Tid, Thread>,
    issued: map<Cid, Owner>)     // history: every container ID the daemon has handed out

  const Init := State(map[], map[], map[], map[])

  /** An ID the daemon handed out for this agent's container of this role, or none. */
  predicate OwnId(issued: map<Cid, Owner>, c: Cid, id: Id, role: Role) {
    c == 0 || (c in issued && issued[c] == Owner(id, role))
  }

  /** Both recorded IDs are the agent's own. */
  predicate OwnRecord(issued: map<Cid, Owner>, r: Record, id: Id) {
    OwnId(issued, r.cid, id, AgentRole) && OwnId(issued, r.dind, id, DindRole)
  }

  /** The operation's next call creates a container. */
  predicate Creates(th: Thread) {
    th.Op? && (th.pc == Sidecar(DindCreate) || th.pc == Renewing(AgentCreate))
  }

  /** The daemon hands out an ID with every create. */
  function Issue(issued: map<Cid, Owner>, th: Thread, cid: Cid): map<Cid, Owner> {
    if Creates(th) then issued[cid := Owner(th.id, if th.pc.Sidecar? then DindRole else AgentRole)] else issued
  }

  function SliceOf(s: State, id: Id): Slice {
    if id in s.world then s.world[id] else NewSlice
  }

  predicate IsLive(v: Slice) {
    v.rec.Some? && CountsTowardCapacity(v.rec.value.status)
  }

  function LiveIds(world: map<Id, Slice>): set<Id> {
    set id | id in world && IsLive(world[id])
  }

  predicate Busy(s: State, id: Id) {
    id in s.refs && s.refs[id] > 0
  }

  datatype Action =
    | Start(t: Tid, kind: Kind, id: Id)             // a request arrives: Create, Update, Delete, Stop, Resume
    | Claim(t: Tid, id: Id, listed: Record)         // Reconcile reaches a record it listed earlier
    | Event(t: Tid, id: Id, role: Role, cid: Cid, what: DockerEvent)   // a container event is delivered
    | Run(t: Tid, o: Outcome, cid: Cid)             // one step of one thread; a created container gets `cid`
    | Die(id: Id, role: Role)                       // a container leaves the running state by itself
    | Vanish(id: Id, role: Role)                    // a container is removed behind the operator's back
    | Complete(id: Id)                              // a scheduled run's policy marks its agent Stopped
    | Crash                                         // the operator process dies

  /** The first step of each request once it holds its registry entry. */
  function Entry(kind: Kind, id: Id): Thread {
    Op(kind, id, if kind.Create? then Entering(Insert) else Entering(Get), Record(Creating, 0, 0), 0, false)
  }

  /** What Reconcile does with a record, decided by the status it listed. */
  function ClaimEntry(id: Id, listed: Record): Thread {
    if listed.status.Running? then Op(Wake, id, Sidecar(DindInspect), listed, 0, false)
    else if listed.status.Updating? then Op(Cleanup, id, Settling(MarkInterrupted), listed, 0, false)
    else Op(Cleanup, id, Teardown(0), listed, 0, false)
  }

  predicate Enabled(s: State, a: Action) {
    match a
    case Start(t, kind, id) =>
      t !in s.threads && !Busy(s, id) && kind in {Create, Update, Delete, Stop, Resume}
    case Claim(t, id, listed) =>
      // the listing is an earlier state of this record, so its IDs are the agent's own
      && t !in s.threads && !Busy(s, id) && (MayBeStuck(listed.status) || listed.status.Running?)
      && OwnRecord(s.issued, listed, id)
    case Event(t, id, role, cid, _) => t !in s.threads && cid != 0 && (role.AgentRole? ==> cid in SliceOf(s, id).died)
    case Run(t, _, cid) => t in s.threads && cid != 0 && cid !in s.issued      // IDs are never reused
    case Die(id, role) => var b := BoxOf(SliceOf(s, id).res, role); b.Some? && b.value.running
    case Vanish(id, role) => Hits(BoxOf(SliceOf(s, id).res, role), 0)
    case Complete(id) => SliceOf(s, id).rec.Some?
    case Crash => true
  }

  function Die1(v: Slice, role: Role): Slice {
    v.(res := StopBox(v.res, role, 0),
       died := v.died + if role.AgentRole? then Killed(v, 0) else {})
  }

  function Vanish1(v: Slice, role: Role): Slice {
    v.(res := RemoveBox(v.res, role, 0),
       died := v.died + if role.AgentRole? then Killed(v, 0) else {})
  }

  /** An unconditional write, outside the registry; the stops of the two containers that follow are `Die` steps. */
  function Stopped1(v: Slice): Slice
    requires v.rec.Some?
  {
    WithRecord(v, v.rec.value.(status := Stopped))
  }

  function ReleaseRef(refs: map<Id, nat>, id: Id): map<Id, nat> {
    if id !in refs || refs[id] == 0 then refs
    else if refs[id] == 1 then refs - {id}
    else refs[id := refs[id] - 1]
  }

  function Exec(s: State, a: Action, cap: nat): State
    requires Enabled(s, a)
  {
    match a
    case Start(t, kind, id) => s.(refs := s.refs[id := 1], threads := s.threads[t := Entry(kind, id)])
    case Claim(t, id, listed) => s.(refs := s.refs[id := 1], threads := s.threads[t := ClaimEntry(id, listed)])
    case Event(t, id, role, cid, what) =>
      var to := StatusOf(role, what);
      if to.None? then s else s.(threads := s.threads[t := Handler(id, cid, to.value, false)])
    case Run(t, o, cid) =>
      var th := s.threads[t];
      if th.Handler? then
        if !o.Ok? || (!th.checked && !Relevant(SliceOf(s, th.id), th)) then s.(threads := s.threads - {t})
        else if !th.checked then s.(threads := s.threads[t := th.(checked := true)])
        else s.(world := s.world[th.id := HandlerWrite(SliceOf(s, th.id), th)], threads := s.threads - {t})
      else if th.pc.Release? then
        s.(refs := ReleaseRef(s.refs, th.id), threads := s.threads - {t})
      else
        var full := |LiveIds(s.world)| >= cap;
        var r := OpStep(SliceOf(s, th.id), th, o, cid, full);
        State(s.world[th.id := r.v], s.refs, s.threads[t := r.th], Issue(s.issued, th, cid))
    case Die(id, role) => s.(world := s.world[id := Die1(SliceOf(s, id), role)])
    case Vanish(id, role) => s.(world := s.world[id := Vanish1(SliceOf(s, id), role)])
    case Complete(id) => s.(world := s.world[id := Stopped1(SliceOf(s, id))])
    case Crash => s.(refs := map[], threads := map[])
  }

  /** Actions that are not enabled (a request refused because its agent is held, say) change nothing. */
  function Next(s: State, a: Action, cap: nat): State {
    if Enabled(s, a) then Exec(s, a, cap) else s
  }

  function After(s: State, acts: seq<Action>, cap: nat): State
    decreases |acts|
  {
    if acts == [] then s
    else Next(After(s, acts[..|acts| - 1], cap), acts[|acts| - 1], cap)
  }
}
