/**
 Why one agent's container calls cannot reach another agent's containers, although they address
 containers by ID wherever one is recorded.
 */
module Isolation {
  import opened Agents
  import opened Lifecycle
  import opened LifecycleIdentity
  import opened Names

  /** The daemon, keyed by names, holds exactly what the lifecycle state says. */
  ghost predicate Represents(d: Daemon, s: State) {
    forall id :: View(d, id) == SliceOf(s, id).res
  }

  /** The containers a reference resolves to: the one with that name, or every one with that ID. */
  function Resolve(d: Daemon, id: Id, role: Role, ref: Cid): set<string> {
    if ref == 0 then {ContainerName(id, role)} else set n | n in d.containers && d.containers[n].cid == ref
  }

  function SetRunning(d: Daemon, names: set<string>, up: bool): Daemon {
    d.(containers := map n | n in d.containers :: if n in names then d.containers[n].(running := up) else d.containers[n])
  }

  function Drop(d: Daemon, names: set<string>): Daemon {
    d.(containers := d.containers - names)
  }

  /** A reference to an agent's own container resolves to no container of another agent or role. */
  lemma ResolvesToOwn(d: Daemon, s: State, id: Id, role: Role, ref: Cid, b: Id, r: Role)
    requires Owned(s) && Represents(d, s) && OwnId(s.issued, ref, id, role)
    ensures ContainerName(b, r) in Resolve(d, id, role, ref) && ContainerName(b, r) in d.containers ==> b == id && r == role
    ensures ContainerName(id, role) in d.containers ==>
              (ContainerName(id, role) in Resolve(d, id, role, ref) <==> Hits(BoxOf(View(d, id), role), ref))
  {
    ContainerNameInjective(b, id, r, role);
    assert View(d, b) == SliceOf(s, b).res;
    OwnNewSlice(s, b);
  }

  /** Stopping, starting or removing a container by reference does to the own agent what the model says, and nothing to others. */
  lemma ReferenceIsolation(d: Daemon, s: State, id: Id, role: Role, ref: Cid, b: Id)
    requires Owned(s) && Represents(d, s) && OwnId(s.issued, ref, id, role)
    ensures var names := Resolve(d, id, role, ref);
            && View(SetRunning(d, names, false), b) == (if b == id then StopBox(View(d, b), role, ref) else View(d, b))
            && View(SetRunning(d, names, true), b) == (if b == id then StartBox(View(d, b), role, ref) else View(d, b))
            && View(Drop(d, names), b) == (if b == id then RemoveBox(View(d, b), role, ref) else View(d, b))
  {
    ResolvesToOwn(d, s, id, role, ref, b, AgentRole);
    ResolvesToOwn(d, s, id, role, ref, b, DindRole);
    ContainerNameInjective(b, b, AgentRole, DindRole);
  }

  /** The reference through which an operation addresses its container of this role. */
  predicate Addresses(th: Thread, role: Role, ref: Cid) {
    && th.Op?
    && ( || ref == (if role.AgentRole? then th.a.cid else th.a.dind)
         || (role.DindRole? && ref == th.made && th.pc.Sidecar? && (th.pc.d.DindStamp? || th.pc.d.DindBoot? || th.pc.d.DindSettle?))
         || (role.AgentRole? && ref == th.made && th.pc.Renewing? && !th.pc.n.AgentCreate?))
  }

  /**
   In every state of every run, whatever references an operation holds, a call through them changes its own
   agent as the model says and no container of any other agent.
   */
  lemma CallsStayWithTheirAgent(acts: seq<Action>, cap: nat, t: Tid, d: Daemon, role: Role, ref: Cid, b: Id)
    requires var s := After(Init, acts, cap); Represents(d, s) && t in s.threads && Addresses(s.threads[t], role, ref)
    ensures var id, names := After(Init, acts, cap).threads[t].id, Resolve(d, After(Init, acts, cap).threads[t].id, role, ref);
            && View(SetRunning(d, names, false), b) == (if b == id then StopBox(View(d, b), role, ref) else View(d, b))
            && View(SetRunning(d, names, true), b) == (if b == id then StartBox(View(d, b), role, ref) else View(d, b))
            && View(Drop(d, names), b) == (if b == id then RemoveBox(View(d, b), role, ref) else View(d, b))
  {
    ReachableOwned(acts, cap);
    var s := After(Init, acts, cap);
    ReferenceIsolation(d, s, s.threads[t].id, role, ref, b);
  }

  /** Different agents never share a container ID, nor do the two containers of one agent. */
  lemma ContainersHaveDistinctIds(acts: seq<Action>, cap: nat, a: Id, r: Role, b: Id, q: Role)
    requires var s := After(Init, acts, cap); BoxOf(SliceOf(s, a).res, r).Some? && BoxOf(SliceOf(s, b).res, q).Some?
    ensures var s := After(Init, acts, cap);
            BoxOf(SliceOf(s, a).res, r).value.cid == BoxOf(SliceOf(s, b).res, q).value.cid <==> a == b && r == q
  {
    ReachableOwned(acts, cap);
    OwnNewSlice(After(Init, acts, cap), a);
    OwnNewSlice(After(Init, acts, cap), b);
  }
}
