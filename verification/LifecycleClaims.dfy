/**
 Reconcile claims made on an outdated listing: what exactly such a claim can do to an agent.
 */
module LifecycleClaims {
  import opened Agents
  import opened Lifecycle
  import opened LifecycleIdentity
  import opened LifecycleInvariant
  import opened LifecycleSafety
  import opened LifecycleWitness

  // ---------------------------------------------------------------- a teardown of a settled agent

  /** Neither reference reaches the container it was recorded for. */
  predicate Missed(v: Slice, a: Record) {
    !Reached(v.res.agent, a.cid) && !Reached(v.res.dind, a.dind)
  }

  predicate SameVolumes(r: Resources, r': Resources) {
    r'.workspace == r.workspace && r'.config == r.config && r'.cache == r.cache
  }

  lemma MissedCall(v: Slice, a: Record, k: nat, o: Outcome)
    requires Missed(v, a)
    ensures var w := TeardownCall(v, a, k, o); Missed(w, a) && SameVolumes(v.res, w.res) && w.rec == v.rec
  {
  }

  /** A teardown that reaches neither container removes no volume, whatever its calls answer: both are in use. */
  lemma {:induction false} MissedTeardownSparesVolumes(v: Slice, a: Record, outs: seq<Outcome>)
    requires Missed(v, a)
    ensures var w := TornBy(v, a, outs); Missed(w, a) && SameVolumes(v.res, w.res) && w.rec == v.rec
  {
    if outs != [] {
      var n := |outs| - 1;
      MissedTeardownSparesVolumes(v, a, outs[..n]);
      MissedCall(TornBy(v, a, outs[..n]), a, n, outs[n]);
    }
  }

  function Torn(v: Slice, th: Thread, k: nat): StepResult
    requires th.Op? && th.pc == Teardown(k)
  {
    TeardownStep(v, th, Ok)
  }

  /** What a teardown in which no call fails by itself leaves, given which containers it has removed. */
  ghost predicate Emptied(v: Slice, w: Slice) {
    && w.rec == v.rec
    && (v.res.agent.None? ==> !w.res.config) && (v.res.dind.None? ==> !w.res.cache)
    && (v.res.agent.None? && v.res.dind.None? ==> !w.res.workspace)
  }

  lemma TearVolumes(v: Slice, th: Thread, lo: Cid) returns (w: Slice, th': Thread)
    requires th.Op? && th.kind.Cleanup? && th.pc == Teardown(6) && 0 < lo
    ensures RunsTo(Point(v, th, lo), Point(w, th', lo)) && Emptied(v, w)
  {
    var r7 := Torn(v, th, 6);
    var r8 := Torn(r7.v, r7.th, 7);
    var r9 := Torn(r8.v, r8.th, 8);
    w, th' := r9.v, r9.th;
    Here(Point(w, th', lo));
    Ahead(r8.v, r8.th, lo, Point(w, th', lo));
    Ahead(r7.v, r7.th, lo, Point(w, th', lo));
    Ahead(v, th, lo, Point(w, th', lo));
  }

  lemma TearNetwork(v: Slice, th: Thread, lo: Cid) returns (w: Slice, th': Thread)
    requires th.Op? && th.kind.Cleanup? && th.pc == Teardown(4) && 0 < lo
    ensures RunsTo(Point(v, th, lo), Point(w, th', lo)) && Emptied(v, w)
  {
    var r5 := Torn(v, th, 4);
    var r6 := Torn(r5.v, r5.th, 5);
    w, th' := TearVolumes(r6.v, r6.th, lo);
    Ahead(r5.v, r5.th, lo, Point(w, th', lo));
    Ahead(v, th, lo, Point(w, th', lo));
  }

  lemma TearSidecar(v: Slice, th: Thread, lo: Cid) returns (w: Slice, th': Thread)
    requires th.Op? && th.kind.Cleanup? && th.pc == Teardown(2) && 0 < lo
    ensures RunsTo(Point(v, th, lo), Point(w, th', lo)) && w.rec == v.rec
    ensures v.res.agent.None? ==> !w.res.config
    ensures Reached(v.res.dind, th.a.dind) ==> !w.res.cache && (v.res.agent.None? ==> !w.res.workspace)
  {
    var r3 := Torn(v, th, 2);
    var r4 := Torn(r3.v, r3.th, 3);
    w, th' := TearNetwork(r4.v, r4.th, lo);
    Ahead(r3.v, r3.th, lo, Point(w, th', lo));
    Ahead(v, th, lo, Point(w, th', lo));
  }

  lemma TearAll(v: Slice, th: Thread, lo: Cid) returns (w: Slice, th': Thread)
    requires th.Op? && th.kind.Cleanup? && th.pc == Teardown(0) && 0 < lo
    ensures RunsTo(Point(v, th, lo), Point(w, th', lo)) && w.rec == v.rec
    ensures Reached(v.res.agent, th.a.cid) ==> !w.res.config
    ensures Reached(v.res.dind, th.a.dind) ==> !w.res.cache
    ensures Reached(v.res.agent, th.a.cid) && Reached(v.res.dind, th.a.dind) ==> !w.res.workspace
  {
    var r1 := Torn(v, th, 0);
    var r2 := Torn(r1.v, r1.th, 1);
    w, th' := TearSidecar(r2.v, r2.th, lo);
    Ahead(r1.v, r1.th, lo, Point(w, th', lo));
    Ahead(v, th, lo, Point(w, th', lo));
  }

  /** The volumes a claim with these references costs a settled agent. */
  predicate Robbed(v: Slice, listed: Record, w: Slice) {
    && w.rec == v.rec
    && (Reached(v.res.agent, listed.cid) ==> !w.res.config)
    && (Reached(v.res.dind, listed.dind) ==> !w.res.cache)
    && (Reached(v.res.agent, listed.cid) && Reached(v.res.dind, listed.dind) ==> !w.res.workspace)
  }

  lemma ClaimStarts(s: State, t: Tid, id: Id, listed: Record, cap: nat) returns (lo: Cid)
    requires Enabled(s, Claim(t, id, listed)) && id in s.world
    ensures 0 < lo && Below(s.issued, lo)
    ensures var s1, b := Next(s, Claim(t, id, listed), cap), s.(issued := map[]);
            Gets(s1, Focus(Held(b, id), t, id, s.world[id], ClaimEntry(id, listed)), lo, cap)
  {
    var s1, b := Next(s, Claim(t, id, listed), cap), s.(issued := map[]);
    lo := Bound(s.issued.Keys);
    forall c | c in s.issued ensures c < lo { assert c in s.issued.Keys; }
    Stay(s1, cap);
    assert s.world[id := s.world[id]] == s.world;
    assert Focus(Held(b, id), t, id, s.world[id], ClaimEntry(id, listed)).(issued := s.issued) == s1;
  }

  /**
   A pass that listed the record as Creating or Deleting and claims it after it has become usable: each
   reference that reaches its container costs the settled agent a volume, and both together its workspace.
   */
  lemma OutdatedTeardownDestroys(s: State, t: Tid, id: Id, listed: Record, cap: nat)
    requires Enabled(s, Claim(t, id, listed)) && !Settled(listed.status) && id in s.world
    requires s.world[id].rec.Some? && Settled(s.world[id].rec.value.status)
    ensures exists s' :: Reaches(Next(s, Claim(t, id, listed), cap), s', cap) && Robbed(s.world[id], listed, SliceOf(s', id))
  {
    var v, th, b := s.world[id], ClaimEntry(id, listed), s.(issued := map[]);
    var lo := ClaimStarts(s, t, id, listed, cap);
    var w, th' := TearAll(v, th, lo);
    var s1 := Next(s, Claim(t, id, listed), cap);
    Go(s1, Held(b, id), t, Point(v, th, lo), Point(w, th', lo), cap);
    var s' := Leave(s1, Focus(Held(b, id), t, id, w, th'), lo, cap);
    assert SliceOf(s', id) == w;
  }

  // ---------------------------------------------------------------- a claim on a record that is going away

  /** A pass that listed the record as Running or Updating and claims it once it is Deleting brings it back as Errored. */
  lemma OutdatedClaimRevives(s: State, t: Tid, id: Id, listed: Record, cap: nat)
    requires Enabled(s, Claim(t, id, listed)) && Settled(listed.status) && id in s.world
    requires s.world[id].rec.Some? && !Settled(s.world[id].rec.value.status)
    ensures exists s' :: Reaches(Next(s, Claim(t, id, listed), cap), s', cap)
                         && SliceOf(s', id).rec.Some? && SliceOf(s', id).rec.value.status.Errored?
  {
    var v := s.world[id];
    var cid := Bound(s.issued.Keys);
    assert cid !in s.issued.Keys;
    var s1 := Next(s, Claim(t, id, listed), cap);
    Stay(s1, cap);
    if listed.status.Updating? {
      Do(s1, s1, Run(t, Ok, cid), cap);
      ErroredBy(s1, t, id, cid, cap);
    } else {
      Do(s1, s1, Run(t, Refused, cid), cap);
      var s2 := Next(s1, Run(t, Refused, cid), cap);
      assert s2.threads[t].pc == Settling(Fail) && SliceOf(s2, id) == v && s2.issued == s.issued;
      Do(s1, s2, Run(t, Ok, cid), cap);
      ErroredBy(s2, t, id, cid, cap);
    }
  }

  lemma ErroredBy(s: State, t: Tid, id: Id, cid: Cid, cap: nat)
    requires t in s.threads && s.threads[t].Op? && s.threads[t].id == id && SliceOf(s, id).rec.Some?
    requires s.threads[t].pc == Settling(Fail) || s.threads[t].pc == Settling(MarkInterrupted)
    requires cid != 0 && cid !in s.issued
    ensures var rec := SliceOf(Next(s, Run(t, Ok, cid), cap), id).rec; rec.Some? && rec.value.status.Errored?
  {
  }

  /** A completion policy that finds a record being created or deleted makes it look like a usable agent. */
  lemma UnguardedCompletionRevives(s: State, id: Id, cap: nat)
    requires SliceOf(s, id).rec.Some? && !Settled(SliceOf(s, id).rec.value.status)
    ensures SliceOf(Next(s, Complete(id), cap), id).rec == Some(SliceOf(s, id).rec.value.(status := Stopped))
  {
    assert Enabled(s, Complete(id));
  }

  // ---------------------------------------------------------------- a claim on a healthy agent

  /** Running, with both containers up under the recorded IDs. */
  predicate Sound(v: Slice) {
    && v.rec.Some? && v.rec.value.status.Running?
    && v.res.agent == Some(Box(v.rec.value.cid, true)) && v.res.dind == Some(Box(v.rec.value.dind, true))
  }

  /** The listing said Running and named the containers the agent still has. */
  predicate HarmlessListing(v: Slice, listed: Record) {
    listed.status.Running? && Reached(v.res.agent, listed.cid) && Reached(v.res.dind, listed.dind)
  }

  /** At most n steps of an operation in which no call fails. */
  function OkSteps(v: Slice, th: Thread, n: nat): (r: StepResult)
    requires th.Op?
    ensures r.th.Op? && r.th.id == th.id
    decreases n
  {
    if n == 0 || th.pc.Release? then StepResult(v, th)
    else
      var r := OpStep(v, th, Ok, 1, false);
      OpKeepsId(v, th, Ok, 1, false);
      OkSteps(r.v, r.th, n - 1)
  }

  /**
   A compatible claim on a healthy agent, with no failing call, ends after three calls at most.  It leaves the
   agent exactly as it is if the listing is harmless, and marks it Errored otherwise: also when it was
   listed during an Update that has since succeeded.
   */
  lemma ClaimOnHealthyAgent(v: Slice, id: Id, listed: Record)
    requires Sound(v) && (listed.status.Running? || listed.status.Updating?)
    ensures var r := OkSteps(v, ClaimEntry(id, listed), 3);
            && r.th.pc.Release? && r.v.rec.Some? && r.v.res == v.res
            && (r.v == v <==> HarmlessListing(v, listed))
            && (r.v.rec.value.status.Errored? <==> !HarmlessListing(v, listed))
  {
    var th := ClaimEntry(id, listed);
    Unroll(v, th, 3);
    if listed.status.Running? {
      var r := OpStep(v, th, Ok, 1, false);
      assert r.v == v && r.th == th.(pc := if Reached(v.res.dind, listed.dind) then Replacing(AgentInspect) else Settling(Fail));
      Unroll(v, r.th, 2);
      if Reached(v.res.dind, listed.dind) {
        var q := OpStep(v, r.th, Ok, 1, false);
        assert q.v == v && q.th == th.(pc := if Reached(v.res.agent, listed.cid) then Release else Settling(Fail));
        if !Reached(v.res.agent, listed.cid) { Unroll(v, q.th, 1); }
      }
    }
  }

  lemma Unroll(v: Slice, th: Thread, n: nat)
    requires th.Op? && n > 0 && !th.pc.Release?
    ensures var r := OpStep(v, th, Ok, 1, false); r.th.Op? && OkSteps(v, th, n) == OkSteps(r.v, r.th, n - 1)
  {
    OpKeepsId(v, th, Ok, 1, false);
  }

  // ---------------------------------------------------------------- waking an agent after a reboot

  /** The record says Running and both containers are down. */
  function Fallen(dind: Cid, agent: Cid): Slice {
    Slice(Some(Record(Running, agent, dind)),
          Resources(Some(Box(agent, false)), Some(Box(dind, false)), true, true, true, true, true),
          agent, {}, {agent})
  }

  lemma WakeSidecar(id: Id, dind: Cid, agent: Cid, lo: Cid)
    requires 0 < dind < agent < lo
    ensures var a := Record(Running, agent, dind); var up := Fallen(dind, agent).(res := Fallen(dind, agent).res.(dind := Some(Box(dind, true))));
            RunsTo(Point(Fallen(dind, agent), ClaimEntry(id, a), lo), Point(up, Doing(Wake, id, Building(Resolve), a, 0), lo))
  {
    var a, down := Record(Running, agent, dind), Fallen(dind, agent);
    var up := down.(res := down.res.(dind := Some(Box(dind, true))));
    var z := Point(up, Doing(Wake, id, Building(Resolve), a, 0), lo);
    Here(z);
    Ahead(up, Doing(Wake, id, Replacing(AgentInspect), a, 0), lo, z);
    Ahead(up, Doing(Wake, id, Sidecar(DindWait), a, 0), lo, z);
    Ahead(down, Doing(Wake, id, Sidecar(DindStart), a, 0), lo, z);
    Ahead(down, ClaimEntry(id, a), lo, z);
  }

  lemma WakeRemoves(id: Id, dind: Cid, agent: Cid, lo: Cid)
    requires 0 < dind < agent < lo
    ensures var a := Record(Running, agent, dind); var up := Fallen(dind, agent).(res := Fallen(dind, agent).res.(dind := Some(Box(dind, true))));
            RunsTo(Point(up, Doing(Wake, id, Building(Resolve), a, 0), lo),
                   Point(Returning(a.(status := Updating), None, true, agent, agent), Doing(Wake, id, Renewing(AgentCreate), a, 0), lo))
  {
    var a, down := Record(Running, agent, dind), Fallen(dind, agent);
    var up := down.(res := down.res.(dind := Some(Box(dind, true))));
    var shielded := up.(rec := Some(a.(status := Updating)));
    var stopped := Returning(a.(status := Updating), Some(Box(agent, false)), true, agent, agent);
    var z := Point(Returning(a.(status := Updating), None, true, agent, agent), Doing(Wake, id, Renewing(AgentCreate), a, 0), lo);
    Here(z);
    assert {agent} + {agent} == {agent};
    Ahead(stopped, Doing(Wake, id, Replacing(OldRemove), a, 0), lo, z);
    assert StopAgentBox(shielded, agent, Ok) == stopped;
    Ahead(shielded, Doing(Wake, id, Replacing(OldStop), a, 0), lo, z);
    Ahead(up, Doing(Wake, id, Entering(Shield), a, 0), lo, z);
    Ahead(up, Doing(Wake, id, Building(Resolve), a, 0), lo, z);
  }

  /** A wake in which no call fails: the agent runs again, in a new container, on the storage it had. */
  lemma WakeRuns(s: State, t: Tid, id: Id, dind: Cid, agent: Cid, cap: nat)
    requires var a := Record(Running, agent, dind); Enabled(s, Claim(t, id, a)) && id in s.world && s.world[id] == Fallen(dind, agent)
    requires 0 < dind < agent && dind in s.issued && agent in s.issued && id !in s.refs
    ensures exists s', cid :: Reaches(Next(s, Claim(t, id, Record(Running, agent, dind)), cap), s', cap)
                              && cid !in s.issued && SliceOf(s', id) == Resumed(dind, agent, cid) && id !in s'.refs
    ensures forall cid: Cid :: SameStorage(Fallen(dind, agent).res, Resumed(dind, agent, cid).res)
  {
    var a, b := Record(Running, agent, dind), s.(issued := map[]);
    var lo := ClaimStarts(s, t, id, a, cap);
    var s1 := Next(s, Claim(t, id, a), cap);
    var up := Fallen(dind, agent).(res := Fallen(dind, agent).res.(dind := Some(Box(dind, true))));
    var x := Point(up, Doing(Wake, id, Building(Resolve), a, 0), lo);
    var y := Point(Returning(a.(status := Updating), None, true, agent, agent), Doing(Wake, id, Renewing(AgentCreate), a, 0), lo);
    WakeSidecar(id, dind, agent, lo);
    Go(s1, Held(b, id), t, Point(Fallen(dind, agent), ClaimEntry(id, a), lo), x, cap);
    WakeRemoves(id, dind, agent, lo);
    Go(s1, Held(b, id), t, x, y, cap);
    WakeFinishes(s1, b, t, id, dind, agent, lo, cap);
    var s' := Leave(s1, b.(world := b.world[id := Resumed(dind, agent, lo)]), lo + 1, cap);
    assert SliceOf(s', id) == Resumed(dind, agent, lo);
  }

  lemma WakeFinishes(s1: State, b: State, t: Tid, id: Id, dind: Cid, agent: Cid, lo: Cid, cap: nat)
    requires Bare(b) && t !in b.threads && id !in b.refs && 0 < dind < agent < lo
    requires Gets(s1, Focus(Held(b, id), t, id, Returning(Record(Updating, agent, dind), None, true, agent, agent),
                            Doing(Wake, id, Renewing(AgentCreate), Record(Running, agent, dind), 0)), lo, cap)
    ensures Gets(s1, b.(world := b.world[id := Resumed(dind, agent, lo)]), lo + 1, cap)
  {
    var a, z := Record(Running, agent, dind), AlmostRunning(Wake, id, Updating, dind, agent, lo);
    StartsNew(Wake, id, Updating, a, agent, dind, agent, lo, lo);
    Go(s1, Held(b, id), t, Point(Returning(a.(status := Updating), None, true, agent, agent), Doing(Wake, id, Renewing(AgentCreate), a, 0), lo), z, cap);
    Finishes(Wake, id, Updating, dind, agent, lo);
    RunToEnd(s1, b, t, z, Point(Resumed(dind, agent, lo), Doing(Wake, id, Release, Record(Updating, lo, dind), lo), lo + 1), cap);
  }

  /** Create an agent, and let the host go down under it. */
  lemma Reboots(id: Id, cap: nat) returns (s: State)
    requires cap > 0
    ensures Reaches(Init, s, cap) && s.world == map[id := Fallen(1, 2)] && s.threads == map[] && s.refs == map[]
  {
    Stay(Init, cap);
    assert Init.(issued := map[]) == Init && Below(map[], 1) && LiveIds(Init.world) == {};
    CreateFrom(Init, Init, 0, id, 1, 1, 2, cap);
    var up := Init.(world := Init.world[id := Healthy(1, 2)]);
    var half := Fallen(1, 2).(res := Fallen(1, 2).res.(dind := Some(Box(1, true))));
    assert {} + {2} == {2} && {2} + {} == {2};
    assert Die1(Healthy(1, 2), AgentRole) == half && Die1(half, DindRole) == Fallen(1, 2);
    Act(Init, up, Die(id, AgentRole), 3, cap);
    var mid := Init.(world := map[id := half]);
    assert Next(up, Die(id, AgentRole), cap) == mid;
    Act(Init, mid, Die(id, DindRole), 3, cap);
    assert Next(mid, Die(id, DindRole), cap) == Init.(world := map[id := Fallen(1, 2)]);
    s := Leave(Init, Init.(world := map[id := Fallen(1, 2)]), 3, cap);
  }

  lemma ReachedIsOwned(s: State, cap: nat)
    requires Reaches(Init, s, cap)
    ensures Owned(s)
  {
    var acts :| CompatibleRun(Init, acts, cap) && After(Init, acts, cap) == s;
    ReachableOwned(acts, cap);
  }

  /** Down in s after a reboot, claimed there, and running in s' in a new container on the same storage. */
  ghost predicate Revived(id: Id, s: State, s': State, cap: nat) {
    && Reaches(Init, s, cap) && SliceOf(s, id) == Fallen(1, 2) && Enabled(s, Claim(0, id, Record(Running, 2, 1)))
    && Reaches(Next(s, Claim(0, id, Record(Running, 2, 1)), cap), s', cap)
    && exists cid :: cid !in s.issued && SliceOf(s', id) == Resumed(1, 2, cid)
  }

  /** From the empty store: create an agent, reboot the host, reconcile -- and the agent runs again. */
  lemma AgentWakesAfterReboot(id: Id, cap: nat)
    requires cap > 0
    ensures exists s, s' :: Revived(id, s, s', cap)
  {
    var s := Reboots(id, cap);
    ReachedIsOwned(s, cap);
    assert OwnSlice(s.issued, id, s.world[id]);
    WakeRuns(s, 0, id, 1, 2, cap);
    var s', cid :| Reaches(Next(s, Claim(0, id, Record(Running, 2, 1)), cap), s', cap)
                   && cid !in s.issued && SliceOf(s', id) == Resumed(1, 2, cid) && id !in s'.refs;
    assert Revived(id, s, s', cap);
  }

  // ---------------------------------------------------------------- such a listing really occurs

  /**
   A pass lists the record while Create works on it, and claims it after Create has returned.  The healthy,
   running agent loses its workspace.
   */
  lemma ReconcileCanDestroyAHealthyAgent(id: Id, cap: nat)
    requires cap > 0
    ensures exists s0, s1, s2 :: Destroyed(id, s0, s1, s2, cap)
  {
    Stay(Init, cap);
    assert Init.(issued := map[]) == Init && Below(map[], 1) && LiveIds(Init.world) == {};
    BeginCreate(Init, Init, 0, id, 1, cap);
    var s0 := Leave(Init, Begun(Init, 0, id), 1, cap);
    var s1 := CreateReturns(s0, id, cap);
    var s2 := ClaimRobs(s1, id, cap);
    assert Destroyed(id, s0, s1, s2, cap);
  }

  /** Listed in s0 while it is being created, healthy in s1, claimed there, and robbed in s2. */
  ghost predicate Destroyed(id: Id, s0: State, s1: State, s2: State, cap: nat) {
    && Reaches(Init, s0, cap) && SliceOf(s0, id).rec == Some(Blank)
    && Reaches(s0, s1, cap) && SliceOf(s1, id) == Healthy(1, 2) && Enabled(s1, Claim(0, id, Blank))
    && Reaches(Next(s1, Claim(0, id, Blank), cap), s2, cap)
    && SliceOf(s2, id).rec == Some(Record(Running, 2, 1)) && !SliceOf(s2, id).res.workspace
  }

  lemma CreateReturns(s0: State, id: Id, cap: nat) returns (s1: State)
    requires s0 == Begun(Init, 0, id).(issued := s0.issued) && Below(s0.issued, 1)
    ensures Reaches(s0, s1, cap) && s1.world == map[id := Healthy(1, 2)] && s1.threads == map[] && s1.refs == map[]
  {
    Stay(s0, cap);
    CreateRuns(s0, Init, 0, id, 1, 1, 2, cap);
    s1 := Leave(s0, Init.(world := Init.world[id := Healthy(1, 2)]), 3, cap);
    assert Init.world[id := Healthy(1, 2)] == map[id := Healthy(1, 2)];
  }

  lemma ClaimRobs(s1: State, id: Id, cap: nat) returns (s2: State)
    requires s1.world == map[id := Healthy(1, 2)] && s1.threads == map[] && s1.refs == map[]
    ensures Enabled(s1, Claim(0, id, Blank)) && Reaches(Next(s1, Claim(0, id, Blank), cap), s2, cap)
    ensures SliceOf(s2, id).rec == Some(Record(Running, 2, 1)) && !SliceOf(s2, id).res.workspace
  {
    OutdatedTeardownDestroys(s1, 0, id, Blank, cap);
    s2 :| Reaches(Next(s1, Claim(0, id, Blank), cap), s2, cap) && Robbed(s1.world[id], Blank, SliceOf(s2, id));
  }
}
