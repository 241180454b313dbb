/**
 The agent manager's operations as they run one at a time: teardown, create with rollback,
 delete, sidecar recovery and wake-up.  Module Reconcile builds the startup pass on them.

 Every daemon and store call may fail; the answers are arbitrary.  A `Site` holds what the
 store and the daemon keep under one agent's names.
 */
module Manager {
  import opened Agents
  import opened Lifecycle
  import opened LifecycleInvariant
  import opened LifecycleSafety

  /** The record's two references reach the agent's containers. */
  predicate Reaches(res: Resources, a: Record) {
    Reached(res.agent, a.cid) && Reached(res.dind, a.dind)
  }

  predicate BoxShrinks(before: Option<Box>, after: Option<Box>) {
    after.Some? ==> before.Some? && after.value.cid == before.value.cid
  }

  /** Nothing has appeared, and no container was replaced. */
  predicate Shrinks(before: Resources, after: Resources) {
    && BoxShrinks(before.agent, after.agent) && BoxShrinks(before.dind, after.dind)
    && (after.net ==> before.net) && (after.proxied ==> before.proxied)
    && (after.workspace ==> before.workspace) && (after.config ==> before.config) && (after.cache ==> before.cache)
  }

  /** Only the container with this role may have changed. */
  predicate OnlyBox(role: Role, before: Resources, after: Resources) {
    WithBox(after, role, BoxOf(before, role)) == before
  }

  /** Only the sidecar ID of the record may have changed. */
  predicate OnlyDindId(before: Option<Record>, after: Option<Record>) {
    before.Some? == after.Some? && (after.Some? ==> after.value.(dind := before.value.dind) == before.value)
  }

  /** A finished agent: all six resources exist and the record names the daemon's containers. */
  predicate Whole(r: Record, res: Resources) {
    && r.status.Running? && Furnished(res) && res.proxied
    && res.agent.Some? && res.agent.value.cid == r.cid && res.dind.Some? && res.dind.value.cid == r.dind
  }

  /** What the k-th call of the step system's teardown does to the daemon. */
  function Called(r: Resources, a: Record, k: nat, o: Outcome): Resources {
    TeardownCall(Slice(None, r, 0, {}, {}), a, k, o).res
  }

  /** The record and the history have no say in what a call does to the daemon. */
  lemma CalledIsTeardownCall(v: Slice, a: Record, k: nat, o: Outcome)
    ensures TeardownCall(v, a, k, o).res == Called(v.res, a, k, o)
  {
  }

  lemma NetworkCalls(r: Resources, a: Record, o: Outcome, p: Outcome)
    ensures var mid := if Happens(o) then r.(proxied := false) else r;
            Called(Called(r, a, 4, o), a, 5, p) == if Happens(p) && CanRemoveNet(mid) then mid.(net := false) else mid
  {
  }

  /** The daemon after the first calls of the step system's teardown. */
  function Torn(r: Resources, a: Record, outs: seq<Outcome>): Resources {
    TornBy(Slice(None, r, 0, {}, {}), a, outs).res
  }

  lemma TornNext(r: Resources, a: Record, outs: seq<Outcome>, o: Outcome)
    ensures Torn(r, a, outs + [o]) == Called(Torn(r, a, outs), a, |outs|, o)
  {
    assert (outs + [o])[..|outs|] == outs;
    CalledIsTeardownCall(TornBy(Slice(None, r, 0, {}, {}), a, outs), a, |outs|, o);
  }

  /** The three volume calls with the given outcomes. */
  function VolumesBy(r: Resources, outs: seq<Outcome>): Resources
    requires |outs| <= 3
  {
    if outs == [] then r
    else
      var n := |outs| - 1;
      var x := VolumesBy(r, outs[..n]);
      if Happens(outs[n]) && CanRemoveVolume(x, VolumeAt(n)) then SetVolume(x, VolumeAt(n), false) else x
  }

  /** One of them reports an error. */
  predicate VolumesFail(r: Resources, outs: seq<Outcome>)
    requires |outs| <= 3
  {
    outs != [] &&
    var n := |outs| - 1;
    VolumesFail(r, outs[..n]) || !outs[n].Ok? || !CanRemoveVolume(VolumesBy(r, outs[..n]), VolumeAt(n))
  }

  /** The three calls touch only volumes, and all work exactly when none is refused and no container is in the way. */
  lemma VolumesOutcome(r: Resources, outs: seq<Outcome>)
    requires |outs| == 3
    ensures var r' := VolumesBy(r, outs);
            && r'.(workspace := r.workspace, config := r.config, cache := r.cache) == r && Shrinks(r, r')
            && (VolumesFail(r, outs) <==> !AllOk(outs) || r.agent.Some? || r.dind.Some?)
            && (!VolumesFail(r, outs) ==> !r'.workspace && !r'.config && !r'.cache)
  {
    VolumeOutcome(r, outs, 0);
    VolumeOutcome(r, outs, 1);
    VolumeOutcome(r, outs, 2);
    assert outs[..0] == [] && outs[..3] == outs;
  }

  lemma VolumeOutcome(r: Resources, outs: seq<Outcome>, k: nat)
    requires k < |outs| <= 3
    ensures var x := VolumesBy(r, outs[..k]);
            VolumesBy(r, outs[..k + 1]) == if Happens(outs[k]) && CanRemoveVolume(x, VolumeAt(k)) then SetVolume(x, VolumeAt(k), false) else x
    ensures VolumesFail(r, outs[..k + 1]) <==>
              VolumesFail(r, outs[..k]) || !outs[k].Ok? || !CanRemoveVolume(VolumesBy(r, outs[..k]), VolumeAt(k))
  {
    assert outs[..k + 1][..k] == outs[..k];
  }

  lemma {:induction false} VolumesContinue(r: Resources, a: Record, six: seq<Outcome>, outs: seq<Outcome>)
    requires |six| == 6 && |outs| <= 3
    ensures Torn(r, a, six + outs) == VolumesBy(Torn(r, a, six), outs)
  {
    if outs == [] {
      assert six + outs == six;
    } else {
      var n := |outs| - 1;
      VolumesContinue(r, a, six, outs[..n]);
      assert six + outs == six + outs[..n] + [outs[n]];
      TornNext(r, a, six + outs[..n], outs[n]);
    }
  }

  predicate AllOk(outs: seq<Outcome>) {
    forall i | 0 <= i < |outs| :: outs[i].Ok?
  }

  lemma AllOkNext(outs: seq<Outcome>, o: Outcome)
    ensures AllOk(outs + [o]) <==> AllOk(outs) && o.Ok?
  {
    assert (outs + [o])[|outs|] == o;
    assert forall i | 0 <= i < |outs| :: (outs + [o])[i] == outs[i];
  }

  /** What an inspect reports: `Down` covers every state but running. */
  datatype Sighting = Missing | Failed | Down(exited: bool) | Starting | Healthy | Unhealthy

  predicate IsUp(s: Sighting) { s.Starting? || s.Healthy? || s.Unhealthy? }

  /** A look that ends the wait for a sidecar. */
  predicate Decides(s: Sighting) { s.Healthy? || s.Missing? || s.Failed? || s == Down(true) }

  datatype Verdict = Well | Exited | TimedOut

  /** How the starts of a stopped sidecar came out. */
  datatype Recovery = Up | GaveUp | Recreate

  datatype Shielded = Done | StoodDown | NotWritten

  /** The recorded IDs reach both containers, and both are there. */
  predicate Intact(res: Resources, a: Record) {
    Hits(res.agent, a.cid) && Hits(res.dind, a.dind)
  }

  class Site {
    const id: Id
    var rec: Option<Record>
    var res: Resources
    ghost var seen: set<Role>      // containers observed running since they were last created, stopped or removed
    ghost var faults: nat          // calls that failed with nothing in their way, and containers that gave up by themselves
    ghost var calls: nat           // those of them that were calls, and not containers
    ghost var lost: nat            // those of them that were store transactions

    ghost predicate BothSeen()
      reads this
    {
      AgentRole in seen && DindRole in seen
    }

    /** The two counts only grow. */
    twostate predicate Counted()
      reads this
    {
      old(faults) <= faults && old(lost) <= lost && (faults == old(faults) ==> lost == old(lost))
    }

    twostate predicate Smooth()
      reads this
    {
      faults == old(faults)
    }

    // -------------------------------------------------------------- calls that answer

    /** A step that may fail and changes nothing modelled here: images, names, the backend, the tmux session. */
    method Chance() returns (ok: bool)
      modifies this`faults, this`calls
      ensures faults == old(faults) + (if ok then 0 else 1) && calls == old(calls) + (if ok then 0 else 1)
    {
      ok := *;
      if !ok { faults, calls := faults + 1, calls + 1; }
    }

    /** A Docker call: it works, is refused, or takes effect and still reports an error. */
    method Answer() returns (o: Outcome)
      modifies this`faults, this`calls
      ensures faults == old(faults) + (if o.Ok? then 0 else 1) && calls == old(calls) + (if o.Ok? then 0 else 1)
    {
      o := *;
      if !o.Ok? { faults, calls := faults + 1, calls + 1; }
    }

    // -------------------------------------------------------------- daemon calls

    method ContainerStop(role: Role, ref: Cid) returns (o: Outcome)
      modifies this
      ensures rec == old(rec) && seen == old(seen) - {role} && lost == old(lost) && faults == old(faults) + (if o.Ok? then 0 else 1)
      ensures res == if Happens(o) then StopBox(old(res), role, ref) else old(res)
    {
      o := Answer();
      if Happens(o) { res := StopBox(res, role, ref); }
      seen := seen - {role};
    }

    method ContainerRemove(role: Role, ref: Cid) returns (o: Outcome)
      modifies this
      ensures rec == old(rec) && seen == old(seen) - {role} && lost == old(lost) && faults == old(faults) + (if o.Ok? then 0 else 1)
      ensures res == if Happens(o) then RemoveBox(old(res), role, ref) else old(res)
    {
      o := Answer();
      if Happens(o) { res := RemoveBox(res, role, ref); }
      seen := seen - {role};
    }

    /** Refused on a name conflict or a missing network; a failure may still have created the container. */
    method ContainerCreate(role: Role) returns (ok: bool, cid: Cid)
      modifies this
      ensures rec == old(rec) && seen == old(seen) - {role} && cid != 0 && Counted() && lost == old(lost)
      ensures ok ==> CanCreateBox(old(res), role) && res == CreateBox(old(res), role, cid)
      ensures res == old(res) || (CanCreateBox(old(res), role) && res == CreateBox(old(res), role, cid))
      ensures Smooth() ==> (ok <==> CanCreateBox(old(res), role))
    {
      var o := Answer();
      cid :| cid > 0;
      var can := CanCreateBox(res, role);
      if Happens(o) && can { res := CreateBox(res, role, cid); }
      seen := seen - {role};
      ok := o.Ok? && can;
    }

    method ContainerStart(role: Role, ref: Cid) returns (ok: bool)
      modifies this
      ensures rec == old(rec) && seen == old(seen) && Counted() && lost == old(lost)
      ensures ok ==> Hits(BoxOf(old(res), role), ref) && res == StartBox(old(res), role, ref)
      ensures res == old(res) || res == StartBox(old(res), role, ref)
      ensures Smooth() ==> (ok <==> Hits(BoxOf(old(res), role), ref))
      ensures old(calls) <= calls && (calls == old(calls) ==> (ok <==> Hits(BoxOf(old(res), role), ref)))
    {
      var o := Answer();
      ok := o.Ok? && Hits(BoxOf(res, role), ref);
      if Happens(o) { res := StartBox(res, role, ref); }
    }

    /** The container may have exited by itself since the last call. */
    method Inspect(role: Role, ref: Cid) returns (s: Sighting)
      modifies this
      ensures rec == old(rec) && Counted() && lost == old(lost)
      ensures res == old(res) || res == StopBox(old(res), role, ref)
      ensures calls == old(calls) + if s.Failed? then 1 else 0
      ensures !s.Failed? ==> (s.Missing? <==> !Hits(BoxOf(old(res), role), ref))
      ensures IsUp(s) ==> res == old(res) && BoxOf(res, role).Some? && BoxOf(res, role).value.running
      ensures Smooth() ==> res == old(res) && !s.Failed? && (!s.Missing? ==> (IsUp(s) <==> BoxOf(res, role).value.running))
      ensures seen == if s.Starting? || s.Healthy? || (s.Unhealthy? && role.AgentRole?) then old(seen) + {role} else old(seen)
    {
      var answer: Sighting, exited: bool := *, *;
      s := answer;
      if answer.Failed? {
        faults, calls := faults + 1, calls + 1;
        return;
      }
      var b := BoxOf(res, role);
      if !Hits(b, ref) { return Missing; }
      if exited && b.value.running {
        faults := faults + 1;
        res := StopBox(res, role, ref);
        return Down(true);
      }
      if !b.value.running { return Down(exited); }
      if !IsUp(answer) { s := Starting; }
      if s.Starting? || s.Healthy? || (s.Unhealthy? && role.AgentRole?) { seen := seen + {role}; }
    }

    // -------------------------------------------------------------- teardown

    method StopAndRemove(role: Role, ref: Cid) returns (err: bool, ghost o: Outcome, ghost p: Outcome)
      modifies this
      ensures rec == old(rec) && seen == old(seen) - {role} && err == (!o.Ok? || !p.Ok?)
      ensures Counted() && lost == old(lost) && (Smooth() <==> !err)
      ensures OnlyBox(role, old(res), res) && BoxShrinks(BoxOf(old(res), role), BoxOf(res, role))
      ensures var mid := if Happens(o) then StopBox(old(res), role, ref) else old(res);
              res == if Happens(p) then RemoveBox(mid, role, ref) else mid
    {
      var x := ContainerStop(role, ref);
      var y := ContainerRemove(role, ref);
      err := !x.Ok? || !y.Ok?;
      o, p := x, y;
    }

    method DisconnectProxy() returns (o: Outcome)
      modifies this`faults, this`calls, this`res
      ensures faults == old(faults) + if o.Ok? then 0 else 1
      ensures res == if Happens(o) then old(res).(proxied := false) else old(res)
    {
      o := Answer();
      if Happens(o) { res := res.(proxied := false); }
    }

    method NetworkRemove() returns (err: bool, ghost o: Outcome)
      modifies this`faults, this`calls, this`res
      ensures faults == old(faults) + if o.Ok? then 0 else 1
      ensures err == (!o.Ok? || !CanRemoveNet(old(res)))
      ensures res == if Happens(o) && CanRemoveNet(old(res)) then old(res).(net := false) else old(res)
    {
      var x := Answer();
      var can := CanRemoveNet(res);
      if Happens(x) && can { res := res.(net := false); }
      err, o := !x.Ok? || !can, x;
    }

    method RemoveNetwork(ghost a: Record) returns (err: bool, ghost o: Outcome, ghost p: Outcome)
      modifies this
      ensures rec == old(rec) && seen == old(seen) && Counted() && lost == old(lost) && (Smooth() <==> o.Ok? && p.Ok?)
      ensures Shrinks(old(res), res) && res.(net := old(res.net), proxied := old(res.proxied)) == old(res)
      ensures res == Called(Called(old(res), a, 4, o), a, 5, p)
      ensures !err ==> !res.net && !res.proxied && o.Ok? && p.Ok?
      ensures o.Ok? && p.Ok? && res.agent.None? && res.dind.None? ==> !err
    {
      var x := DisconnectProxy();
      err, p := NetworkRemove();
      err, o := err || !x.Ok?, x;
      NetworkCalls(old(res), a, o, p);
    }

    method RemoveVolume(v: Volume) returns (err: bool, ghost o: Outcome)
      requires DaemonOk(res)
      modifies this
      ensures rec == old(rec) && seen == old(seen) && DaemonOk(res) && lost == old(lost)
      ensures faults == old(faults) + (if o.Ok? then 0 else 1)
      ensures err == (!o.Ok? || !CanRemoveVolume(old(res), v))
      ensures res == if Happens(o) && CanRemoveVolume(old(res), v) then SetVolume(old(res), v, false) else old(res)
    {
      var x := Answer();
      var can := CanRemoveVolume(res, v);
      if Happens(x) && can { res := SetVolume(res, v, false); }
      err := !x.Ok? || !can;
      o := x;
    }

    method RemoveVolumes() returns (err: bool, ghost outs: seq<Outcome>)
      requires DaemonOk(res)
      modifies this
      ensures rec == old(rec) && seen == old(seen) && DaemonOk(res) && Shrinks(old(res), res) && |outs| == 3
      ensures Counted() && lost == old(lost) && (Smooth() <==> outs[0].Ok? && outs[1].Ok? && outs[2].Ok?)
      ensures res == VolumesBy(old(res), outs)
      ensures res.agent == old(res.agent) && res.dind == old(res.dind) && res.net == old(res.net) && res.proxied == old(res.proxied)
      ensures !err ==> res.agent.None? && res.dind.None? && !res.workspace && !res.config && !res.cache && Smooth()
      ensures Smooth() && res.agent.None? && res.dind.None? ==> !err
    {
      err, outs := false, [];
      for k := 0 to 3
        invariant rec == old(rec) && seen == old(seen) && |outs| == k && Counted() && lost == old(lost)
        invariant DaemonOk(res) && res == VolumesBy(old(res), outs) && (Smooth() <==> AllOk(outs))
        invariant err <==> VolumesFail(old(res), outs)
      {
        ghost var o;
        var e;
        e, o := RemoveVolume(VolumeAt(k));
        assert (outs + [o])[..k] == outs;
        AllOkNext(outs, o);
        err, outs := err || e, outs + [o];
      }
      VolumesOutcome(old(res), outs);
      assert AllOk(outs) <==> outs[0].Ok? && outs[1].Ok? && outs[2].Ok?;
    }

    /** Both containers go exactly as far as the references reach them. */
    method RemoveContainers(a: Record) returns (err: bool, ghost outs: seq<Outcome>)
      modifies this
      ensures rec == old(rec) && |outs| == 4 && res == Torn(old(res), a, outs)
      ensures err == (!outs[0].Ok? || !outs[1].Ok? || !outs[2].Ok? || !outs[3].Ok?)
      ensures Counted() && lost == old(lost) && (Smooth() <==> !err)
      ensures Shrinks(old(res), res) && res.(agent := old(res.agent), dind := old(res.dind)) == old(res)
      ensures !Reached(old(res.agent), a.cid) ==> res.agent.Some?
      ensures !Reached(old(res.dind), a.dind) ==> res.dind.Some?
      ensures !err && Reaches(old(res), a) ==> res.agent.None? && res.dind.None?
    {
      var e, o, p := StopAndRemove(AgentRole, a.cid);
      ghost var first := [o] + [p];
      assert res == Torn(old(res), a, first) by {
        assert [] + [o] == [o];
        TornNext(old(res), a, [], o);
        TornNext(old(res), a, [o], p);
      }
      var f, x, y := StopAndRemove(DindRole, a.dind);
      assert res == Torn(old(res), a, first + [x] + [y]) by { TornNext(old(res), a, first, x); TornNext(old(res), a, first + [x], y); }
      err, outs := e || f, first + [x] + [y];
    }

    /**
     From any subset of the resources and any pattern of refusals: no error means that nothing
     is left, even when a recorded container ID is outdated.  Apart from faults, an error comes from
     an outdated ID exactly: the container it misses keeps the workspace volume in use.
     The daemon is left as by nine calls of the step system's teardown.
     */
    method Teardown(a: Record) returns (err: bool, ghost outs: seq<Outcome>)
      requires DaemonOk(res)
      modifies this
      ensures rec == old(rec) && DaemonOk(res) && Shrinks(old(res), res) && seen == {}
      ensures |outs| == 9 && res == Torn(old(res), a, outs)
      ensures Counted() && lost == old(lost) && (Smooth() <==> forall i | 0 <= i < 9 :: outs[i].Ok?)
      ensures !err ==> res == NoResources && Smooth()
      ensures !Reaches(old(res), a) ==> err
      ensures Reaches(old(res), a) && Smooth() ==> !err
    {
      err, outs := RemoveContainers(a);
      ghost var four := outs;
      var e, o, p := RemoveNetwork(a);
      err, outs := err || e, four + [o] + [p];
      assert res == Torn(old(res), a, outs) by { TornNext(old(res), a, four, o); TornNext(old(res), a, four + [o], p); }
      ghost var six, last := outs, [];
      e, last := RemoveVolumes();
      err, outs := err || e, six + last;
      assert res == Torn(old(res), a, outs) by { VolumesContinue(old(res), a, six, last); }
      assert six == [outs[0], outs[1], outs[2], outs[3], outs[4], outs[5]] && last == [outs[6], outs[7], outs[8]];
      seen := {};
    }

    /** However far a first teardown got, a second one without faults ends where one clean teardown ends. */
    method TeardownAgain(a: Record) returns (err: bool, ghost between: nat)
      requires DaemonOk(res) && Reaches(res, a)
      modifies this
      ensures rec == old(rec) && old(faults) <= between <= faults
      ensures faults == between ==> !err && res == NoResources
    {
      var _, _ := Teardown(a);
      between := faults;
      var e, _ := Teardown(a);
      err := e;
    }

    // -------------------------------------------------------------- store transactions

    /** Does the transaction commit? */
    method Commit() returns (ok: bool)
      modifies this`faults, this`lost
      ensures faults == old(faults) + (if ok then 0 else 1) && lost == old(lost) + (if ok then 0 else 1)
    {
      ok := *;
      if !ok { faults, lost := faults + 1, lost + 1; }
    }

    /** markRunning and the other unguarded writes: they fail when the record is gone. */
    method Write(r: Record -> Record) returns (ok: bool)
      modifies this`rec, this`faults, this`lost
      ensures Counted() && (lost == old(lost) ==> Smooth())
      ensures ok ==> old(rec).Some? && rec == Some(r(old(rec.value))) && Smooth()
      ensures !ok ==> rec == old(rec)
      ensures Smooth() ==> (ok <==> old(rec).Some?)
    {
      ok := Commit();
      ok := ok && rec.Some?;
      if ok { rec := Some(r(rec.value)); }
    }

    method Forget() returns (ok: bool)
      modifies this`rec, this`faults, this`lost
      ensures rec == if ok then None else old(rec)
      ensures Counted() && (Smooth() <==> ok) && (lost == old(lost) <==> ok)
    {
      ok := Commit();
      if ok { rec := None; }
    }

    /** The status is checked again inside the transaction. */
    method MarkShielded(from: Status) returns (r: Shielded)
      modifies this`rec, this`faults, this`lost
      ensures Counted() && (lost == old(lost) ==> Smooth())
      ensures r.Done? ==> old(rec).Some? && old(rec.value).status == from && rec == Some(old(rec.value).(status := Updating))
      ensures r.StoodDown? ==> rec == old(rec) && rec.Some? && rec.value.status != from
      ensures r.NotWritten? ==> rec == old(rec)
      ensures Smooth() ==> (r.NotWritten? <==> old(rec).None?)
    {
      var ok := Commit();
      if !ok || rec.None? { return NotWritten; }
      if rec.value.status != from { return StoodDown; }
      rec := Some(rec.value.(status := Updating));
      return Done;
    }

    /** The failed write itself is only logged. */
    method MarkRebuildError()
      modifies this`rec, this`faults, this`lost
      ensures Counted()
      ensures rec == old(rec) || (old(rec).Some? && rec == Some(old(rec.value).(status := Errored, cid := 0)))
      ensures lost == old(lost) && old(rec).Some? ==> rec == Some(old(rec.value).(status := Errored, cid := 0))
    {
      var _ := Write((r: Record) => r.(status := Errored, cid := 0));
    }

    // -------------------------------------------------------------- the sidecar

    /** Looks until a look decides, at most `polls` + 1 times; not becoming healthy in that time is a fault. */
    method WaitHealthy(ref: Cid, polls: nat) returns (v: Verdict, ghost looks: seq<Sighting>)
      modifies this
      ensures rec == old(rec) && (res == old(res) || res == StopBox(old(res), DindRole, ref))
      ensures old(seen) <= seen <= old(seen) + {DindRole} && (v.Well? ==> DindRole in seen)
      ensures Counted() && lost == old(lost) && (Smooth() ==> v.Well?)
      ensures 1 <= |looks| <= polls + 1 && forall i | 0 <= i < |looks| - 1 :: !Decides(looks[i])
      ensures (v.Well? <==> looks[|looks| - 1].Healthy?) && (v.Exited? <==> looks[|looks| - 1] == Down(true))
      ensures old(calls) <= calls && (calls == old(calls) ==> Decides(looks[|looks| - 1]) || |looks| == polls + 1)
    {
      looks := [];
      var k := 0;
      while true
        invariant rec == old(rec) && (res == old(res) || res == StopBox(old(res), DindRole, ref))
        invariant old(seen) <= seen <= old(seen) + {DindRole} && Counted() && lost == old(lost)
        invariant |looks| == k <= polls && old(calls) <= calls && forall i | 0 <= i < |looks| :: !Decides(looks[i])
        decreases polls - k
      {
        var s := Inspect(DindRole, ref);
        looks := looks + [s];
        if s.Healthy? { return Well, looks; }
        if s == Down(true) {
          faults := faults + 1;
          return Exited, looks;
        }
        var slept := false;
        if !s.Missing? && !s.Failed? && k < polls { slept := Chance(); }
        if !slept {
          faults := faults + 1;
          return TimedOut, looks;
        }
        k := k + 1;
      }
    }

    method StartDind(a: Record, polls: nat) returns (ok: bool, a': Record)
      requires Furnished(res)
      modifies this
      ensures OnlyBox(DindRole, old(res), res) && OnlyDindId(old(rec), rec) && old(seen) - {DindRole} <= seen
      ensures ok ==> rec == Some(a') && res.dind.Some? && a'.dind == res.dind.value.cid && DindRole in seen
      ensures a' == a || rec == Some(a')
      ensures old(res.dind).None? && a.dind == 0 ==> Reached(res.dind, a'.dind)
      ensures Counted() && (Smooth() ==> (ok <==> old(res.dind).None? && old(rec).Some?))
    {
      a' := a;
      var cid: Cid;
      ok, cid := ContainerCreate(DindRole);
      if !ok { return; }
      ok := Write((r: Record) => r.(dind := cid));
      if !ok { return; }
      a' := rec.value;
      ok := ContainerStart(DindRole, cid);
      if !ok { return; }
      var v, _ := WaitHealthy(cid, polls);
      ok := v.Well?;
    }

    method RecreateDind(a: Record, polls: nat) returns (ok: bool)
      requires Furnished(res)
      modifies this
      ensures OnlyBox(DindRole, old(res), res) && OnlyDindId(old(rec), rec) && old(seen) - {DindRole} <= seen
      ensures ok ==> rec.Some? && res.dind.Some? && rec.value.dind == res.dind.value.cid && DindRole in seen
      ensures Counted() && (Smooth() ==> (ok <==> Reached(old(res.dind), a.dind) && old(rec).Some?))
    {
      var err, _, _ := StopAndRemove(DindRole, a.dind);
      if err { return false; }
      var started, _ := StartDind(a, polls);
      ok := started;
    }

    /** Starts a sidecar that is not running, again while it exits and attempts are left. */
    method StartStopped(a: Record, retries: nat, polls: nat) returns (next: Recovery, ghost starts: nat, ghost waits: seq<Verdict>)
      requires Furnished(res) && Hits(res.dind, a.dind)
      modifies this
      ensures 1 <= starts && |waits| <= starts <= retries + 1 && forall i | 0 <= i < |waits| - 1 :: waits[i].Exited?
      ensures rec == old(rec) && Furnished(res) && OnlyBox(DindRole, old(res), res) && BoxShrinks(old(res.dind), res.dind)
      ensures old(seen) - {DindRole} <= seen && Hits(res.dind, a.dind) && (next.Up? ==> DindRole in seen)
      ensures next.Recreate? ==> waits != [] && (waits[|waits| - 1].TimedOut? || (waits[|waits| - 1].Exited? && |waits| == retries + 1))
      ensures Counted() && old(calls) <= calls && (next.GaveUp? ==> calls > old(calls)) && (Smooth() ==> next.Up?)
    {
      starts, waits := 0, [];
      var attempt := 1;
      while true
        invariant 1 <= attempt <= retries + 1 && starts == attempt - 1 == |waits|
        invariant old(calls) <= calls && (Smooth() ==> waits == []) && forall i | 0 <= i < |waits| :: waits[i].Exited?
        invariant rec == old(rec) && Furnished(res) && OnlyBox(DindRole, old(res), res) && BoxShrinks(old(res.dind), res.dind)
        invariant old(seen) - {DindRole} <= seen && Hits(res.dind, a.dind) && Counted()
        decreases retries + 1 - attempt
      {
        var started := ContainerStart(DindRole, a.dind);
        starts := starts + 1;
        if !started { return GaveUp, starts, waits; }
        var v, _ := WaitHealthy(a.dind, polls);
        waits := waits + [v];
        if v.Well? { return Up, starts, waits; }
        if v.TimedOut? || attempt > retries { return Recreate, starts, waits; }
        var slept := Chance();
        if !slept { return GaveUp, starts, waits; }
        attempt := attempt + 1;
      }
    }

    /**
     Sidecar recovery is bounded and truthful: at most `retries` + 1 starts and one recreate; success
     means the sidecar was observed running and not unhealthy, and that a recreated sidecar's ID is
     in the store; a sidecar that needed nothing is left untouched.  Without faults it succeeds
     whenever the reference reaches a sidecar.  A sidecar that exits is started again while attempts
     are left, one that does not become healthy is recreated, and nothing but a failed call ends the
     recovery before that.
     */
    method EnsureDindRunning(a: Record, retries: nat, polls: nat)
        returns (awoke: bool, ok: bool, ghost starts: nat, ghost recreates: nat, ghost waits: seq<Verdict>)
      requires Furnished(res)
      modifies this
      ensures |waits| <= starts <= retries + 1 && recreates <= 1 && forall i | 0 <= i < |waits| - 1 :: waits[i].Exited?
      ensures recreates == 1 && waits != [] ==> waits[|waits| - 1].TimedOut? || (waits[|waits| - 1].Exited? && |waits| == retries + 1)
      ensures recreates == 0 && calls == old(calls) ==> (ok <==> Hits(old(res.dind), a.dind))
      ensures OnlyBox(DindRole, old(res), res) && OnlyDindId(old(rec), rec) && old(seen) - {DindRole} <= seen
      ensures ok ==> DindRole in seen
      ensures recreates == 0 ==> rec == old(rec) && BoxShrinks(old(res.dind), res.dind)
      ensures recreates == 0 && ok ==> Hits(res.dind, a.dind)
      ensures recreates == 1 && ok ==> rec.Some? && res.dind.Some? && rec.value.dind == res.dind.value.cid
      ensures ok ==> (awoke <==> starts + recreates > 0)
      ensures ok && !awoke ==> rec == old(rec) && res == old(res)
      ensures Counted() && (Smooth() && old(rec).Some? ==> (ok <==> Hits(old(res.dind), a.dind)))
    {
      starts, recreates, awoke, waits := 0, 0, false, [];
      var s := Inspect(DindRole, a.dind);
      if s.Missing? || s.Failed? { return false, false, 0, 0, []; }
      if s.Unhealthy? {
        recreates := 1;
        ok := RecreateDind(a, polls);
        awoke := ok;
        return;
      }
      if IsUp(s) { return false, true, 0, 0, []; }
      var next;
      next, starts, waits := StartStopped(a, retries, polls);
      match next
      case Up => return true, true, starts, 0, waits;
      case GaveUp => return false, false, starts, 0, waits;
      case Recreate =>
        recreates := 1;
        ok := RecreateDind(a, polls);
        awoke := ok;
    }

    // -------------------------------------------------------------- the agent container

    /** startAgentContainer, then the wait for its tmux session. */
    method StartAgent(a: Record) returns (ok: bool, a': Record)
      requires Furnished(res)
      modifies this
      ensures OnlyBox(AgentRole, old(res), res) && (DindRole in old(seen) ==> DindRole in seen)
      ensures a' == a || rec == Some(a')
      ensures rec == old(rec) || (old(rec).Some? && rec.Some? && rec.value == old(rec.value).(cid := rec.value.cid))
      ensures ok ==> rec == Some(a') && res.agent.Some? && a'.cid == res.agent.value.cid && res.agent.value.running && AgentRole in seen
      ensures old(res.agent).None? && a.cid == 0 ==> Reached(res.agent, a'.cid)
      ensures Counted() && (Smooth() ==> (ok <==> old(res.agent).None? && old(rec).Some?))
    {
      a' := a;
      var cid: Cid;
      ok, cid := ContainerCreate(AgentRole);
      if !ok { return; }
      ok := Write((r: Record) => r.(cid := cid));
      if !ok { return; }
      a' := rec.value;
      ok := ContainerStart(AgentRole, cid);
      if !ok { return; }
      ok := Chance();
      if ok { seen := seen + {AgentRole}; }
    }

    // -------------------------------------------------------------- create

    method CreateVolumes() returns (ok: bool)
      modifies this
      ensures rec == old(rec) && seen == old(seen) && Counted() && (Smooth() ==> ok)
      ensures res.agent == old(res.agent) && res.dind == old(res.dind) && res.net == old(res.net) && res.proxied == old(res.proxied)
      ensures ok ==> AllVolumes(res)
    {
      for k := 0 to 3
        invariant rec == old(rec) && seen == old(seen) && Counted()
        invariant res.agent == old(res.agent) && res.dind == old(res.dind) && res.net == old(res.net) && res.proxied == old(res.proxied)
        invariant (k > 0 ==> res.workspace) && (k > 1 ==> res.config) && (k > 2 ==> res.cache)
      {
        var o := Answer();
        if Happens(o) { res := SetVolume(res, VolumeAt(k), true); }
        if !o.Ok? { return false; }
      }
      return true;
    }

    /** createDinernet, or connectDependaproxy when the network is there. */
    method SetNet(connect: bool) returns (ok: bool)
      modifies this
      ensures rec == old(rec) && seen == old(seen) && Counted() && (Smooth() ==> (ok <==> old(res.net) == connect))
      ensures res.(net := old(res.net), proxied := old(res.proxied)) == old(res)
      ensures connect ==> res.net == old(res.net)
      ensures ok ==> if connect then res.proxied && res.net else res.net
    {
      var o := Answer();
      var can := res.net == connect;
      if Happens(o) && can {
        res := if connect then res.(proxied := true) else res.(net := true);
      }
      ok := o.Ok? && can;
    }

    /** The whole create sequence.  Wherever it stops, the caller's references reach what exists. */
    method Build(r: Record, polls: nat) returns (ok: bool, a: Record)
      requires rec == Some(r) && r.cid == 0 && r.dind == 0 && res == NoResources
      modifies this
      ensures DaemonOk(res) && Reaches(res, a) && Counted() && (Smooth() ==> ok)
      ensures rec.Some?
      ensures ok ==> Whole(rec.value, res) && BothSeen()
    {
      a := r;
      ok := Chance();                        // names, images, file store
      if !ok { return; }
      ok := CreateVolumes();
      if !ok { return; }
      ok := SetNet(false);
      if !ok { return; }
      ok, a := StartDind(a, polls);
      if !ok { return; }
      ok := SetNet(true);
      if !ok { return; }
      ok, a := StartAgent(a);
      if !ok { return; }
      ok := Write((x: Record) => x.(status := Running));
    }

    /** The teardown goes first; the record goes whether it worked or not. */
    method Rollback(a: Record)
      requires DaemonOk(res) && Reaches(res, a)
      modifies this
      ensures Counted() && (Smooth() ==> rec.None? && res == NoResources)
      ensures lost == old(lost) ==> rec.None?
    {
      var _, _ := Teardown(a);
      var _ := Forget();
    }

    /**
     Create is all or nothing.  A request refused by the cap or by a taken ID changes nothing; a
     failure at any later step restores the state before the call unless the rollback itself meets a
     fault; success means a complete agent whose containers were seen running; and without faults a
     request that finds a slot and a free ID succeeds.
     */
    method Create(full: bool, polls: nat) returns (ok: bool, ghost atFailure: nat)
      requires rec.None? ==> res == NoResources
      modifies this
      ensures ok ==> old(rec).None? && !full && rec.Some? && Whole(rec.value, res) && BothSeen()
      ensures old(rec).Some? || full ==> !ok && rec == old(rec) && res == old(res)
      ensures old(faults) <= atFailure <= faults && (!ok && faults == atFailure ==> rec == old(rec) && res == old(res))
      ensures Smooth() ==> (ok <==> old(rec).None? && !full)
    {
      atFailure := faults;
      var inserted := Commit();
      if !inserted || full || rec.Some? { return false, faults; }
      var r := Record(Creating, 0, 0);
      rec := Some(r);
      var a;
      ok, a := Build(r, polls);
      atFailure := faults;
      if !ok { Rollback(a); }
    }

    /**
     Deleting twice is deleting once; a failed delete leaves a Deleting record behind for the next attempt.
     Without faults it succeeds exactly when the recorded IDs reach the containers.
     */
    method Delete() returns (ok: bool)
      requires DaemonOk(res)
      modifies this
      ensures Counted() && (Smooth() ==> (ok <==> (old(rec).Some? ==> Reaches(old(res), old(rec).value))))
      ensures ok ==> rec.None? && (old(rec).Some? ==> res == NoResources)
      ensures old(rec).None? ==> rec.None? && res == old(res)
      ensures !ok ==> rec == old(rec) || (old(rec).Some? && rec == Some(old(rec.value).(status := Deleting)))
      ensures !ok && lost == old(lost) ==> old(rec).Some? && rec == Some(old(rec).value.(status := Deleting))
      ensures old(rec).Some? && !Reaches(old(res), old(rec).value) ==> !ok
      ensures Shrinks(old(res), res)
    {
      var readable := Commit();
      if !readable { return false; }
      if rec.None? { return true; }
      if !rec.value.status.Deleting? {
        ok := Write((x: Record) => x.(status := Deleting));
        if !ok { return; }
      }
      var err, _ := Teardown(rec.value);
      if err { return false; }
      ok := Forget();
    }

    // -------------------------------------------------------------- wake-up and cleanup

    /** The record is shielded; any failure marks it Errored. */
    method Rebuild(a: Record) returns (ok: bool)
      requires Furnished(res)
      modifies this
      ensures OnlyBox(AgentRole, old(res), res) && (DindRole in old(seen) ==> DindRole in seen)
      ensures rec.Some? == old(rec).Some? && (rec.Some? ==> rec.value.dind == old(rec.value).dind)
      ensures rec.Some? ==> rec.value.status in {old(rec.value).status, Errored, Running}
      ensures ok ==> rec.Some? && rec.value.status.Running? && AgentRole in seen
      ensures ok ==> res.agent.Some? && rec.value.cid == res.agent.value.cid && res.agent.value.running
      ensures !ok && rec.Some? && lost == old(lost) ==> rec.value.status.Errored? && rec.value.cid == 0
      ensures Counted() && (Smooth() ==> (ok <==> Reached(old(res.agent), a.cid) && old(rec).Some?))
    {
      var err, _, _ := StopAndRemove(AgentRole, a.cid);
      ok := !err;
      if ok {
        var started, _ := StartAgent(a);
        ok := started;
      }
      if ok { ok := Write((x: Record) => x.(status := Running)); }
      if !ok { MarkRebuildError(); }
    }

    /**
     Waking an agent.  Without faults an agent whose record is as listed and whose containers are both
     there comes back: its running container is left alone, a stopped one is replaced.  Success on a Running
     record means Running, both containers seen, under IDs the record reaches; an agent that needed nothing is
     left exactly as it was; a failure marks the record Errored; volumes and network are kept on every path.
     */
    method WakeAgent(a: Record, retries: nat, polls: nat) returns (awoke: bool, ok: bool)
      requires Furnished(res)
      modifies this
      ensures SameStorage(old(res), res)
      ensures rec.Some? == old(rec).Some?
      ensures rec.Some? ==> rec.value.status in {old(rec.value).status, Updating, Errored, Running}
      ensures ok && rec.Some? && old(rec.value).status.Running? ==> rec.value.status.Running? && BothSeen()
      ensures ok && old(rec) == Some(a) && a.status.Running? ==> Intact(res, rec.value)
      ensures ok && !awoke && rec.Some? && old(rec.value).status.Running? ==> rec == old(rec) && res == old(res)
      ensures !ok && rec.Some? && lost == old(lost) ==> rec.value.status.Errored? && rec.value.cid == 0
      ensures Counted() && (Smooth() && old(rec) == Some(a) && a.status.Running? ==> (ok <==> Intact(old(res), a)))
      ensures Smooth() && ok && old(rec) == Some(a) && a.status.Running? ==>
                if old(res.agent).value.running then res.agent == old(res.agent) else awoke && rec.value.cid == res.agent.value.cid
    {
      seen := {};
      var dindAwoke, up, _, _, _ := EnsureDindRunning(a, retries, polls);
      if !up { MarkRebuildError(); return false, false; }
      var s := Inspect(AgentRole, a.cid);
      if s.Missing? || s.Failed? { MarkRebuildError(); return false, false; }
      if IsUp(s) { return dindAwoke, true; }
      var resolved := Chance();
      if !resolved { MarkRebuildError(); return false, false; }
      var shield := MarkShielded(Running);
      match shield
      case NotWritten => MarkRebuildError(); return false, false;
      case StoodDown => return false, true;
      case Done =>
        ok := Rebuild(a);
        awoke := ok;
    }

    /** A stuck update is marked, a stuck create or delete is torn down and forgotten. */
    method CleanupStuckRecord(a: Record) returns (ok: bool)
      requires rec == Some(a) && MayBeStuck(a.status) && DaemonOk(res)
      modifies this
      ensures Counted() && (Smooth() ==> (ok <==> a.status.Updating? || Reaches(old(res), a)))
      ensures a.status.Updating? ==> res == old(res) && rec == if ok then Some(a.(status := Errored)) else old(rec)
      ensures !a.status.Updating? ==> Shrinks(old(res), res) && (if ok then rec.None? && res == NoResources else rec == old(rec))
    {
      if a.status.Updating? {
        ok := Write((x: Record) => x.(status := Errored));
        return;
      }
      var err, _ := Teardown(a);
      if err { return false; }
      ok := Forget();
    }
  }
}
