/**
 The reconcile pass: the report of unmanaged resources, the sweep over stuck records and the
 wake-up of running ones.
 */
module Reconcile {
  import opened Agents
  import opened Lifecycle
  import opened LifecycleInvariant
  import opened LifecycleSafety
  import opened Manager
  import opened Registry

  // ---------------------------------------------------------------- unmanaged resources

  /** A managed-labelled container, network or volume; `owner` is its agent-id label, "" when it has none. */
  datatype Labelled = Labelled(kind: string, name: string, owner: Id)

  ghost function Unknown(s: seq<Labelled>, known: set<Id>): seq<Labelled> {
    if s == [] then []
    else
      var n := |s| - 1;
      Unknown(s[..n], known) + if s[n].owner !in known then [s[n]] else []
  }

  /** A resource without an owner is never kept back. */
  ghost function Idle(s: seq<Labelled>, busy: multiset<Id>): seq<Labelled> {
    if s == [] then []
    else
      var n := |s| - 1;
      Idle(s[..n], busy) + if s[n].owner == "" || s[n].owner !in busy then [s[n]] else []
  }

  /** appendIfUnmanaged over the listings of containers, networks and volumes. */
  method FindUnmanaged(s: seq<Labelled>, known: set<Id>) returns (out: seq<Labelled>)
    ensures out == Unknown(s, known)
  {
    out := [];
    for k := 0 to |s|
      invariant out == Unknown(s[..k], known)
    {
      assert s[..k + 1][..k] == s[..k];
      if s[k].owner !in known { out := out + [s[k]]; }
    }
    assert s[..|s|] == s;
  }

  /** Drops the resources of agents that are being worked on. */
  method ReportUnmanaged(s: seq<Labelled>, ops: OpRegistry) returns (out: seq<Labelled>)
    requires ops.Valid()
    ensures out == Idle(s, ops.holders)
  {
    out := [];
    for k := 0 to |s|
      invariant out == Idle(s[..k], ops.holders)
    {
      assert s[..k + 1][..k] == s[..k];
      var busy := ops.Busy(s[k].owner);
      if s[k].owner == "" || !busy { out := out + [s[k]]; }
    }
    assert s[..|s|] == s;
  }

  lemma {:induction false} UnknownExactly(s: seq<Labelled>, known: set<Id>, u: Labelled)
    ensures u in Unknown(s, known) <==> u in s && u.owner !in known
  {
    if s != [] {
      var n := |s| - 1;
      UnknownExactly(s[..n], known, u);
      assert s == s[..n] + [s[n]];
    }
  }

  lemma {:induction false} IdleExactly(s: seq<Labelled>, busy: multiset<Id>, u: Labelled)
    ensures u in Idle(s, busy) <==> u in s && (u.owner == "" || u.owner !in busy)
  {
    if s != [] {
      var n := |s| - 1;
      IdleExactly(s[..n], busy, u);
      assert s == s[..n] + [s[n]];
    }
  }

  /** The report is exactly the labelled resources no listed record claims and no operation is working on. */
  lemma ReportExactly(s: seq<Labelled>, known: set<Id>, busy: multiset<Id>)
    ensures forall u :: u in Idle(Unknown(s, known), busy) <==>
              u in s && u.owner !in known && (u.owner == "" || u.owner !in busy)
  {
    forall u ensures u in Idle(Unknown(s, known), busy) <==> u in s && u.owner !in known && (u.owner == "" || u.owner !in busy) {
      UnknownExactly(s, known, u);
      IdleExactly(Unknown(s, known), busy, u);
    }
  }

  // ---------------------------------------------------------------- what the pass does to one agent

  predicate SiteOk(rec: Option<Record>, res: Resources) {
    DaemonOk(res) && rec.Some? && (Settled(rec.value.status) ==> Furnished(res))
  }

  /** After the sweep over stuck records. */
  predicate Swept(r0: Record, res0: Resources, rec: Option<Record>, res: Resources, held: bool, ok: bool) {
    if held || !MayBeStuck(r0.status) then rec == Some(r0) && res == res0
    else if r0.status.Updating? then
      res == res0 && (rec == Some(r0.(status := Errored)) || (!ok && rec == Some(r0)))
    else
      Shrinks(res0, res) && ((rec.None? && res == NoResources) || (!ok && rec == Some(r0)))
  }

  /** After the wake-up of running records. */
  predicate Settles(r0: Record, res0: Resources, rec: Option<Record>, res: Resources, both: bool, held: bool, ok: bool) {
    if held || !r0.status.Running? then Swept(r0, res0, rec, res, held, ok)
    else
      && SameStorage(res0, res) && rec.Some?
      && rec.value.status in {Running, Updating, Errored}
      && (ok ==> rec.value.status.Running? && both && Intact(res, rec.value))
  }

  /** A listed agent as it was when the pass began. */
  datatype Listed = Listed(id: Id, rec: Record, res: Resources, faults: nat)

  /** The recorded IDs reach what the pass has to wake or to remove. */
  predicate Recoverable(x: Listed) {
    match x.rec.status
    case Running => Intact(x.res, x.rec)
    case Creating => Reaches(x.res, x.rec)
    case Deleting => Reaches(x.res, x.rec)
    case _ => true
  }

  /** The pass began with these agents; they are distinct and each is in order. */
  ghost predicate Snapshot(listed: seq<Site>, agents: seq<Record>, snap: seq<Listed>) {
    && |listed| == |agents| == |snap|
    && (forall i, j | 0 <= i < j < |listed| :: listed[i] != listed[j])
    && (forall j | 0 <= j < |listed| ::
          snap[j].id == listed[j].id && snap[j].rec == agents[j] && SiteOk(Some(snap[j].rec), snap[j].res))
  }

  /** What the pass has made of an agent so far. */
  datatype Now = Now(rec: Option<Record>, res: Resources, both: bool, faults: nat)

  ghost function Look(x: Site): Now
    reads x
  {
    Now(x.rec, x.res, x.BothSeen(), x.faults)
  }

  ghost predicate Mirrors(listed: seq<Site>, now: seq<Now>)
    reads listed
  {
    |now| == |listed| && forall j | 0 <= j < |listed| :: Look(listed[j]) == now[j]
  }

  /** An agent that accounts for an error of the pass: it met a fault, or its IDs do not reach its containers. */
  ghost predicate Culprit(x: Listed, y: Now, held: multiset<Id>) {
    x.id !in held && (MayBeStuck(x.rec.status) || x.rec.status.Running?) && (y.faults != x.faults || !Recoverable(x))
  }

  ghost predicate Excused(snap: seq<Listed>, now: seq<Now>, held: multiset<Id>)
    requires |now| == |snap|
  {
    exists j :: 0 <= j < |snap| && Culprit(snap[j], now[j], held)
  }

  ghost predicate AllSwept(snap: seq<Listed>, now: seq<Now>, held: multiset<Id>, n: nat, ok: bool) {
    && |now| == |snap| && (ok || Excused(snap, now, held))
    && (forall j | 0 <= j < n && j < |snap| :: Swept(snap[j].rec, snap[j].res, now[j].rec, now[j].res, snap[j].id in held, ok))
    && (forall j | n <= j < |snap| :: now[j].rec == Some(snap[j].rec) && now[j].res == snap[j].res)
    && (forall j | 0 <= j < |snap| && (n <= j || snap[j].rec.status.Running?) :: now[j].faults == snap[j].faults)
  }

  ghost predicate AllSettled(snap: seq<Listed>, now: seq<Now>, held: multiset<Id>, n: nat, ok: bool) {
    && |now| == |snap| && (ok || Excused(snap, now, held))
    && (forall j | 0 <= j < n && j < |snap| :: Settles(snap[j].rec, snap[j].res, now[j].rec, now[j].res, now[j].both, snap[j].id in held, ok))
    && (forall j | n <= j < |snap| :: Swept(snap[j].rec, snap[j].res, now[j].rec, now[j].res, snap[j].id in held, ok))
    && (forall j | n <= j < |snap| && snap[j].rec.status.Running? :: now[j].faults == snap[j].faults)
  }

  lemma ExcuseStays(snap: seq<Listed>, now: seq<Now>, held: multiset<Id>, i: nat, x: Now)
    requires |now| == |snap| && i < |snap| && Excused(snap, now, held)
    requires now[i].faults == snap[i].faults || x == now[i]
    ensures Excused(snap, now[i := x], held)
  {
    var j :| 0 <= j < |snap| && Culprit(snap[j], now[j], held);
    assert Culprit(snap[j], now[i := x][j], held);
  }

  lemma SweepNext(snap: seq<Listed>, now: seq<Now>, held: multiset<Id>, i: nat, x: Now, ok: bool, fine: bool)
    requires i < |snap| && AllSwept(snap, now, held, i, ok)
    requires Swept(snap[i].rec, snap[i].res, x.rec, x.res, snap[i].id in held, fine)
    requires fine || Culprit(snap[i], x, held)
    requires snap[i].rec.status.Running? ==> x.faults == now[i].faults
    ensures AllSwept(snap, now[i := x], held, i + 1, ok && fine)
  {
    if !ok { ExcuseStays(snap, now, held, i, x); }
    else if !fine { assert Culprit(snap[i], now[i := x][i], held); }
  }

  lemma WakeNext(snap: seq<Listed>, now: seq<Now>, held: multiset<Id>, i: nat, x: Now, ok: bool, fine: bool)
    requires i < |snap| && AllSettled(snap, now, held, i, ok)
    requires Settles(snap[i].rec, snap[i].res, x.rec, x.res, x.both, snap[i].id in held, ok && fine)
    requires fine || Culprit(snap[i], x, held)
    requires snap[i].rec.status.Running? || x == now[i]
    ensures AllSettled(snap, now[i := x], held, i + 1, ok && fine)
  {
    if !ok { ExcuseStays(snap, now, held, i, x); }
    else if !fine { assert Culprit(snap[i], now[i := x][i], held); }
  }

  lemma WakeStarts(snap: seq<Listed>, now: seq<Now>, held: multiset<Id>, ok: bool)
    requires AllSwept(snap, now, held, |snap|, ok)
    ensures AllSettled(snap, now, held, 0, ok)
  {
  }

  /** The held agents on which the pass would have acted. */
  ghost function Skipped(snap: seq<Listed>, stuck: bool, held: multiset<Id>, n: nat): seq<Id>
    requires n <= |snap|
  {
    if n == 0 then []
    else
      var x := snap[n - 1];
      Skipped(snap, stuck, held, n - 1) + if Acts(x.rec, stuck) && x.id in held then [x.id] else []
  }

  lemma {:induction false} SkippedExactly(snap: seq<Listed>, stuck: bool, held: multiset<Id>, n: nat, x: Id)
    requires n <= |snap|
    ensures x in Skipped(snap, stuck, held, n) <==> x in held && exists j :: 0 <= j < n && Acts(snap[j].rec, stuck) && snap[j].id == x
  {
    if n > 0 {
      SkippedExactly(snap, stuck, held, n - 1, x);
      assert x == snap[n - 1].id && x in held && Acts(snap[n - 1].rec, stuck) ==> x in Skipped(snap, stuck, held, n);
    }
  }

  predicate Acts(r: Record, stuck: bool) {
    if stuck then MayBeStuck(r.status) else r.status.Running?
  }

  /** A stuck record nobody holds: cleaned up, or left with a reason. */
  method SweepStuck(site: Site, a: Record) returns (fine: bool)
    requires site.rec == Some(a) && MayBeStuck(a.status) && SiteOk(site.rec, site.res)
    modifies site
    ensures Swept(a, old(site.res), site.rec, site.res, false, fine)
    ensures fine || site.faults != old(site.faults) || !Recoverable(Listed(site.id, a, old(site.res), old(site.faults)))
  {
    fine := site.CleanupStuckRecord(a);
  }

  /** One agent of the sweep: a held one is left alone. */
  method SweepOne(site: Site, a: Record, ops: OpRegistry) returns (skip: bool, fine: bool)
    requires ops.Valid() && site.rec == Some(a) && SiteOk(site.rec, site.res)
    modifies site, ops
    ensures ops.Valid() && ops.holders == old(ops.holders)
    ensures Swept(a, old(site.res), site.rec, site.res, site.id in ops.holders, fine)
    ensures skip <==> MayBeStuck(a.status) && site.id in ops.holders
    ensures fine || Culprit(Listed(site.id, a, old(site.res), old(site.faults)), Look(site), ops.holders)
    ensures a.status.Running? ==> site.faults == old(site.faults)
  {
    if !MayBeStuck(a.status) { return false, true; }
    var mine := ops.TryBegin(site.id);
    if !mine { return true, true; }
    fine := SweepStuck(site, a);
    ops.Release(site.id);
    skip := false;
  }

  method SweepAt(listed: seq<Site>, agents: seq<Record>, ghost snap: seq<Listed>, ghost before: seq<Now>, ops: OpRegistry, i: nat, skipped: seq<Id>, ok: bool)
      returns (skipped': seq<Id>, ok': bool, ghost now: seq<Now>)
    requires ops.Valid() && Snapshot(listed, agents, snap) && Mirrors(listed, before) && i < |listed|
    requires AllSwept(snap, before, ops.holders, i, ok) && skipped == Skipped(snap, true, ops.holders, i)
    modifies listed, ops
    ensures ops.Valid() && ops.holders == old(ops.holders) && Mirrors(listed, now)
    ensures AllSwept(snap, now, ops.holders, i + 1, ok') && skipped' == Skipped(snap, true, ops.holders, i + 1)
  {
    assert Look(listed[i]) == before[i];
    var skip, fine := SweepOne(listed[i], agents[i], ops);
    SweepNext(snap, before, ops.holders, i, Look(listed[i]), ok, fine);
    skipped' := if skip then skipped + [listed[i].id] else skipped;
    now, ok' := before[i := Look(listed[i])], ok && fine;
  }

  method Sweep(listed: seq<Site>, agents: seq<Record>, ghost snap: seq<Listed>, ghost before: seq<Now>, ops: OpRegistry)
      returns (skipped: seq<Id>, ok: bool, ghost now: seq<Now>)
    requires ops.Valid() && Snapshot(listed, agents, snap) && Mirrors(listed, before)
    requires AllSwept(snap, before, ops.holders, 0, true)
    modifies listed, ops
    ensures ops.Valid() && ops.holders == old(ops.holders) && Mirrors(listed, now)
    ensures AllSwept(snap, now, ops.holders, |listed|, ok)
    ensures skipped == Skipped(snap, true, ops.holders, |snap|)
  {
    skipped, ok, now := [], true, before;
    for i := 0 to |listed|
      invariant ops.Valid() && ops.holders == old(ops.holders) && Mirrors(listed, now)
      invariant AllSwept(snap, now, ops.holders, i, ok) && skipped == Skipped(snap, true, ops.holders, i)
    {
      skipped, ok, now := SweepAt(listed, agents, snap, now, ops, i, skipped, ok);
    }
  }

  /** One agent of the wake-up, after the sweep. */
  method WakeOne(site: Site, a: Record, ghost x: Listed, ghost swept: bool, ops: OpRegistry, retries: nat, polls: nat)
      returns (skip: bool, fine: bool)
    requires ops.Valid() && x.id == site.id && x.rec == a && SiteOk(Some(a), x.res)
    requires Swept(a, x.res, site.rec, site.res, site.id in ops.holders, swept)
    requires a.status.Running? ==> site.faults == x.faults
    modifies site, ops
    ensures ops.Valid() && ops.holders == old(ops.holders)
    ensures skip <==> a.status.Running? && site.id in ops.holders
    ensures Settles(a, x.res, site.rec, site.res, site.BothSeen(), site.id in ops.holders, swept && fine)
    ensures fine || Culprit(x, Look(site), ops.holders)
    ensures !a.status.Running? ==> Look(site) == old(Look(site))
  {
    if !a.status.Running? { return false, true; }
    var mine := ops.TryBegin(site.id);
    if !mine { return true, true; }
    var awoke;
    awoke, fine := site.WakeAgent(a, retries, polls);
    ops.Release(site.id);
    skip := false;
  }

  method WakeAt(listed: seq<Site>, agents: seq<Record>, ghost snap: seq<Listed>, ghost before: seq<Now>, ops: OpRegistry, i: nat, skipped: seq<Id>,
                ok: bool, retries: nat, polls: nat)
      returns (skipped': seq<Id>, ok': bool, ghost now: seq<Now>)
    requires ops.Valid() && Snapshot(listed, agents, snap) && Mirrors(listed, before) && i < |listed|
    requires AllSettled(snap, before, ops.holders, i, ok) && skipped == Skipped(snap, false, ops.holders, i)
    modifies listed, ops
    ensures ops.Valid() && ops.holders == old(ops.holders) && Mirrors(listed, now)
    ensures AllSettled(snap, now, ops.holders, i + 1, ok') && skipped' == Skipped(snap, false, ops.holders, i + 1)
  {
    assert Look(listed[i]) == before[i];
    assert Swept(snap[i].rec, snap[i].res, before[i].rec, before[i].res, snap[i].id in ops.holders, ok);
    var skip, fine := WakeOne(listed[i], agents[i], snap[i], ok, ops, retries, polls);
    WakeNext(snap, before, ops.holders, i, Look(listed[i]), ok, fine);
    skipped' := if skip then skipped + [listed[i].id] else skipped;
    now, ok' := before[i := Look(listed[i])], ok && fine;
  }

  method Wake(listed: seq<Site>, agents: seq<Record>, ghost snap: seq<Listed>, ghost before: seq<Now>, ops: OpRegistry,
              swept: bool, retries: nat, polls: nat)
      returns (skipped: seq<Id>, ok: bool, ghost now: seq<Now>)
    requires ops.Valid() && Snapshot(listed, agents, snap) && Mirrors(listed, before)
    requires AllSettled(snap, before, ops.holders, 0, swept)
    modifies listed, ops
    ensures ops.Valid() && ops.holders == old(ops.holders) && Mirrors(listed, now)
    ensures AllSettled(snap, now, ops.holders, |listed|, ok)
    ensures skipped == Skipped(snap, false, ops.holders, |snap|)
  {
    skipped, ok, now := [], swept, before;
    for i := 0 to |listed|
      invariant ops.Valid() && ops.holders == old(ops.holders) && Mirrors(listed, now)
      invariant AllSettled(snap, now, ops.holders, i, ok) && skipped == Skipped(snap, false, ops.holders, i)
    {
      skipped, ok, now := WakeAt(listed, agents, snap, now, ops, i, skipped, ok, retries, polls);
    }
  }

  /** What a pass leaves of one agent. */
  predicate Recovered(y: Now) {
    y.rec.Some? ==> y.rec.value.status in {Running, Stopped, Errored} && (y.rec.value.status.Running? ==> y.both && Intact(y.res, y.rec.value))
  }

  /**
   A held agent is untouched, and so is a stopped or failed one.  A pass without errors leaves every
   other agent recovered, and removes a half-built or half-removed one with everything it had.  With or
   without errors, an agent that was neither being created nor deleted keeps its record, network and volumes.
   */
  predicate PassResult(x: Listed, y: Now, held: bool, ok: bool) {
    && (held ==> y.rec == Some(x.rec) && y.res == x.res)
    && (x.rec.status.Stopped? || x.rec.status.Errored? ==> y.rec == Some(x.rec) && y.res == x.res)
    && (ok && !held ==> Recovered(y) && (x.rec.status.Running? ==> y.rec.Some? && y.rec.value.status.Running?))
    && (ok && !held && !Settled(x.rec.status) ==> y.rec.None? && y.res == NoResources)
    && (Settled(x.rec.status) ==> SameStorage(x.res, y.res) && y.rec.Some? && Settled(y.rec.value.status))
  }

  lemma PassMeaning(x: Listed, y: Now, held: bool, ok: bool)
    requires Settles(x.rec, x.res, y.rec, y.res, y.both, held, ok)
    ensures PassResult(x, y, held, ok)
  {
  }

  /** The part of the pass that acts: the sweep, then the wake-up. */
  method Work(listed: seq<Site>, agents: seq<Record>, ghost snap: seq<Listed>, ops: OpRegistry, retries: nat, polls: nat)
      returns (skipped: seq<Id>, ok: bool)
    requires ops.Valid() && Snapshot(listed, agents, snap)
    requires forall j | 0 <= j < |listed| :: listed[j].rec == Some(snap[j].rec) && listed[j].res == snap[j].res && listed[j].faults == snap[j].faults
    modifies listed, ops
    ensures ops.Valid() && ops.holders == old(ops.holders)
    ensures forall j | 0 <= j < |listed| :: PassResult(snap[j], Look(listed[j]), snap[j].id in ops.holders, ok)
    ensures ok || exists j :: 0 <= j < |listed| && Culprit(snap[j], Look(listed[j]), ops.holders)
    ensures skipped == Skipped(snap, true, ops.holders, |snap|) + Skipped(snap, false, ops.holders, |snap|)
  {
    ghost var now := seq(|listed|, j requires 0 <= j < |listed| reads listed => Look(listed[j]));
    var first, swept, second;
    first, swept, now := Sweep(listed, agents, snap, now, ops);
    WakeStarts(snap, now, ops.holders, swept);
    second, ok, now := Wake(listed, agents, snap, now, ops, swept, retries, polls);
    skipped := first + second;
    forall j | 0 <= j < |listed| ensures PassResult(snap[j], Look(listed[j]), snap[j].id in ops.holders, ok) {
      PassMeaning(snap[j], now[j], snap[j].id in ops.holders, ok);
    }
    if !ok {
      ghost var j :| 0 <= j < |snap| && Culprit(snap[j], now[j], ops.holders);
      assert Look(listed[j]) == now[j];
    }
  }

  /** The part of the pass that only looks. */
  method Report(listed: seq<Site>, ghost agents: seq<Record>, ghost snap: seq<Listed>, labelled: seq<Labelled>, ops: OpRegistry)
      returns (unmanaged: seq<Labelled>)
    requires ops.Valid() && Snapshot(listed, agents, snap)
    ensures forall u :: u in unmanaged <==> u in labelled && Unclaimed(snap, u.owner) && (u.owner == "" || u.owner !in ops.holders)
  {
    var known := set i | 0 <= i < |listed| :: listed[i].id;
    assert forall x :: x in known <==> !Unclaimed(snap, x);
    var found := FindUnmanaged(labelled, known);
    unmanaged := ReportUnmanaged(found, ops);
    ReportExactly(labelled, known, ops.holders);
  }

  /** A site whose ID no listed record has is not among the listed ones. */
  lemma ForeignSite(listed: seq<Site>, agents: seq<Record>, snap: seq<Listed>, x: Site)
    requires Snapshot(listed, agents, snap) && Unclaimed(snap, x.id)
    ensures x !in listed
  {
  }

  /**
   One pass over the listed records: what becomes of each of them, which resources are reported as
   unmanaged -- the sites no listed record claims are not touched -- and which agents are reported as skipped.
   */
  method Pass(listed: seq<Site>, agents: seq<Record>, ghost snap: seq<Listed>, readable: bool, labelled: Option<seq<Labelled>>,
              ghost all: set<Site>, ops: OpRegistry, retries: nat, polls: nat)
      returns (skipped: seq<Id>, unmanaged: seq<Labelled>, ok: bool)
    requires ops.Valid() && Snapshot(listed, agents, snap)
    requires forall j | 0 <= j < |listed| :: listed[j].rec == Some(snap[j].rec) && listed[j].res == snap[j].res && listed[j].faults == snap[j].faults
    modifies listed, ops
    ensures ops.Valid() && ops.holders == old(ops.holders)
    ensures forall j | 0 <= j < |listed| :: PassResult(snap[j], Look(listed[j]), snap[j].id in ops.holders, ok)
    ensures ok || !readable || labelled.None? || exists j :: 0 <= j < |listed| && Culprit(snap[j], Look(listed[j]), ops.holders)
    ensures readable && labelled.Some? ==>
              forall u :: u in unmanaged <==> u in labelled.value && Unclaimed(snap, u.owner) && (u.owner == "" || u.owner !in ops.holders)
    ensures forall x | x in all && Unclaimed(snap, x.id) :: x.rec == old(x.rec) && x.res == old(x.res)
    ensures readable && labelled.Some? ==>
              skipped == Skipped(snap, true, ops.holders, |snap|) + Skipped(snap, false, ops.holders, |snap|)
  {
    skipped, unmanaged := [], [];
    if !readable || labelled.None? { return [], [], false; }      // the store listing, or one of the daemon's, failed
    unmanaged := Report(listed, agents, snap, labelled.value, ops);
    forall x | x in all && Unclaimed(snap, x.id) ensures x !in listed { ForeignSite(listed, agents, snap, x); }
    skipped, ok := Work(listed, agents, snap, ops, retries, polls);
  }

  /** No listed record has this ID. */
  predicate Unclaimed(snap: seq<Listed>, id: Id) {
    forall j | 0 <= j < |snap| :: snap[j].id != id
  }

  /** The state right after a crash at the end of a run. */
  function Crashed(acts: seq<Action>, cap: nat): State {
    Next(After(Init, acts, cap), Crash, cap)
  }

  /**
   A crash at any point of any run leaves nothing in flight and every record in the order the
   startup pass relies on.
   */
  lemma CrashLeavesOrder(acts: seq<Action>, cap: nat, id: Id)
    requires CompatibleRun(Init, acts, cap)
    ensures var s := Crashed(acts, cap);
            && s.refs == map[] && s.threads == map[] && s.world == After(Init, acts, cap).world
            && (SliceOf(s, id).rec.Some? ==> SiteOk(SliceOf(s, id).rec, SliceOf(s, id).res))
  {
    ReachableGood(acts, cap);
  }

  /** The sites hold the records of the crashed operator, one each, and no record is missing. */
  ghost predicate Holding(listed: seq<Site>, s: State)
    reads listed
  {
    && (forall i, j | 0 <= i < j < |listed| :: listed[i] != listed[j])
    && (forall j | 0 <= j < |listed| :: listed[j].rec == SliceOf(s, listed[j].id).rec && listed[j].res == SliceOf(s, listed[j].id).res && listed[j].rec.Some?)
    && (forall id | SliceOf(s, id).rec.Some? :: exists j :: 0 <= j < |listed| && listed[j].id == id)
  }

  /**
   Crash recovery.  Whatever operations were under way and wherever they stopped: a startup pass without
   errors leaves every record Running with both containers seen under IDs the record reaches, Stopped or
   Errored; it keeps Running what was Running and removes the half-built and half-removed agents.  With or
   without errors no other agent loses its record, its network or a volume.  And errors have a
   cause: a listing that failed, a fault, or a record whose IDs do not reach its containers.
   */
  method RecoverFromCrash(ghost acts: seq<Action>, ghost cap: nat, listed: seq<Site>, agents: seq<Record>,
                          readable: bool, labelled: Option<seq<Labelled>>, ops: OpRegistry, retries: nat, polls: nat)
      returns (ok: bool)
    requires CompatibleRun(Init, acts, cap) && ops.Valid() && ops.holders == multiset{}
    requires Holding(listed, Crashed(acts, cap)) && |agents| == |listed|
    requires forall j | 0 <= j < |listed| :: listed[j].rec == Some(agents[j])
    modifies listed, ops
    ensures ok ==> forall j | 0 <= j < |listed| ::
              && Recovered(Look(listed[j])) && (agents[j].status.Running? ==> listed[j].rec.Some? && listed[j].rec.value.status.Running?)
              && (listed[j].rec.None? <==> !Settled(agents[j].status)) && (listed[j].rec.None? ==> listed[j].res == NoResources)
    ensures forall j | 0 <= j < |listed| && Settled(agents[j].status) ::
              listed[j].rec.Some? && Settled(listed[j].rec.value.status) && AllVolumes(listed[j].res) && listed[j].res.net
    ensures ok ==> forall id | SliceOf(Crashed(acts, cap), id).rec.Some? ::
              exists j :: 0 <= j < |listed| && listed[j].id == id && Recovered(Look(listed[j]))
    ensures readable && labelled.Some? &&
            (forall j | 0 <= j < |listed| :: listed[j].faults == old(listed[j].faults) &&
               Recoverable(Listed(listed[j].id, agents[j], old(listed[j].res), old(listed[j].faults))))
            ==> ok
  {
    ghost var snap := seq(|listed|, j requires 0 <= j < |listed| reads listed => Listed(listed[j].id, agents[j], listed[j].res, listed[j].faults));
    forall j | 0 <= j < |listed| ensures SiteOk(Some(snap[j].rec), snap[j].res) { CrashLeavesOrder(acts, cap, listed[j].id); }
    var _, _, fine := Pass(listed, agents, snap, readable, labelled, {}, ops, retries, polls);
    ok := fine;
    assert forall j | 0 <= j < |listed| :: PassResult(snap[j], Look(listed[j]), false, ok);
  }
}
