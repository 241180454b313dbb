/**
 The disk-usage figures of the agent list: the single-flight cache in front of an expensive
 collect, and the all-or-nothing total of one agent.
 */
module DiskCache {
  import opened Agents

  type Time = int

  /** One completed collect: when its figures were read, and the figures. */
  datatype Snapshot = Snapshot(at: Time, byId: map<Id, Usage>)

  /** Each component is absent when it is not known. */
  datatype Usage = Usage(workspace: Option<int>, config: Option<int>, cache: Option<int>, files: Option<int>, total: Option<int>)

  // ---------------------------------------------------------------- the cache

  /** Consecutive collects start at least one TTL apart. */
  predicate Spaced(starts: seq<Time>, ttl: Time) {
    forall i | 0 <= i < |starts| - 1 :: starts[i + 1] - starts[i] >= ttl
  }

  predicate InOrder(done: seq<Snapshot>) {
    forall i, j | 0 <= i <= j < |done| :: done[i].at <= done[j].at
  }

  function Newest(done: seq<Snapshot>): Option<Snapshot> {
    if done == [] then None else Some(done[|done| - 1])
  }

  function Last(starts: seq<Time>): Option<Time> {
    if starts == [] then None else Some(starts[|starts| - 1])
  }

  type Rid = nat

  /** A request that is collecting: what it saw when it took the lock, when that was, and how many collects had succeeded. */
  datatype Collecting = Collecting(previous: Option<Snapshot>, start: Time, count: nat)

  /** An answered request: how many collects had succeeded when it took the lock, and the result of its own, if any. */
  datatype Reply = Reply(r: Rid, answer: Option<Snapshot>, count: nat, own: Option<Snapshot>)

  /** The fields under the mutex, the requests that are collecting, and the history. */
  datatype State = State(
    snapshot: Option<Snapshot>,
    refreshing: bool,
    lastTry: Option<Time>,
    collecting: map<Rid, Collecting>,
    clock: Time,
    starts: seq<Time>,              // when each collect began
    done: seq<Snapshot>,            // every collect that succeeded
    replies: seq<Reply>)

  function Idle(clock: Time): State {
    State(None, false, None, map[], clock, [], [], [])
  }

  /** The two critical sections of a request; any other request may run one in between. */
  datatype Action =
    | Enter(r: Rid, now: Time)
    | Leave(r: Rid, refreshed: Option<Snapshot>, now: Time)

  predicate Enabled(s: State, a: Action) {
    match a
    case Enter(r, now) => r !in s.collecting && s.clock <= now
    case Leave(r, refreshed, now) =>
      && r in s.collecting && s.clock <= now
      && (refreshed.Some? ==> s.collecting[r].start <= refreshed.value.at <= now)
  }

  /** A fresh snapshot is served; so is a stale one while a collect runs or was tried within the TTL. */
  predicate Serves(s: State, now: Time, ttl: Time) {
    || (s.snapshot.Some? && now - s.snapshot.value.at < ttl)
    || s.refreshing
    || (s.lastTry.Some? && now - s.lastTry.value < ttl)
  }

  function EnterStep(s: State, r: Rid, now: Time, ttl: Time): State {
    if Serves(s, now, ttl) then
      s.(clock := now, replies := s.replies + [Reply(r, s.snapshot, |s.done|, None)])
    else
      s.(refreshing := true, lastTry := Some(now), clock := now, starts := s.starts + [now],
         collecting := s.collecting[r := Collecting(s.snapshot, now, |s.done|)])
  }

  /** A failed collect replaces nothing; the request answers with what it saw, or with its own result. */
  function LeaveStep(s: State, r: Rid, refreshed: Option<Snapshot>, now: Time): State
    requires r in s.collecting
  {
    var c := s.collecting[r];
    var t := s.(refreshing := false, clock := now, collecting := s.collecting - {r});
    if refreshed.None? then t.(replies := s.replies + [Reply(r, c.previous, c.count, None)])
    else t.(snapshot := refreshed, done := s.done + [refreshed.value], replies := s.replies + [Reply(r, refreshed, c.count, refreshed)])
  }

  function Next(s: State, a: Action, ttl: Time): State {
    if !Enabled(s, a) then s
    else
      match a
      case Enter(r, now) => EnterStep(s, r, now, ttl)
      case Leave(r, refreshed, now) => LeaveStep(s, r, refreshed, now)
  }

  function After(s: State, acts: seq<Action>, ttl: Time): State {
    if acts == [] then s else Next(After(s, acts[..|acts| - 1], ttl), acts[|acts| - 1], ttl)
  }

  // ---------------------------------------------------------------- what holds over every sequence of requests

  /** The newest snapshot completed when the request took the lock, or the result of its own collect. */
  predicate ReplyOk(x: Reply, done: seq<Snapshot>) {
    && x.count <= |done|
    && if x.own.Some? then x.answer == x.own && x.own.value in done[x.count..] else x.answer == Newest(done[..x.count])
  }

  /** At most one request collects; it saw the current snapshot and started last. */
  ghost predicate SingleFlight(s: State) {
    && |s.collecting| <= 1 && (s.refreshing <==> s.collecting != map[])
    && forall r | r in s.collecting ::
         && s.collecting[r].previous == s.snapshot && s.collecting[r].count == |s.done|
         && Some(s.collecting[r].start) == Last(s.starts)
         && forall i | 0 <= i < |s.done| :: s.done[i].at <= s.collecting[r].start
  }

  ghost predicate Timely(s: State, ttl: Time) {
    && s.snapshot == Newest(s.done) && InOrder(s.done) && Spaced(s.starts, ttl) && s.lastTry == Last(s.starts)
    && (forall i | 0 <= i < |s.starts| :: s.starts[i] <= s.clock)
    && (forall i | 0 <= i < |s.done| :: s.done[i].at <= s.clock)
  }

  ghost predicate Truthful(s: State) {
    forall k | 0 <= k < |s.replies| :: ReplyOk(s.replies[k], s.done)
  }

  ghost predicate Good(s: State, ttl: Time) {
    SingleFlight(s) && Timely(s, ttl) && Truthful(s)
  }

  lemma ReplyStays(x: Reply, done: seq<Snapshot>, more: Snapshot)
    requires ReplyOk(x, done)
    ensures ReplyOk(x, done + [more])
  {
    assert (done + [more])[..x.count] == done[..x.count];
    assert (done + [more])[x.count..] == done[x.count..] + [more];
  }

  lemma EnterIsTimely(s: State, r: Rid, now: Time, ttl: Time)
    requires Timely(s, ttl) && Enabled(s, Enter(r, now))
    ensures Timely(EnterStep(s, r, now, ttl), ttl)
  {
  }

  lemma EnterIsSingle(s: State, r: Rid, now: Time, ttl: Time)
    requires SingleFlight(s) && Timely(s, ttl) && Enabled(s, Enter(r, now))
    ensures SingleFlight(EnterStep(s, r, now, ttl))
  {
    if !Serves(s, now, ttl) {
      assert s.collecting == map[];
      assert s.collecting[r := Collecting(s.snapshot, now, |s.done|)].Keys == {r};
    }
  }

  lemma EnterKeeps(s: State, r: Rid, now: Time, ttl: Time)
    requires Good(s, ttl) && Enabled(s, Enter(r, now))
    ensures Good(EnterStep(s, r, now, ttl), ttl)
  {
    EnterIsTimely(s, r, now, ttl);
    EnterIsSingle(s, r, now, ttl);
    assert s.done[..|s.done|] == s.done;
  }

  lemma OnlyCollector(s: State, r: Rid)
    requires SingleFlight(s) && r in s.collecting
    ensures s.collecting - {r} == map[]
  {
    var rest := s.collecting.Keys - {r};
    assert s.collecting.Keys == rest + {r};
    assert |s.collecting.Keys| == |s.collecting|;
    assert rest == {};
  }

  lemma LeaveIsTimely(s: State, r: Rid, refreshed: Option<Snapshot>, now: Time, ttl: Time)
    requires SingleFlight(s) && Timely(s, ttl) && Enabled(s, Leave(r, refreshed, now))
    ensures Timely(LeaveStep(s, r, refreshed, now), ttl)
  {
  }

  lemma LeaveIsTruthful(s: State, r: Rid, refreshed: Option<Snapshot>, now: Time)
    requires SingleFlight(s) && s.snapshot == Newest(s.done) && Truthful(s) && Enabled(s, Leave(r, refreshed, now))
    ensures Truthful(LeaveStep(s, r, refreshed, now))
  {
    assert s.done[..|s.done|] == s.done;
    if refreshed.Some? {
      forall k | 0 <= k < |s.replies| ensures ReplyOk(s.replies[k], s.done + [refreshed.value]) {
        ReplyStays(s.replies[k], s.done, refreshed.value);
      }
      assert (s.done + [refreshed.value])[|s.done|..] == [refreshed.value];
    }
  }

  lemma LeaveKeeps(s: State, r: Rid, refreshed: Option<Snapshot>, now: Time, ttl: Time)
    requires Good(s, ttl) && Enabled(s, Leave(r, refreshed, now))
    ensures Good(LeaveStep(s, r, refreshed, now), ttl)
  {
    LeaveIsTimely(s, r, refreshed, now, ttl);
    LeaveIsTruthful(s, r, refreshed, now);
    assert SingleFlight(LeaveStep(s, r, refreshed, now)) by { OnlyCollector(s, r); }
  }

  /**
   However many requests interleave: at most one collect runs at a time, collects start at least one TTL apart,
   snapshot times never decrease, and every reply is truthful.
   */
  lemma {:induction false} EveryInterleaving(clock: Time, acts: seq<Action>, ttl: Time)
    ensures Good(After(Idle(clock), acts, ttl), ttl)
  {
    if acts != [] {
      var n := |acts| - 1;
      EveryInterleaving(clock, acts[..n], ttl);
      var s := After(Idle(clock), acts[..n], ttl);
      if Enabled(s, acts[n]) {
        match acts[n]
        case Enter(r, now) => EnterKeeps(s, r, now, ttl);
        case Leave(r, refreshed, now) => LeaveKeeps(s, r, refreshed, now, ttl);
      }
    }
  }

  /** A collect begins exactly when the snapshot is stale, nobody is collecting and the last start is a TTL ago. */
  lemma CollectsExactly(clock: Time, acts: seq<Action>, r: Rid, now: Time, ttl: Time)
    requires Enabled(After(Idle(clock), acts, ttl), Enter(r, now))
    ensures var s := After(Idle(clock), acts, ttl);
            r in Next(s, Enter(r, now), ttl).collecting <==>
              && (s.done == [] || now - s.done[|s.done| - 1].at >= ttl)
              && s.collecting == map[] && (s.starts == [] || now - s.starts[|s.starts| - 1] >= ttl)
  {
    EveryInterleaving(clock, acts, ttl);
  }

  /** A failed collect leaves snapshot and completions alone and lets the next request try again. */
  lemma FailureReplacesNothing(clock: Time, acts: seq<Action>, r: Rid, now: Time, ttl: Time)
    requires Enabled(After(Idle(clock), acts, ttl), Leave(r, None, now))
    ensures var s := After(Idle(clock), acts, ttl); var t := Next(s, Leave(r, None, now), ttl);
            t.snapshot == s.snapshot && t.done == s.done && t.collecting == map[] && !t.refreshing
  {
    EveryInterleaving(clock, acts, ttl);
    OnlyCollector(After(Idle(clock), acts, ttl), r);
  }

  /** What a request is told when it holds the lock for the first time. */
  datatype Entered = Serve(reply: Option<Snapshot>) | Collect(previous: Option<Snapshot>)

  /** The handler's cache: each method is one critical section, and does what the step system says. */
  class Cache {
    const ttl: Time
    var snapshot: Option<Snapshot>
    var refreshing: bool
    var lastTry: Option<Time>
    ghost var state: State

    ghost predicate Valid()
      reads this
    {
      Good(state, ttl) && snapshot == state.snapshot && refreshing == state.refreshing && lastTry == state.lastTry
    }

    constructor (ttl: Time, clock: Time)
      ensures Valid() && state == Idle(clock) && this.ttl == ttl
    {
      this.ttl := ttl;
      snapshot, refreshing, lastTry, state := None, false, None, Idle(clock);
    }

    /** The first critical section of request r. */
    method Enter(ghost r: Rid, now: Time) returns (e: Entered)
      requires Valid() && Enabled(state, Action.Enter(r, now))
      modifies this
      ensures Valid() && state == Next(old(state), Action.Enter(r, now), ttl)
      ensures e.Serve? ==> r !in state.collecting && e.reply == Newest(old(state.done))
      ensures e.Collect? ==> r in state.collecting && state.collecting[r].previous == e.previous == Newest(old(state.done))
    {
      EnterKeeps(state, r, now, ttl);
      state := EnterStep(state, r, now, ttl);
      if snapshot.Some? && now - snapshot.value.at < ttl { return Serve(snapshot); }
      if refreshing || (lastTry.Some? && now - lastTry.value < ttl) { return Serve(snapshot); }
      refreshing, lastTry := true, Some(now);
      return Collect(snapshot);
    }

    /** The second critical section of request r, which passes what its own first one returned. */
    method Leave(ghost r: Rid, previous: Option<Snapshot>, refreshed: Option<Snapshot>, ghost now: Time) returns (reply: Option<Snapshot>)
      requires Valid() && Enabled(state, Action.Leave(r, refreshed, now)) && previous == state.collecting[r].previous
      modifies this
      ensures Valid() && state == Next(old(state), Action.Leave(r, refreshed, now), ttl)
      ensures reply == if refreshed.Some? then refreshed else Newest(old(state.done))
    {
      LeaveKeeps(state, r, refreshed, now, ttl);
      state := LeaveStep(state, r, refreshed, now);
      refreshing := false;
      if refreshed.None? { return previous; }
      snapshot := refreshed;
      return refreshed;
    }
  }

  /** So n collects take at least n - 1 TTLs, however many requests arrive. */
  lemma {:induction false} CollectsAreRare(starts: seq<Time>, ttl: Time, i: nat, j: nat)
    requires Spaced(starts, ttl) && i <= j < |starts|
    ensures starts[j] - starts[i] >= (j - i) * ttl
    decreases j
  {
    if i < j {
      CollectsAreRare(starts, ttl, i, j - 1);
      assert starts[j - 1 + 1] - starts[j - 1] >= ttl;
      assert (j - i) * ttl == (j - 1 - i) * ttl + ttl;
    }
  }

  // ---------------------------------------------------------------- one agent's figures

  const INT64 := 0x1_0000_0000_0000_0000

  /** Two's-complement wrap-around of a 64-bit sum. */
  function Wrap64(n: int): int {
    var m := n % INT64;
    if m < INT64 / 2 then m else m - INT64
  }

  datatype Report = Report(name: string, size: int)

  /** Absent for an empty name, a volume missing from the report, and a negative size; a real 0 is a 0. */
  function VolumeBytes(byName: map<string, int>, name: string): Option<int> {
    if name == "" || name !in byName || byName[name] < 0 then None else Some(byName[name])
  }

  function TotalBytes(d: Usage, filesApply: bool): Option<int> {
    if d.workspace.None? || d.config.None? || d.cache.None? || (filesApply && d.files.None?) then None
    else
      var sum := d.workspace.value + d.config.value + d.cache.value;
      Some(Wrap64(if filesApply then sum + d.files.value else sum))
  }

  function Applicable(d: Usage, filesApply: bool): seq<Option<int>> {
    [d.workspace, d.config, d.cache] + if filesApply then [d.files] else []
  }

  function Sum(xs: seq<Option<int>>): int {
    if xs == [] then 0 else (if xs[0].Some? then xs[0].value else 0) + Sum(xs[1..])
  }

  lemma SumFirst(x: Option<int>, xs: seq<Option<int>>)
    ensures Sum([x] + xs) == (if x.Some? then x.value else 0) + Sum(xs)
  {
    assert ([x] + xs)[1..] == xs;
  }

  lemma ApplicableSum(d: Usage, filesApply: bool)
    requires d.workspace.Some? && d.config.Some? && d.cache.Some? && (filesApply ==> d.files.Some?)
    ensures Sum(Applicable(d, filesApply)) ==
            d.workspace.value + d.config.value + d.cache.value + if filesApply then d.files.value else 0
  {
    var tail: seq<Option<int>> := if filesApply then [d.files] else [];
    assert Applicable(d, filesApply) == [d.workspace] + ([d.config] + ([d.cache] + tail));
    SumFirst(d.workspace, [d.config] + ([d.cache] + tail));
    SumFirst(d.config, [d.cache] + tail);
    SumFirst(d.cache, tail);
    assert [d.files] == [d.files] + [];
    SumFirst(d.files, []);
  }

  /** The total is there exactly when every applicable component is, and it is their 64-bit sum. */
  lemma TotalIsAllOrNothing(d: Usage, filesApply: bool)
    ensures TotalBytes(d, filesApply).Some? <==> forall x | x in Applicable(d, filesApply) :: x.Some?
    ensures TotalBytes(d, filesApply).Some? ==> TotalBytes(d, filesApply).value == Wrap64(Sum(Applicable(d, filesApply)))
  {
    var xs := Applicable(d, filesApply);
    assert xs[0] == d.workspace && xs[1] == d.config && xs[2] == d.cache && (filesApply ==> xs[3] == d.files);
    if TotalBytes(d, filesApply).Some? { ApplicableSum(d, filesApply); }
  }

  /** Wrapping lands in the signed range, by a multiple of 2^64; so nothing happens exactly when the sum fits. */
  lemma WrapIsExact(n: int)
    ensures -(INT64 / 2) <= Wrap64(n) < INT64 / 2 && exists k: int :: Wrap64(n) + k * INT64 == n
    ensures Wrap64(n) == n <==> -(INT64 / 2) <= n < INT64 / 2
  {
    var q := n / INT64;
    if n % INT64 < INT64 / 2 {
      assert Wrap64(n) + q * INT64 == n;
    } else {
      assert Wrap64(n) + (q + 1) * INT64 == n;
    }
  }

  datatype Volumes = Volumes(id: Id, workspace: string, config: string, cache: string)

  function UsageOf(a: Volumes, byName: map<string, int>, files: Option<int>, filesApply: bool): Usage {
    var d := Usage(VolumeBytes(byName, a.workspace), VolumeBytes(byName, a.config), VolumeBytes(byName, a.cache),
                   if filesApply then files else None, None);
    d.(total := TotalBytes(d, filesApply))
  }

  /** What the walk of an agent's file store found. */
  function Walked(files: map<Id, int>, id: Id): Option<int> {
    if id in files then Some(files[id]) else None
  }

  /** The size the report gives a name last. */
  ghost predicate Reported(usage: seq<Report>, name: string, size: int) {
    exists i :: 0 <= i < |usage| && usage[i] == Report(name, size) && forall j | i < j < |usage| :: usage[j].name != name
  }

  lemma ReportedOnce(usage: seq<Report>, name: string, m: int, n: int)
    requires Reported(usage, name, m) && Reported(usage, name, n)
    ensures m == n
  {
    var i :| 0 <= i < |usage| && usage[i] == Report(name, m) && forall j | i < j < |usage| :: usage[j].name != name;
    var k :| 0 <= k < |usage| && usage[k] == Report(name, n) && forall j | k < j < |usage| :: usage[j].name != name;
    assert i == k;
  }

  method IndexReport(usage: seq<Report>) returns (byName: map<string, int>)
    ensures forall name, n :: name in byName && byName[name] == n <==> Reported(usage, name, n)
  {
    byName := map[];
    for k := 0 to |usage|
      invariant forall i | 0 <= i < k :: usage[i].name in byName
      invariant forall n :: n in byName ==>
                  exists i :: 0 <= i < k && usage[i] == Report(n, byName[n]) && forall j | i < j < k :: usage[j].name != n
    {
      var u := usage[k];
      assert usage[k] == Report(u.name, u.size);
      byName := byName[u.name := u.size];
    }
    forall name, n | Reported(usage, name, n) ensures name in byName && byName[name] == n {
      assert Reported(usage, name, byName[name]);
      ReportedOnce(usage, name, byName[name], n);
    }
  }

  /** The figure of a volume with this name: what the report says last, unless there is no name or no size. */
  ghost predicate Figure(usage: seq<Report>, name: string, x: Option<int>) {
    forall n :: x == Some(n) <==> name != "" && Reported(usage, name, n) && n >= 0
  }

  /** One agent's figures, each under its own name, and their sum. */
  ghost predicate Figures(usage: seq<Report>, files: map<Id, int>, filesApply: bool, a: Volumes, d: Usage) {
    && Figure(usage, a.workspace, d.workspace)
    && Figure(usage, a.config, d.config)
    && Figure(usage, a.cache, d.cache)
    && d.files == (if filesApply && a.id in files then Some(files[a.id]) else None)
    && Totals(d, filesApply)
  }

  /** The total is there exactly when every component that applies is, and is their 64-bit sum. */
  predicate Totals(d: Usage, filesApply: bool) {
    && (d.total.Some? <==> d.workspace.Some? && d.config.Some? && d.cache.Some? && (filesApply ==> d.files.Some?))
    && (d.total.Some? ==> d.total.value == Wrap64(d.workspace.value + d.config.value + d.cache.value
                                                  + if filesApply then d.files.value else 0))
  }

  lemma TotalTotals(d: Usage, filesApply: bool)
    ensures Totals(d.(total := TotalBytes(d, filesApply)), filesApply)
  {
    if TotalBytes(d, filesApply).Some? {
      var sum := d.workspace.value + d.config.value + d.cache.value;
      assert sum + 0 == sum;
    }
  }

  lemma UsageIsFigures(usage: seq<Report>, byName: map<string, int>, files: map<Id, int>, filesApply: bool, a: Volumes)
    requires forall name, n :: name in byName && byName[name] == n <==> Reported(usage, name, n)
    ensures Figures(usage, files, filesApply, a, UsageOf(a, byName, Walked(files, a.id), filesApply))
  {
    VolumeFigure(usage, byName, a.workspace);
    VolumeFigure(usage, byName, a.config);
    VolumeFigure(usage, byName, a.cache);
    TotalTotals(UsageOf(a, byName, Walked(files, a.id), filesApply).(total := None), filesApply);
  }

  lemma VolumeFigure(usage: seq<Report>, byName: map<string, int>, name: string)
    requires forall name, n :: name in byName && byName[name] == n <==> Reported(usage, name, n)
    ensures Figure(usage, name, VolumeBytes(byName, name))
  {
    if name in byName { assert Reported(usage, name, byName[name]); }
  }

  /**
   One collect: no snapshot exactly when the agent list or the daemon's report cannot be read; otherwise one
   entry per listed agent.  `files` holds the walks that succeeded; a failed one only drops that component.
   */
  method CollectDiskUsage(agents: Option<seq<Volumes>>, usage: Option<seq<Report>>, files: map<Id, int>, filesApply: bool, now: Time)
      returns (r: Option<Snapshot>)
    requires agents.Some? ==> forall i, j | 0 <= i < j < |agents.value| :: agents.value[i].id != agents.value[j].id
    ensures r.Some? <==> agents.Some? && usage.Some?
    ensures r.Some? ==> r.value.at == now && forall id :: id in r.value.byId <==> exists a :: a in agents.value && a.id == id
    ensures r.Some? ==> forall a | a in agents.value :: Figures(usage.value, files, filesApply, a, r.value.byId[a.id])
  {
    if agents.None? || usage.None? { return None; }
    var index := IndexReport(usage.value);
    var byId := Tabulate(agents.value, index, files, filesApply);
    r := Some(Snapshot(now, byId));
    forall a | a in agents.value ensures Figures(usage.value, files, filesApply, a, byId[a.id]) {
      UsageIsFigures(usage.value, index, files, filesApply, a);
    }
  }

  /** The entries, one per listed agent. */
  method Tabulate(listed: seq<Volumes>, index: map<string, int>, files: map<Id, int>, filesApply: bool) returns (byId: map<Id, Usage>)
    requires forall i, j | 0 <= i < j < |listed| :: listed[i].id != listed[j].id
    ensures forall id :: id in byId <==> exists a :: a in listed && a.id == id
    ensures forall a | a in listed :: byId[a.id] == UsageOf(a, index, Walked(files, a.id), filesApply)
  {
    byId := map[];
    for k := 0 to |listed|
      invariant forall id :: id in byId <==> exists a :: a in listed[..k] && a.id == id
      invariant forall i | 0 <= i < k :: listed[i].id in byId && byId[listed[i].id] == UsageOf(listed[i], index, Walked(files, listed[i].id), filesApply)
    {
      var a := listed[k];
      byId := byId[a.id := UsageOf(a, index, Walked(files, a.id), filesApply)];
      assert listed[..k + 1] == listed[..k] + [a];
    }
    assert listed[..|listed|] == listed;
  }
}
