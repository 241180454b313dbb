/**
 The names of an agent's Docker resources, and why one agent's calls cannot reach another's.
 */
module Names {
  import opened Agents

  const PREFIX := "docker-operator"

  function AgentContainerName(id: Id): string { PREFIX + "-agent-" + id }
  function DindContainerName(id: Id): string { PREFIX + "-dind-" + id }
  function DinernetName(id: Id): string { AgentContainerName(id) + "-dinernet" }

  function VolumeName(id: Id, v: Volume): string {
    AgentContainerName(id) + VolumeSuffix(v)
  }

  function VolumeSuffix(v: Volume): string {
    match v
    case Workspace => "-workspace"
    case Config => "-claude-config"
    case Cache => "-dind-cache"
  }

  function ContainerName(id: Id, role: Role): string {
    if role.AgentRole? then AgentContainerName(id) else DindContainerName(id)
  }

  lemma PrefixInjective(p: string, x: string, y: string)
    requires p + x == p + y
    ensures x == y
  {
    assert (p + x)[|p|..] == x && (p + y)[|p|..] == y;
  }

  lemma SuffixInjective(x: string, y: string, s: string)
    requires x + s == y + s
    ensures x == y
  {
    assert |x| == |y| && (x + s)[..|x|] == x && (y + s)[..|y|] == y;
  }

  /** Two container names agree only for the same agent and the same role. */
  lemma ContainerNameInjective(a: Id, b: Id, r: Role, q: Role)
    ensures ContainerName(a, r) == ContainerName(b, q) <==> a == b && r == q
  {
    if ContainerName(a, r) == ContainerName(b, q) {
      var n := |PREFIX| + 1;
      assert ContainerName(a, r)[n] == (if r.AgentRole? then 'a' else 'd');
      assert ContainerName(b, q)[n] == (if q.AgentRole? then 'a' else 'd');
      PrefixInjective(PREFIX + (if r.AgentRole? then "-agent-" else "-dind-"), a, b);
    }
  }

  lemma AgentNameInjective(a: Id, b: Id)
    requires AgentContainerName(a) == AgentContainerName(b)
    ensures a == b
  {
    PrefixInjective(PREFIX + "-agent-", a, b);
  }

  lemma NetworkNameInjective(a: Id, b: Id)
    ensures DinernetName(a) == DinernetName(b) <==> a == b
  {
    if DinernetName(a) == DinernetName(b) {
      SuffixInjective(AgentContainerName(a), AgentContainerName(b), "-dinernet");
      AgentNameInjective(a, b);
    }
  }

  /** The three suffixes differ in their last two characters, so even odd IDs cannot make two roles collide. */
  lemma SuffixesDiffer(x: string, y: string, u: Volume, v: Volume)
    requires x + VolumeSuffix(u) == y + VolumeSuffix(v)
    ensures u == v
  {
    var s := x + VolumeSuffix(u);
    var t := y + VolumeSuffix(v);
    assert s[|s| - 1] == VolumeSuffix(u)[|VolumeSuffix(u)| - 1];
    assert t[|t| - 1] == VolumeSuffix(v)[|VolumeSuffix(v)| - 1];
    assert s[|s| - 1] == (if u.Workspace? || u.Cache? then 'e' else 'g');
    assert s[|s| - 2] == VolumeSuffix(u)[|VolumeSuffix(u)| - 2];
    assert t[|t| - 2] == VolumeSuffix(v)[|VolumeSuffix(v)| - 2];
  }

  lemma VolumeNameInjective(a: Id, b: Id, u: Volume, v: Volume)
    ensures VolumeName(a, u) == VolumeName(b, v) <==> a == b && u == v
  {
    if VolumeName(a, u) == VolumeName(b, v) {
      SuffixesDiffer(AgentContainerName(a), AgentContainerName(b), u, v);
      SuffixInjective(AgentContainerName(a), AgentContainerName(b), VolumeSuffix(u));
      AgentNameInjective(a, b);
    }
  }

  // ---------------------------------------------------------------- the daemon by name

  /** The daemon as it really is: objects under names, in three separate name spaces. */
  datatype Daemon = Daemon(
    containers: map<string, Box>,
    networks: map<string, bool>,      // the value says whether dependaproxy has an endpoint on it
    volumes: set<string>)

  /** The part of the daemon that carries one agent's names. */
  function View(d: Daemon, id: Id): Resources {
    var net := DinernetName(id);
    Resources(Lookup(d, ContainerName(id, AgentRole)), Lookup(d, ContainerName(id, DindRole)),
              net in d.networks, net in d.networks && d.networks[net],
              VolumeName(id, Workspace) in d.volumes, VolumeName(id, Config) in d.volumes,
              VolumeName(id, Cache) in d.volumes)
  }

  function Lookup(d: Daemon, name: string): Option<Box> {
    if name in d.containers then Some(d.containers[name]) else None
  }

  function SetContainer(d: Daemon, name: string, b: Option<Box>): Daemon {
    d.(containers := if b.Some? then d.containers[name := b.value] else d.containers - {name})
  }

  function SetNetwork(d: Daemon, name: string, present: bool, proxied: bool): Daemon {
    d.(networks := if present then d.networks[name := proxied] else d.networks - {name})
  }

  function SetVolumeNamed(d: Daemon, name: string, present: bool): Daemon {
    d.(volumes := if present then d.volumes + {name} else d.volumes - {name})
  }

  /** Creating, changing or removing a container by an agent's name shows up in that agent's view only. */
  lemma ContainerIsolation(d: Daemon, a: Id, role: Role, box: Option<Box>)
    ensures var d' := SetContainer(d, ContainerName(a, role), box);
            && View(d', a) == WithBox(View(d, a), role, box)
            && (forall b | b != a :: View(d', b) == View(d, b))
  {
    var d' := SetContainer(d, ContainerName(a, role), box);
    forall b, r: Role ensures Lookup(d', ContainerName(b, r)) == if b == a && r == role then box else Lookup(d, ContainerName(b, r)) {
      ContainerNameInjective(b, a, r, role);
    }
  }

  lemma NetworkIsolation(d: Daemon, a: Id, present: bool, proxied: bool)
    requires proxied ==> present
    ensures var d' := SetNetwork(d, DinernetName(a), present, proxied);
            && View(d', a) == View(d, a).(net := present, proxied := proxied)
            && (forall b | b != a :: View(d', b) == View(d, b))
  {
    var d' := SetNetwork(d, DinernetName(a), present, proxied);
    forall b | b != a ensures View(d', b) == View(d, b) { NetworkNameInjective(a, b); }
  }

  lemma VolumeIsolation(d: Daemon, a: Id, v: Volume, present: bool)
    ensures var d' := SetVolumeNamed(d, VolumeName(a, v), present);
            && View(d', a) == SetVolume(View(d, a), v, present)
            && (forall b | b != a :: View(d', b) == View(d, b))
  {
    var d' := SetVolumeNamed(d, VolumeName(a, v), present);
    forall b, u ensures VolumeName(b, u) in d'.volumes <==> if b == a && u == v then present else VolumeName(b, u) in d.volumes {
      VolumeNameInjective(b, a, u, v);
    }
  }
}
