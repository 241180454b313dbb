/**
 The vocabulary shared by the whole model: agent records as the store keeps them,
 and the slice of the Docker daemon that belongs to one agent.

 Every per-agent Docker resource has a name that is a function of the agent ID
 (module Names proves those functions injective and disjoint), so the daemon is
 modelled as one `Resources` value per agent ID instead of one map per resource kind.
 */
module Agents {

  datatype Option<+T> = None | Some(value: T)

  type Id = string

  /** A daemon-assigned container ID.  0 stands for the empty string: "none recorded". */
  type Cid = nat

  datatype Status = Creating | Running | Stopped | Errored | Deleting | Updating

  /** The states that occupy one of the MAX_AGENTS slots. */
  predicate CountsTowardCapacity(s: Status) {
    s == Creating || s == Running || s == Updating
  }

  /** The states Update will start from. */
  predicate Updatable(s: Status) {
    s == Running || s == Stopped || s == Errored
  }

  /** Every state except the two whose resources are half built or half removed. */
  predicate Settled(s: Status) {
    s != Creating && s != Deleting
  }

  /** The states that, at startup, prove a crash in the middle of an operation. */
  predicate MayBeStuck(s: Status) {
    s == Updating || s == Creating || s == Deleting
  }

  /** The part of an agent record the lifecycle protocol reads and writes. */
  datatype Record = Record(status: Status, cid: Cid, dind: Cid)

  datatype Role = AgentRole | DindRole

  datatype Volume = Workspace | Config | Cache

  /** One container on the daemon. */
  datatype Box = Box(cid: Cid, running: bool)

  /** Everything on the daemon that carries one agent's names. */
  datatype Resources = Resources(
    agent: Option<Box>,
    dind: Option<Box>,
    net: bool,
    proxied: bool,        // the shared dependaproxy container has an endpoint on `net`
    workspace: bool,      // which of the three named volumes exist
    config: bool,
    cache: bool)

  const NoResources := Resources(None, None, false, false, false, false, false)

  predicate HasVolume(r: Resources, v: Volume) {
    match v
    case Workspace => r.workspace
    case Config => r.config
    case Cache => r.cache
  }

  function SetVolume(r: Resources, v: Volume, present: bool): Resources {
    match v
    case Workspace => r.(workspace := present)
    case Config => r.(config := present)
    case Cache => r.(cache := present)
  }

  predicate AllVolumes(r: Resources) {
    r.workspace && r.config && r.cache
  }

  function BoxOf(r: Resources, role: Role): Option<Box> {
    if role.AgentRole? then r.agent else r.dind
  }

  function WithBox(r: Resources, role: Role, b: Option<Box>): Resources {
    if role.AgentRole? then r.(agent := b) else r.(dind := b)
  }

  /** The agent container mounts the workspace and its configuration, the sidecar its cache and the workspace. */
  predicate Mounts(role: Role, v: Volume) {
    v.Workspace? || (if role.AgentRole? then v.Config? else v.Cache?)
  }

  /** Some container still references the volume: the daemon refuses to remove it. */
  predicate Pinned(r: Resources, v: Volume) {
    (r.agent.Some? && Mounts(AgentRole, v)) || (r.dind.Some? && Mounts(DindRole, v))
  }

  /** A container mounts only volumes that exist. */
  predicate DaemonOk(r: Resources) {
    && (Pinned(r, Workspace) ==> r.workspace)
    && (Pinned(r, Config) ==> r.config)
    && (Pinned(r, Cache) ==> r.cache)
  }

  /** Does a container reference (an ID, or 0 for "by name") resolve to this container? */
  predicate Hits(b: Option<Box>, ref: Cid) {
    b.Some? && (ref == 0 || b.value.cid == ref)
  }

  /** The recorded container reference is empty or names the container that exists, if any does. */
  predicate Reached(b: Option<Box>, ref: Cid) {
    b.Some? ==> ref == 0 || b.value.cid == ref
  }

  // The effect of each daemon call.  Stopping or removing something that is not there is success.

  function StopBox(r: Resources, role: Role, ref: Cid): Resources {
    var b := BoxOf(r, role);
    if Hits(b, ref) then WithBox(r, role, Some(b.value.(running := false))) else r
  }

  function StartBox(r: Resources, role: Role, ref: Cid): Resources {
    var b := BoxOf(r, role);
    if Hits(b, ref) then WithBox(r, role, Some(b.value.(running := true))) else r
  }

  function RemoveBox(r: Resources, role: Role, ref: Cid): Resources {
    if Hits(BoxOf(r, role), ref) then WithBox(r, role, None) else r
  }

  /** A name conflict or a missing network makes a create fail. */
  predicate CanCreateBox(r: Resources, role: Role) {
    BoxOf(r, role).None? && r.net
  }

  /** The daemon creates any named volume a mount refers to that does not exist yet. */
  function CreateBox(r: Resources, role: Role, cid: Cid): Resources {
    var r' := WithBox(r, role, Some(Box(cid, false)));
    if role.AgentRole? then r'.(workspace := true, config := true) else r'.(cache := true, workspace := true)
  }

  /** A network with an endpoint on it is refused. */
  predicate CanRemoveNet(r: Resources) {
    !r.proxied && !(r.agent.Some? && r.agent.value.running) && !(r.dind.Some? && r.dind.value.running)
  }

  predicate CanRemoveVolume(r: Resources, v: Volume) {
    !Pinned(r, v)
  }
}
