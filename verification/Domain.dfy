/** Entities that several services share. */
module Domain {
  import opened Wrappers

  datatype InstanceStatus =
    Pending | Creating | Running | Stopped | Restarting | Frozen | Error | Deleting | Deleted

  datatype InstanceType = Container | VirtualMachine

  datatype Instance = Instance(
    name: string,
    user: string,
    node: string,
    kind: InstanceType,
    status: InstanceStatus,
    cpuCores: int,
    memoryBytes: int,
    storageBytes: int)

  datatype NodeStatus =
    Enrolling | Online | Degraded | Unhealthy | Draining | Offline | Revoked | Maintenance

  /** The two capabilities the services look up are options: a missing or untyped entry is None. */
  datatype Node = Node(
    location: string,
    status: NodeStatus,
    cpuCores: int,
    memoryBytes: int,
    storageBytes: int,
    cpuOvercommit: real,
    memoryOvercommit: real,
    architecture: Option<string>,
    kvmSupported: Option<bool>,
    maintenanceMode: bool,
    drainMode: bool,
    lastHeartbeat: Option<int>)

  predicate IsSchedulable(n: Node) {
    && (n.status.Online? || n.status.Degraded?)
    && !n.maintenanceMode
    && !n.drainMode
  }

  /** Go's integer division, which truncates toward zero. */
  function TruncatedDiv(a: int, b: int): (q: int)
    requires 0 < b
    ensures 0 <= a ==> q == a / b
    ensures a <= 0 ==> q <= 0
  {
    if a < 0 then -((-a) / b) else a / b
  }
}
