/** Values shared by every component of the control plane. */
module Types {

  datatype Option<+T> = None | Some(value: T)

  type Name = string

  /** Address of a node on the physical network; only its identity matters. */
  type Ip = nat

  /** An address of the overlay, kept as its four octets. */
  datatype Ipv4 = Ipv4(a: int, b: int, c: int, d: int)

  const UNSPECIFIED: Ipv4 := Ipv4(0, 0, 0, 0)

  datatype NetType = Vlan | Vxlan

  /** A replica is identified by its host and, if any, its container. */
  datatype ReplicaId = ReplicaId(ip: Ip, docker: Option<string>)

  /** Who uses a replica: a proxied user (`proxy` set) or the replica of an upstream service (`replica` set). */
  datatype Client = Client(name: Name, proxy: Option<Ip>, replica: Option<ReplicaId>)

  function ProxyClient(name: Name, proxy: Ip): Client {
    Client(name, Some(proxy), None)
  }

  function ServiceClient(name: Name, at: ReplicaId): Client {
    Client(name, None, Some(at))
  }

  datatype ClientInfo = ClientInfo(
    clientIp: Ip,
    clientNet: Ipv4,
    serverNet: Ipv4,
    netId: nat,
    activeChains: nat,
    latest: nat,
    docker: Option<string>)
  {
    function AddActiveChain(now: nat): ClientInfo {
      this.(activeChains := activeChains + 1, latest := now)
    }

    /** `saturating_sub`. */
    function RemoveActiveChain(): ClientInfo {
      this.(activeChains := if activeChains == 0 then 0 else activeChains - 1)
    }
  }

  /** A reserved slot: no network yet, no chain yet. */
  function Placeholder(clientIp: Ip, now: nat): ClientInfo {
    ClientInfo(clientIp, UNSPECIFIED, UNSPECIFIED, 0, 0, now, None)
  }

  datatype Replica = Replica(ip: Ip, port: nat, docker: Option<string>, clients: map<Client, ClientInfo>) {
    function Id(): ReplicaId { ReplicaId(ip, docker) }
  }

  datatype Config = Config(
    proxyDeps: seq<Name>,
    triggers: map<nat, seq<Name>>,
    timeout: Option<nat>,
    maxNetworks: Option<nat>)

  datatype ServiceInfo =
    | Unregistered(config: Config)
    | Registered(config: Config, replicas: seq<Replica>)

  type Services = map<Name, ServiceInfo>

  /** The place of one entry: client `client` in the table of replica `at` of service `server`. */
  datatype Link = Link(client: Client, server: Name, at: ReplicaId)

  /** One call that takes a network down: its two endpoints and its ID. */
  datatype Down = Down(client: Ip, clientDocker: Option<string>, server: Ip, serverDocker: Option<string>, netId: nat)

  /** One second of the clock that time stamps and durations are counted in. */
  const SECOND: nat := 1_000_000_000

  /** `duration_since`: never negative. */
  function Since(now: nat, earlier: nat): nat {
    if earlier <= now then now - earlier else 0
  }

  /** `list` holds exactly the elements of `all`, once each, in some order. */
  ghost predicate Enumerates<T>(list: seq<T>, all: set<T>) {
    && (forall x :: x in list ==> x in all)
    && (forall x :: x in all ==> x in list)
    && (forall i, j :: 0 <= i < j < |list| ==> list[i] != list[j])
  }

  /** `list` holds exactly the elements of `all`, in some order, possibly more than once. */
  ghost predicate Covers<T>(list: seq<T>, all: set<T>) {
    && (forall x :: x in list ==> x in all)
    && (forall x :: x in all ==> x in list)
  }
}
