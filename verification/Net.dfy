/** The address plan: one block of 10.0.0.0/8 for each network ID (src/net.rs). */
module Net {
  import opened Types
  import opened NetIdPool

  datatype HostMapping = HostMapping(ip: Ipv4, name: Name)

  datatype Side = ClientSide | ServerSide

  datatype NetMessage =
    | VlanSetup(vlanId: nat, localVeth: Ipv4, remoteVeth: Ipv4,
                localIp: Ip, remoteIp: Ip, hostMapping: Option<HostMapping>)
    | VxlanSetup(vxlanId: nat, side: Side, nsNet: Ipv4, brNet: Ipv4,
                 localIp: Ip, remoteIp: Ip, hostMapping: Option<HostMapping>,
                 docker: Option<string>, dnatPort: Option<nat>)

  /** `10.a.b.(c + role)`, where a, b, c are the low octets of `offset`. */
  function OctetAddress(offset: nat, role: nat): Ipv4 {
    Ipv4(10, offset / 0x1_0000 % 0x100, offset / 0x100 % 0x100, (offset % 0x100 + role) % 0x100)
  }

  /** The offset is a 32-bit product. */
  function RoleAddress(id: nat, size: nat, role: nat): Ipv4 {
    OctetAddress(id * size % 0x1_0000_0000, role)
  }

  /** The part of a setup call that tells the two endpoints apart is `remoteServerName`: only the client gets one. */
  function VlanSetupFor(dest: Ip, remoteServerName: Option<Name>, id: nat, remote: Ip): (Ipv4, NetMessage) {
    var serverVeth := RoleAddress(id, 4, 1);
    var clientVeth := RoleAddress(id, 4, 2);
    var (local, other) := if remoteServerName.Some? then (clientVeth, serverVeth) else (serverVeth, clientVeth);
    var mapping := if remoteServerName.Some? then Some(HostMapping(serverVeth, remoteServerName.value)) else None;
    (serverVeth, VlanSetup(id, local, other, dest, remote, mapping))
  }

  function VxlanSetupFor(dest: Ip, remoteServerName: Option<Name>, id: nat, remote: Ip,
                         clientDocker: Option<string>, serverDocker: Option<string>, dnatPort: Option<nat>)
    : (Ipv4, NetMessage)
  {
    var nsServer := RoleAddress(id, 8, 1);
    var brServer := RoleAddress(id, 8, 2);
    var (ns, br, docker, side) :=
      if remoteServerName.Some? then (RoleAddress(id, 8, 3), RoleAddress(id, 8, 4), clientDocker, ClientSide)
      else (nsServer, brServer, serverDocker, ServerSide);
    var server := if serverDocker.Some? then nsServer else brServer;
    var mapping := if remoteServerName.Some? then Some(HostMapping(server, remoteServerName.value)) else None;
    (server, VxlanSetup(id, side, ns, br, dest, remote, mapping, docker, dnatPort))
  }

  function Setup(net: NetType, dest: Ip, remoteServerName: Option<Name>, id: nat, remote: Ip,
                 clientDocker: Option<string>, serverDocker: Option<string>, dnatPort: Option<nat>)
    : (Ipv4, NetMessage)
  {
    match net
    case Vlan => VlanSetupFor(dest, remoteServerName, id, remote)
    case Vxlan => VxlanSetupFor(dest, remoteServerName, id, remote, clientDocker, serverDocker, dnatPort)
  }

  function BlockSize(net: NetType): nat {
    match net case Vlan => 4 case Vxlan => 8
  }

  ghost predicate IsAddress(a: Ipv4) {
    0 <= a.a < 0x100 && 0 <= a.b < 0x100 && 0 <= a.c < 0x100 && 0 <= a.d < 0x100
  }

  ghost function AsNumber(a: Ipv4): int {
    ((a.a * 0x100 + a.b) * 0x100 + a.c) * 0x100 + a.d
  }

  /** The addresses 10.0.0.0 + id * size .. 10.0.0.0 + (id + 1) * size - 1. */
  ghost predicate InBlock(net: NetType, id: nat, a: Ipv4) {
    && IsAddress(a)
    && a.a == 10
    && id * BlockSize(net) <= AsNumber(a) - 10 * 0x100_0000 < (id + 1) * BlockSize(net)
  }

  ghost function AddressesIn(m: NetMessage): set<Ipv4> {
    (match m
     case VlanSetup(_, local, remote, _, _, _) => {local, remote}
     case VxlanSetup(_, _, ns, br, _, _, _, _, _) => {ns, br})
    + (if m.hostMapping.Some? then {m.hostMapping.value.ip} else {})
  }

  /** No octet overflows and the role is exactly the distance from the start of the block. */
  lemma RoleAddressExact(net: NetType, id: nat, role: nat)
    requires MIN_NET_ID <= id <= MaxNetId(net) && role < BlockSize(net)
    ensures id * BlockSize(net) + BlockSize(net) <= 0x100_0000
    ensures IsAddress(RoleAddress(id, BlockSize(net), role)) && RoleAddress(id, BlockSize(net), role).a == 10
    ensures AsNumber(RoleAddress(id, BlockSize(net), role)) == 10 * 0x100_0000 + id * BlockSize(net) + role
  {
    var offset := id * BlockSize(net);
    assert offset + BlockSize(net) <= 0x100_0000 && offset % BlockSize(net) == 0;
    assert offset % 0x1_0000_0000 == offset;
    AddressOfOffset(offset, BlockSize(net), role);
  }

  lemma AddressOfOffset(offset: nat, size: nat, role: nat)
    requires size == 4 || size == 8
    requires offset % size == 0 && offset < 0x100_0000 && role < size
    ensures IsAddress(OctetAddress(offset, role))
    ensures AsNumber(OctetAddress(offset, role)) == 10 * 0x100_0000 + offset + role
  {
    LowOctetHasRoom(offset, size);
    Octets(offset);
  }

  lemma LowOctetHasRoom(offset: nat, size: nat)
    requires size == 4 || size == 8
    requires offset % size == 0
    ensures offset % 0x100 + size <= 0x100
  {
    if size == 4 {
      RoomForFour(offset);
    } else {
      RoomForEight(offset);
    }
  }

  lemma RoomForFour(offset: nat)
    requires offset % 4 == 0
    ensures offset % 0x100 + 4 <= 0x100
  {
  }

  lemma RoomForEight(offset: nat)
    requires offset % 8 == 0
    ensures offset % 0x100 + 8 <= 0x100
  {
  }

  lemma Octets(offset: nat)
    requires offset < 0x100_0000
    ensures offset / 0x1_0000 % 0x100 == offset / 0x1_0000
    ensures (offset / 0x1_0000 * 0x100 + offset / 0x100 % 0x100) * 0x100 + offset % 0x100 == offset
  {
    assert offset / 0x1_0000 == offset / 0x100 / 0x100;
  }

  lemma RoleInBlock(net: NetType, id: nat, role: nat)
    requires MIN_NET_ID <= id <= MaxNetId(net) && role < BlockSize(net)
    ensures InBlock(net, id, RoleAddress(id, BlockSize(net), role))
    ensures RoleAddress(id, BlockSize(net), role) != UNSPECIFIED
    ensures forall other: nat :: other < role ==>
      RoleAddress(id, BlockSize(net), other) != RoleAddress(id, BlockSize(net), role)
  {
    RoleAddressExact(net, id, role);
    forall other: nat | other < role
      ensures RoleAddress(id, BlockSize(net), other) != RoleAddress(id, BlockSize(net), role)
    {
      RoleAddressExact(net, id, other);
    }
  }

  /**
   Both endpoints of a network are told the same server address; every address in either message
   lies in the block of the ID, and the two sides never share an address.
   */
  lemma SetupIsConsistent(net: NetType, client: Ip, server: Ip, name: Name, id: nat,
                          cd: Option<string>, sd: Option<string>, port: Option<nat>)
    requires MIN_NET_ID <= id <= MaxNetId(net)
    ensures var (a, toServer) := Setup(net, server, None, id, client, cd, sd, None);
      var (b, toClient) := Setup(net, client, Some(name), id, server, cd, sd, port);
      && a == b && a != UNSPECIFIED
      && toClient.hostMapping == Some(HostMapping(a, name)) && toServer.hostMapping == None
      && (forall x :: x in AddressesIn(toServer) ==> InBlock(net, id, x))
      && (forall x :: x in AddressesIn(toClient) ==> InBlock(net, id, x))
      && a in AddressesIn(toServer)
      && (net == Vlan ==>
            toServer.localVeth == toClient.remoteVeth == a && toServer.remoteVeth == toClient.localVeth != a)
      && (net == Vxlan ==>
            {toServer.nsNet, toServer.brNet} !! {toClient.nsNet, toClient.brNet} && toServer.nsNet != toServer.brNet
            && toClient.nsNet != toClient.brNet)
  {
    RoleInBlock(net, id, 1);
    RoleInBlock(net, id, 2);
    if net == Vxlan {
      RoleInBlock(net, id, 3);
      RoleInBlock(net, id, 4);
    }
  }

  /**
   As numbers, the addresses of a network are the start of its block plus 1 and 2 on the server's side and 2, or 3 and
   4, on the client's; the server is reached at plus 1, or at plus 2 if it is on a host of a VXLAN.
   */
  lemma AddressPlan(net: NetType, client: Ip, server: Ip, name: Name, id: nat,
                    cd: Option<string>, sd: Option<string>, port: Option<nat>)
    requires MIN_NET_ID <= id <= MaxNetId(net)
    ensures var (a, toServer) := Setup(net, server, None, id, client, cd, sd, None);
      var (b, toClient) := Setup(net, client, Some(name), id, server, cd, sd, port);
      && (net == Vlan ==>
            var start := 0x0a00_0000 + 4 * id;
            && toServer.VlanSetup? && AsNumber(a) == AsNumber(toServer.localVeth) == start + 1
            && toClient.VlanSetup? && AsNumber(toClient.localVeth) == start + 2)
      && (net == Vxlan ==>
            var start := 0x0a00_0000 + 8 * id;
            && toServer.VxlanSetup? && AsNumber(toServer.nsNet) == start + 1 && AsNumber(toServer.brNet) == start + 2
            && toClient.VxlanSetup? && AsNumber(toClient.nsNet) == start + 3 && AsNumber(toClient.brNet) == start + 4
            && AsNumber(a) == if sd.Some? then start + 1 else start + 2)
  {
    RoleAddressExact(net, id, 1);
    RoleAddressExact(net, id, 2);
    if net == Vxlan {
      RoleAddressExact(net, id, 3);
      RoleAddressExact(net, id, 4);
    }
  }

  /** The address under which the server of a network is reached: that of its container, if it runs in one. */
  function ServerAddress(net: NetType, id: nat, serverDocker: Option<string>): Ipv4 {
    match net
    case Vlan => RoleAddress(id, 4, 1)
    case Vxlan => if serverDocker.Some? then RoleAddress(id, 8, 1) else RoleAddress(id, 8, 2)
  }

  lemma ServerAddressInBlock(net: NetType, id: nat, serverDocker: Option<string>)
    requires MIN_NET_ID <= id <= MaxNetId(net)
    ensures InBlock(net, id, ServerAddress(net, id, serverDocker))
  {
    RoleInBlock(net, id, 1);
    RoleInBlock(net, id, 2);
  }

  /** Blocks of different IDs share no address. */
  lemma BlocksAreDisjoint(net: NetType, id: nat, other: nat, a: Ipv4)
    requires id != other
    requires InBlock(net, id, a)
    ensures !InBlock(net, other, a)
  {
    if id < other {
      assert (id + 1) * BlockSize(net) <= other * BlockSize(net);
    } else {
      assert (other + 1) * BlockSize(net) <= id * BlockSize(net);
    }
  }
}
