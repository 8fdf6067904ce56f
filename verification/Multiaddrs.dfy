/** Multiaddresses and socket addresses (sf-wt-transport: lib.rs, listener/native.rs, platform/native.rs;
    sf-node/src/node.rs). A multiaddress is the sequence of its components. */
module Multiaddrs {
  import opened Bytes

  type u16 = x: int | 0 <= x < 0x1_0000
  type u32 = x: int | 0 <= x < 0x1_0000_0000
  type u128 = x: int | 0 <= x < 0x1_0000_0000_0000_0000_0000_0000_0000_0000

  type PeerId = seq<u8>

  datatype IpAddr = V4(v4: u32) | V6(v6: u128)

  datatype SocketAddr = SocketAddr(ip: IpAddr, port: u16)

  /** The components that the code tells apart, and all others. */
  datatype Protocol =
    | Ip4(v4: u32)
    | Ip6(v6: u128)
    | Udp(udp: u16)
    | Tcp(tcp: u16)
    | QuicV1
    | WebTransport
    | P2p(id: PeerId)
    | Other(code: nat)

  type Multiaddr = seq<Protocol>

  function OfIp(ip: IpAddr): Protocol {
    match ip case V4(a) => Ip4(a) case V6(a) => Ip6(a)
  }

  function AsIp(p: Protocol): Option<IpAddr> {
    match p case Ip4(a) => Some(V4(a)) case Ip6(a) => Some(V6(a)) case _ => None
  }

  function AsPort(p: Protocol): Option<u16> {
    match p case Udp(port) => Some(port) case Tcp(port) => Some(port) case _ => None
  }

  function SocketaddrToMultiaddr(a: SocketAddr): Multiaddr {
    [OfIp(a.ip), Udp(a.port), QuicV1, WebTransport]
  }

  // ----- back to socket addresses -----

  /** The shape that `multiaddr_to_socketaddr` accepts: its third component is skipped, its tail is all P2p. */
  predicate IsDialable(addr: Multiaddr) {
    && |addr| >= 4 && AsIp(addr[0]).Some? && addr[1].Udp? && addr[3].WebTransport?
    && forall i :: 4 <= i < |addr| ==> addr[i].P2p?
  }

  /** The socket address, and the last of the peer identifiers, that an address names. */
  ghost predicate Names(addr: Multiaddr, a: SocketAddr, peer: Option<PeerId>) {
    && IsDialable(addr) && addr[0] == OfIp(a.ip) && addr[1] == Udp(a.port)
    && peer == if |addr| == 4 then None else Some(addr[|addr| - 1].id)
  }

  method MultiaddrToSocketaddr(addr: Multiaddr) returns (r: Option<(SocketAddr, Option<PeerId>)>)
    ensures r.Some? <==> IsDialable(addr)
    ensures r.Some? ==> Names(addr, r.value.0, r.value.1)
  {
    if |addr| < 4 || !addr[3].WebTransport? {
      return None;
    }
    var peer := None;
    for i := 4 to |addr|
      invariant forall j :: 4 <= j < i ==> addr[j].P2p?
      invariant peer == if i == 4 then None else Some(addr[i - 1].id)
    {
      if !addr[i].P2p? {
        return None;
      }
      peer := Some(addr[i].id);
    }
    match (addr[0], addr[1]) {
      case (Ip4(a), Udp(port)) => return Some((SocketAddr(V4(a), port), peer));
      case (Ip6(a), Udp(port)) => return Some((SocketAddr(V6(a), port), peer));
      case _ => return None;
    }
  }

  function P2ps(ids: seq<PeerId>): Multiaddr {
    seq(|ids|, i requires 0 <= i < |ids| => P2p(ids[i]))
  }

  function Last(ids: seq<PeerId>): Option<PeerId> {
    if ids == [] then None else Some(ids[|ids| - 1])
  }

  /** What a listener announces for a socket address names exactly that socket address, whatever peer identifiers
      are put after it; the last of them is the one reported. */
  lemma AnnouncedNamesBack(a: SocketAddr, ids: seq<PeerId>, b: SocketAddr, peer: Option<PeerId>)
    ensures Names(SocketaddrToMultiaddr(a) + P2ps(ids), b, peer) <==> b == a && peer == Last(ids)
    ensures |SocketaddrToMultiaddr(a)| == 4 && SocketaddrToMultiaddr(a)[2] == QuicV1
  {
    var addr := SocketaddrToMultiaddr(a) + P2ps(ids);
    assert forall i :: 4 <= i < |addr| ==> addr[i] == P2p(ids[i - 4]);
    assert addr[0] == OfIp(a.ip) && addr[1] == Udp(a.port) && addr[3] == WebTransport;
  }

  method DialAnnounced(a: SocketAddr, ids: seq<PeerId>) returns (r: Option<(SocketAddr, Option<PeerId>)>)
    ensures r == Some((a, Last(ids)))
  {
    r := MultiaddrToSocketaddr(SocketaddrToMultiaddr(a) + P2ps(ids));
    AnnouncedNamesBack(a, ids, a, Last(ids));
    if r.Some? {
      AnnouncedNamesBack(a, ids, r.value.0, r.value.1);
    }
  }

  /** Different socket addresses are announced differently, even with peer identifiers after them. */
  lemma AnnouncementIsInjective(a: SocketAddr, b: SocketAddr, ids: seq<PeerId>, jds: seq<PeerId>)
    requires SocketaddrToMultiaddr(a) + P2ps(ids) == SocketaddrToMultiaddr(b) + P2ps(jds)
    ensures a == b && Last(ids) == Last(jds)
  {
    AnnouncedNamesBack(a, ids, a, Last(ids));
    AnnouncedNamesBack(b, jds, a, Last(ids));
  }

  // ----- the address and port of a listener -----

  /** The last component that carries an address, if any. */
  function LastIp(addr: Multiaddr): Option<IpAddr> {
    if addr == [] then None
    else if AsIp(addr[|addr| - 1]).Some? then AsIp(addr[|addr| - 1])
    else LastIp(addr[..|addr| - 1])
  }

  function LastPort(addr: Multiaddr): Option<u16> {
    if addr == [] then None
    else if AsPort(addr[|addr| - 1]).Some? then AsPort(addr[|addr| - 1])
    else LastPort(addr[..|addr| - 1])
  }

  method ExtractIpPort(addr: Multiaddr) returns (r: Outcome<(IpAddr, u16), Multiaddr>)
    ensures r == if LastIp(addr).Some? && LastPort(addr).Some?
                 then Outcome.Ok((LastIp(addr).value, LastPort(addr).value)) else Err(addr)
  {
    var ip: Option<IpAddr>, port: Option<u16> := None, None;
    for i := 0 to |addr|
      invariant ip == LastIp(addr[..i]) && port == LastPort(addr[..i])
    {
      assert addr[..i + 1][..i] == addr[..i];
      match addr[i] {
        case Ip4(a) => ip := Some(V4(a));
        case Ip6(a) => ip := Some(V6(a));
        case Udp(p) => port := Some(p);
        case Tcp(p) => port := Some(p);
        case _ =>
      }
    }
    assert addr[..|addr|] == addr;
    if ip.Some? && port.Some? {
      return Outcome.Ok((ip.value, port.value));
    }
    r := Err(addr);
  }

  /** Nothing from `n` on carries an address, or nothing carries a port. */
  ghost predicate NoIpFrom(addr: Multiaddr, n: nat) {
    forall i :: n <= i < |addr| ==> !addr[i].Ip4? && !addr[i].Ip6?
  }

  ghost predicate NoPortFrom(addr: Multiaddr, n: nat) {
    forall i :: n <= i < |addr| ==> !addr[i].Udp? && !addr[i].Tcp?
  }

  /** An address component counts when no other comes after it, a UDP or TCP port likewise. */
  lemma {:induction false} LastOfEach(addr: Multiaddr, n: nat)
    requires n < |addr|
    ensures NoIpFrom(addr, n + 1) && addr[n].Ip4? ==> LastIp(addr) == Some(V4(addr[n].v4))
    ensures NoIpFrom(addr, n + 1) && addr[n].Ip6? ==> LastIp(addr) == Some(V6(addr[n].v6))
    ensures NoPortFrom(addr, n + 1) && addr[n].Udp? ==> LastPort(addr) == Some(addr[n].udp)
    ensures NoPortFrom(addr, n + 1) && addr[n].Tcp? ==> LastPort(addr) == Some(addr[n].tcp)
  {
    if n + 1 < |addr| {
      LastOfEach(addr[..|addr| - 1], n);
      assert addr[..|addr| - 1][n] == addr[n];
    }
  }

  lemma {:induction false} NoneOfEach(addr: Multiaddr)
    ensures NoIpFrom(addr, 0) <==> LastIp(addr).None?
    ensures NoPortFrom(addr, 0) <==> LastPort(addr).None?
  {
    if addr != [] {
      var init := addr[..|addr| - 1];
      NoneOfEach(init);
      assert addr == init + [addr[|addr| - 1]];
    }
  }

  lemma {:induction false} PeersHideNothing(addr: Multiaddr, n: nat)
    requires n <= |addr| && forall i :: n <= i < |addr| ==> addr[i].P2p?
    ensures LastIp(addr) == LastIp(addr[..n]) && LastPort(addr) == LastPort(addr[..n])
  {
    if n < |addr| {
      PeersHideNothing(addr[..|addr| - 1], n);
      assert addr[..|addr| - 1][..n] == addr[..n];
    } else {
      assert addr[..n] == addr;
    }
  }

  lemma FirstFour(addr: Multiaddr)
    requires IsDialable(addr)
    ensures LastIp(addr) == if AsIp(addr[2]).Some? then AsIp(addr[2]) else AsIp(addr[0])
    ensures LastPort(addr) == if AsPort(addr[2]).Some? then AsPort(addr[2]) else AsPort(addr[1])
  {
    PeersHideNothing(addr, 4);
    var four := addr[..4];
    assert four[..3] == addr[..3] && addr[..3][..2] == addr[..2] && addr[..2][..1] == addr[..1];
    assert LastIp(four) == LastIp(addr[..3]) && LastPort(four) == LastPort(addr[..3]);
    assert LastIp(addr[..2]) == LastIp(addr[..1]) == AsIp(addr[0]);
    assert LastPort(addr[..2]) == AsPort(addr[1]);
  }

  /** On addresses that both accept, the two readers agree exactly when the component that one of them skips carries
      no other address and no other port. */
  lemma ReadersAgree(addr: Multiaddr, a: SocketAddr, peer: Option<PeerId>)
    requires Names(addr, a, peer)
    ensures LastIp(addr) == Some(a.ip) && LastPort(addr) == Some(a.port) <==>
            (AsIp(addr[2]).None? || AsIp(addr[2]) == Some(a.ip))
            && (AsPort(addr[2]).None? || AsPort(addr[2]) == Some(a.port))
  {
    FirstFour(addr);
  }

  /** Listening on what was announced binds the announced address. */
  method ListenOnAnnounced(a: SocketAddr, ids: seq<PeerId>) returns (r: Outcome<(IpAddr, u16), Multiaddr>)
    ensures r == Outcome.Ok((a.ip, a.port))
  {
    var addr := SocketaddrToMultiaddr(a) + P2ps(ids);
    AnnouncedNamesBack(a, ids, a, Last(ids));
    ReadersAgree(addr, a, Last(ids));
    r := ExtractIpPort(addr);
  }

  // ----- choosing a transport -----

  datatype DialError = NoProtocolsInMultiaddr | TransportNotFound

  method ExtractProtocol(addr: Multiaddr) returns (found: bool)
    ensures found <==> WebTransport in addr
  {
    found := false;
    for i := 0 to |addr|
      invariant WebTransport !in addr[..i]
    {
      if addr[i].WebTransport? {
        found := true;
        break;
      }
    }
    assert addr[..|addr|] == addr;
  }

  /** `Node::dial` as far as the address to connect to: the transport unwraps it, so an address that mentions
      WebTransport but is not dialable panics. */
  method Dial(hasWebTransport: bool, addr: Multiaddr) returns (r: Outcome<(SocketAddr, Option<PeerId>), DialError>)
    ensures r == Err(NoProtocolsInMultiaddr) <==> WebTransport !in addr
    ensures r == Err(TransportNotFound) <==> WebTransport in addr && !hasWebTransport
    ensures r == Panicked <==> WebTransport in addr && hasWebTransport && !IsDialable(addr)
    ensures r.Ok? ==> Names(addr, r.value.0, r.value.1)
  {
    var found := ExtractProtocol(addr);
    if !found {
      return Err(NoProtocolsInMultiaddr);
    }
    if !hasWebTransport {
      return Err(TransportNotFound);
    }
    var target := MultiaddrToSocketaddr(addr);
    r := if target.Some? then Outcome.Ok(target.value) else Panicked;
  }

  // ----- interface addresses -----

  predicate IsSame(a: IpAddr, b: IpAddr) { (a.V4? && b.V4?) || (a.V6? && b.V6?) }

  function IpToListenaddr(bind: SocketAddr, ip: IpAddr): Option<Multiaddr> {
    if !IsSame(bind.ip, ip) then None else Some(SocketaddrToMultiaddr(SocketAddr(ip, bind.port)))
  }

  /** A listener announces an interface address precisely when the families agree, and different interface
      addresses differently. */
  lemma ListenaddrIsInjective(bind: SocketAddr, ip: IpAddr, ip': IpAddr)
    ensures IpToListenaddr(bind, ip).Some? <==> (bind.ip.V4? <==> ip.V4?)
    ensures IpToListenaddr(bind, ip).Some? ==>
              Names(IpToListenaddr(bind, ip).value, SocketAddr(ip, bind.port), None)
              && |IpToListenaddr(bind, ip).value| == 4 && IpToListenaddr(bind, ip).value[2] == QuicV1
              && (IpToListenaddr(bind, ip) == IpToListenaddr(bind, ip') <==> ip == ip')
  {
    if IsSame(bind.ip, ip) {
      AnnouncedNamesBack(SocketAddr(ip, bind.port), [], SocketAddr(ip, bind.port), None);
      AnnouncedNamesBack(SocketAddr(ip', bind.port), [], SocketAddr(ip, bind.port), None);
      assert SocketaddrToMultiaddr(SocketAddr(ip, bind.port)) + P2ps([]) == SocketaddrToMultiaddr(SocketAddr(ip, bind.port));
      assert SocketaddrToMultiaddr(SocketAddr(ip', bind.port)) + P2ps([]) == SocketaddrToMultiaddr(SocketAddr(ip', bind.port));
    }
  }
}
