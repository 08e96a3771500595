/** The BPF map entries of a container: one map keyed both by host port and by pod address, one keyed by
    port and one keyed by interface index, as CNI ADD and DEL write them. */
module Datapath {
  import opened Byte
  import opened Option

  type Ip = a: seq<byte> | |a| == 4 witness [0, 0, 0, 0]

  type Mac = m: seq<byte> | |m| == 6 witness [0, 0, 0, 0, 0, 0]

  type U16 = x: nat | x < 0x1_0000

  type U32 = x: nat | x < 0x1_0000_0000

  function ToU32(x: nat): U32 {
    x % 0x1_0000_0000
  }

  function ToU8(x: nat): nat {
    x % 256
  }

  // ---- Addresses as map keys ----

  function IpToInt(ip: Ip): U32 {
    ((ip[0] as int * 256 + ip[1] as int) * 256 + ip[2] as int) * 256 + ip[3] as int
  }

  function IntToIp(v: U32): Ip {
    [(v / 0x100_0000) as byte, ((v / 0x1_0000) % 256) as byte, ((v / 256) % 256) as byte, (v % 256) as byte]
  }

  /** No address is lost or confused on its way into a key and back. */
  lemma IpRoundTrip(ip: Ip)
    ensures IntToIp(IpToInt(ip)) == ip
  {
    var v := IpToInt(ip);
    assert v / 256 == (ip[0] as int * 256 + ip[1] as int) * 256 + ip[2] as int;
    assert v / 0x1_0000 == ip[0] as int * 256 + ip[1] as int;
    assert v / 0x100_0000 == ip[0] as int;
  }

  // ---- Containers and map values ----

  datatype Peer = Peer(name: string, index: nat, mac: Mac, addr: Ip)

  datatype Veth = Veth(host: Peer, pod: Peer)

  datatype NetData = NetData(veth: Veth, port: U16)

  datatype PeerValue = PeerValue(index: U32, addr: U32, mac: Mac)

  datatype NetValue = NetValue(pod: PeerValue, host: PeerValue, port: U16)

  datatype DnatTarget = DnatTarget(addr: U32, index: nat, mac: Mac)

  datatype VethEntry = VethEntry(hostIndex: U32, hostAddr: U32)

  function PeerToValue(p: Peer): PeerValue {
    PeerValue(ToU32(p.index), IpToInt(p.addr), p.mac)
  }

  function ToValue(d: NetData): NetValue {
    NetValue(PeerToValue(d.veth.pod), PeerToValue(d.veth.host), d.port)
  }

  function FromPeerValue(v: PeerValue): Peer {
    Peer("", v.index, v.mac, IntToIp(v.addr))
  }

  function FromValue(v: NetValue): NetData {
    NetData(Veth(FromPeerValue(v.host), FromPeerValue(v.pod)), v.port)
  }

  /** The target's interface index is one byte wide. */
  function ToTarget(d: NetData): DnatTarget {
    DnatTarget(IpToInt(d.veth.pod.addr), ToU8(d.veth.host.index), d.veth.pod.mac)
  }

  function ToVethEntry(v: Veth): VethEntry {
    VethEntry(ToU32(v.host.index), IpToInt(v.host.addr))
  }

  function Unnamed(d: NetData): NetData {
    NetData(Veth(d.veth.host.(name := ""), d.veth.pod.(name := "")), d.port)
  }

  predicate Indexable(d: NetData) {
    d.veth.host.index < 0x1_0000_0000 && d.veth.pod.index < 0x1_0000_0000
  }

  /** All of a container but the interface names is kept in a map value. */
  lemma ValueRoundTrip(d: NetData)
    requires Indexable(d)
    ensures FromValue(ToValue(d)) == Unnamed(d)
  {
    IpRoundTrip(d.veth.host.addr);
    IpRoundTrip(d.veth.pod.addr);
  }

  /** The DNAT target carries the host interface if and only if its index fits a byte. */
  lemma TargetIndexIff(d: NetData)
    ensures ToTarget(d).index == d.veth.host.index <==> d.veth.host.index < 256
  {
  }

  // ---- The maps ----

  datatype Maps = Maps(net: map<U32, NetValue>, dnat: map<U16, DnatTarget>, veths: map<U32, VethEntry>)

  /** What the maps know of a container: its keys and what is stored under them. */
  datatype Entry = Entry(
    port: U16, addr: U32, host: U32, pod: U32, value: NetValue, target: DnatTarget, veth: VethEntry)

  function EntryOf(d: NetData): Entry {
    Entry(d.port, IpToInt(d.veth.pod.addr), ToU32(d.veth.host.index), ToU32(d.veth.pod.index),
          ToValue(d), ToTarget(d), ToVethEntry(d.veth))
  }

  /** What is read back under a container's port has the container's own keys and values. */
  lemma EntryRoundTrip(d: NetData)
    requires Indexable(d)
    ensures EntryOf(FromValue(EntryOf(d).value).(port := d.port)) == EntryOf(d)
  {
    ValueRoundTrip(d);
  }

  /** What an ADD puts into the maps. */
  function Added(m: Maps, e: Entry): Maps {
    Maps(m.net[e.port := e.value][e.addr := e.value], m.dnat[e.port := e.target],
         m.veths[e.host := e.veth][e.pod := e.veth])
  }

  /** What a DEL that finds every key takes out of them. */
  function Removed(m: Maps, e: Entry): Maps {
    Maps(m.net - {e.port} - {e.addr}, m.dnat - {e.port}, m.veths - {e.host} - {e.pod})
  }

  /** What any DEL of these keys leaves: the deletion of the first missing key is the last one. Port and
      address are one key if they are equal. */
  function Deleted(m: Maps, e: Entry): Maps {
    var net := if e.port in m.net then m.net - {e.port} - {e.addr} else m.net;
    if e.port in m.net && e.addr in m.net && e.port != e.addr && e.port in m.dnat then
      Maps(net, m.dnat - {e.port}, if e.host in m.veths then m.veths - {e.host} - {e.pod} else m.veths)
    else
      m.(net := net)
  }

  /** All keys of a container are in the maps, no two of them the same. */
  predicate Present(m: Maps, e: Entry) {
    && e.port in m.net && e.addr in m.net && e.port != e.addr
    && e.port in m.dnat
    && e.host in m.veths && e.pod in m.veths && e.host != e.pod
  }

  class Objects {
    var net: map<U32, NetValue>
    var dnat: map<U16, DnatTarget>
    var veths: map<U32, VethEntry>

    function Contents(): Maps
      reads this
    {
      Maps(net, dnat, veths)
    }

    constructor ()
      ensures Contents() == Maps(map[], map[], map[])
    {
      net, dnat, veths := map[], map[], map[];
    }

    method AddNetData(d: NetData)
      modifies this
      ensures Contents() == old(Contents()).(net := old(net)[d.port := ToValue(d)][IpToInt(d.veth.pod.addr) := ToValue(d)])
    {
      var value := ToValue(d);
      net := net[d.port := value];
      net := net[value.pod.addr := value];
    }

    /** The lookup by port; the interfaces come back without their names. */
    method GetNetData(port: U16) returns (r: Option<NetData>)
      ensures r == if port in net then Some(FromValue(net[port])) else None
    {
      if port !in net {
        return None;
      }
      return Some(FromValue(net[port]));
    }

    /** Deleting a missing key is an error and ends the call: a missing port leaves the address in. */
    method DelNetData(d: NetData) returns (ok: bool)
      modifies this
      ensures var addr := IpToInt(d.veth.pod.addr);
              && (ok <==> d.port in old(net) && addr in old(net) && d.port != addr)
              && Contents() == old(Contents()).(net := if d.port !in old(net) then old(net) else old(net) - {d.port} - {addr})
    {
      var addr := IpToInt(d.veth.pod.addr);
      if d.port !in net {
        return false;
      }
      net := net - {d.port};
      if addr !in net {
        assert net - {addr} == net;
        return false;
      }
      net := net - {addr};
      return true;
    }

    method AddDNATTarget(d: NetData)
      modifies this
      ensures Contents() == old(Contents()).(dnat := old(dnat)[d.port := ToTarget(d)])
    {
      dnat := dnat[d.port := ToTarget(d)];
    }

    method DelDNATTarget(port: U16) returns (ok: bool)
      modifies this
      ensures ok <==> port in old(dnat)
      ensures Contents() == old(Contents()).(dnat := old(dnat) - {port})
    {
      ok := port in dnat;
      dnat := dnat - {port};
    }

    method AddVethPairEntry(v: Veth)
      modifies this
      ensures Contents() == old(Contents()).(veths :=
                old(veths)[ToU32(v.host.index) := ToVethEntry(v)][ToU32(v.pod.index) := ToVethEntry(v)])
    {
      veths := veths[ToU32(v.host.index) := ToVethEntry(v)];
      veths := veths[ToU32(v.pod.index) := ToVethEntry(v)];
    }

    method DelVethPairEntry(v: Veth) returns (ok: bool)
      modifies this
      ensures ok <==> ToU32(v.host.index) in old(veths) && ToU32(v.pod.index) in old(veths)
                      && ToU32(v.host.index) != ToU32(v.pod.index)
      ensures Contents() == old(Contents()).(veths :=
                if ToU32(v.host.index) !in old(veths) then old(veths)
                else old(veths) - {ToU32(v.host.index)} - {ToU32(v.pod.index)})
    {
      if ToU32(v.host.index) !in veths {
        return false;
      }
      veths := veths - {ToU32(v.host.index)};
      if ToU32(v.pod.index) !in veths {
        assert veths - {ToU32(v.pod.index)} == veths;
        return false;
      }
      veths := veths - {ToU32(v.pod.index)};
      return true;
    }

    /** The map writes of a CNI ADD, in its order. */
    method ExecAdd(d: NetData)
      modifies this
      ensures Contents() == Added(old(Contents()), EntryOf(d))
    {
      AddVethPairEntry(d.veth);
      AddDNATTarget(d);
      AddNetData(d);
    }

    /** Three deletions, of which a failing one ends the call. */
    method DelMapEntries(d: NetData) returns (ok: bool)
      modifies this
      ensures ok <==> Present(old(Contents()), EntryOf(d))
      ensures Contents() == Deleted(old(Contents()), EntryOf(d))
    {
      ok := DelNetData(d);
      if !ok {
        return;
      }
      ok := DelDNATTarget(d.port);
      if !ok {
        assert dnat == old(dnat);
        return;
      }
      ok := DelVethPairEntry(d.veth);
    }

    /** A CNI DEL: the container is looked up by its port, then its entries go. It never reports an
        error; `found` and `ok` say what it logs. A second DEL of the port finds nothing any more,
        whatever the first one left. */
    method ExecDel(port: U16) returns (found: bool, ok: bool)
      modifies this
      ensures found <==> port in old(net)
      ensures port !in net
      ensures !found ==> Contents() == old(Contents())
      ensures found ==>
                var e := EntryOf(FromValue(old(net)[port]).(port := port));
                && (ok <==> Present(old(Contents()), e))
                && Contents() == Deleted(old(Contents()), e)
    {
      var data := GetNetData(port);
      if data.None? {
        return false, false;
      }
      found := true;
      ok := DelMapEntries(NetData(data.value.veth, port));
    }
  }

  // ---- What the maps hold ----

  /** Two containers that share no key. */
  predicate Separate(a: Entry, b: Entry) {
    && a.port != b.port && a.addr != b.addr
    && a.host != b.host && a.host != b.pod && a.pod != b.host && a.pod != b.pod
  }

  /** A pod address that cannot be mistaken for a port, and two different interfaces. */
  predicate Usable(e: Entry) {
    e.addr >= 0x1_0000 && e.host != e.pod
  }

  ghost predicate Distinct(live: set<Entry>) {
    && (forall e | e in live :: Usable(e))
    && (forall a, b | a in live && b in live && a != b :: Separate(a, b))
  }

  ghost predicate HasEntries(m: Maps, e: Entry) {
    && e.port in m.net && m.net[e.port] == e.value && e.addr in m.net && m.net[e.addr] == e.value
    && e.port in m.dnat && m.dnat[e.port] == e.target
    && e.host in m.veths && m.veths[e.host] == e.veth && e.pod in m.veths && m.veths[e.pod] == e.veth
  }

  /** Some live container has the key. */
  ghost predicate NetKey(live: set<Entry>, k: U32) {
    exists e | e in live :: k == e.port || k == e.addr
  }

  ghost predicate DnatKey(live: set<Entry>, k: U16) {
    exists e | e in live :: k == e.port
  }

  ghost predicate VethKey(live: set<Entry>, k: U32) {
    exists e | e in live :: k == e.host || k == e.pod
  }

  /** The maps hold the entries of the live containers and nothing else. */
  ghost predicate Exact(m: Maps, live: set<Entry>) {
    && (forall e {:trigger HasEntries(m, e)} | e in live :: HasEntries(m, e))
    && (forall k | k in m.net :: NetKey(live, k))
    && (forall k | k in m.dnat :: DnatKey(live, k))
    && (forall k | k in m.veths :: VethKey(live, k))
  }

  lemma AddKeepsExact(m: Maps, live: set<Entry>, e: Entry)
    requires Exact(m, live) && Distinct(live + {e}) && e !in live
    ensures Exact(Added(m, e), live + {e})
  {
    var m', live' := Added(m, e), live + {e};
    assert e in live' && Usable(e);
    forall c | c in live
      ensures HasEntries(m', c)
    {
      assert c in live' && Separate(c, e) && HasEntries(m, c);
      EntriesKept(m, e, c);
    }
    assert HasEntries(m', e);
    KeysGrow(live, live');
  }

  lemma EntriesKept(m: Maps, e: Entry, c: Entry)
    requires Usable(e) && Usable(c) && Separate(c, e) && HasEntries(m, c)
    ensures HasEntries(Added(m, e), c)
  {
  }

  lemma KeysGrow(live: set<Entry>, live': set<Entry>)
    requires live <= live'
    ensures forall k :: NetKey(live, k) ==> NetKey(live', k)
    ensures forall k :: DnatKey(live, k) ==> DnatKey(live', k)
    ensures forall k :: VethKey(live, k) ==> VethKey(live', k)
  {
  }

  lemma DelKeepsExact(m: Maps, live: set<Entry>, e: Entry)
    requires Exact(m, live) && Distinct(live) && e in live
    ensures Present(m, e) && Exact(Removed(m, e), live - {e})
  {
    var m', live' := Removed(m, e), live - {e};
    assert HasEntries(m, e) && Usable(e);
    forall c | c in live'
      ensures HasEntries(m', c)
    {
      assert Separate(c, e) && Usable(c) && HasEntries(m, c);
    }
    forall k | k in m'.net
      ensures NetKey(live', k)
    {
      var c :| c in live && (k == c.port || k == c.addr);
      assert c in live';
    }
    forall k | k in m'.dnat
      ensures DnatKey(live', k)
    {
      var c :| c in live && k == c.port;
      assert c in live';
    }
    forall k | k in m'.veths
      ensures VethKey(live', k)
    {
      var c :| c in live && (k == c.host || k == c.pod);
      assert c in live';
    }
  }

  /** The live containers determine the maps. */
  lemma ExactUnique(m: Maps, n: Maps, live: set<Entry>)
    requires Exact(m, live) && Exact(n, live)
    ensures m == n
  {
    SameEntries(m, n, live);
    SameEntries(n, m, live);
    assert m.net == n.net;
    assert m.dnat == n.dnat;
    assert m.veths == n.veths;
  }

  lemma SameEntries(m: Maps, n: Maps, live: set<Entry>)
    requires Exact(m, live) && Exact(n, live)
    ensures forall k | k in m.net :: k in n.net && n.net[k] == m.net[k]
    ensures forall k | k in m.dnat :: k in n.dnat && n.dnat[k] == m.dnat[k]
    ensures forall k | k in m.veths :: k in n.veths && n.veths[k] == m.veths[k]
  {
    forall k | k in m.net
      ensures k in n.net && n.net[k] == m.net[k]
    {
      var e :| e in live && (k == e.port || k == e.addr);
      assert HasEntries(m, e) && HasEntries(n, e);
    }
    forall k | k in m.dnat
      ensures k in n.dnat && n.dnat[k] == m.dnat[k]
    {
      var e :| e in live && k == e.port;
      assert HasEntries(m, e) && HasEntries(n, e);
    }
    forall k | k in m.veths
      ensures k in n.veths && n.veths[k] == m.veths[k]
    {
      var e :| e in live && (k == e.host || k == e.pod);
      assert HasEntries(m, e) && HasEntries(n, e);
    }
  }

  // ---- A DEL after an ADD ----

  predicate Unused(m: Maps, e: Entry) {
    e.port !in m.net && e.addr !in m.net && e.port !in m.dnat && e.host !in m.veths && e.pod !in m.veths
  }

  /** The container's own entries in two of the maps and nothing under its port in the third: what a
      DEL leaves behind that stops after the first map. */
  predicate HalfGone(m: Maps, e: Entry) {
    && e.port !in m.net
    && e.port in m.dnat && m.dnat[e.port] == e.target
    && e.host in m.veths && m.veths[e.host] == e.veth && e.pod in m.veths && m.veths[e.pod] == e.veth
  }

  /** ADD then DEL restores the maps if and only if none of the container's keys was in use and its
      address is not its port, save that leftovers of the container itself are restored too. */
  lemma RestoredIff(m: Maps, e: Entry)
    ensures Deleted(Added(m, e), e) == m <==>
            if e.port != e.addr then Unused(m, e) else HalfGone(m, e)
  {
    var n := Added(m, e);
    if e.port != e.addr {
      assert Deleted(n, e) == Removed(n, e);
    } else {
      assert Deleted(n, e) == n.(net := n.net - {e.port});
      if HalfGone(m, e) {
        assert n.dnat == m.dnat && n.veths == m.veths;
      }
    }
  }

  /** The same where no target is without its container: there the two conditions are all. */
  lemma RestoredWhereExact(m: Maps, live: set<Entry>, e: Entry)
    requires Exact(m, live)
    ensures Deleted(Added(m, e), e) == m <==> Unused(m, e) && e.port != e.addr
  {
    RestoredIff(m, e);
    if HalfGone(m, e) {
      var c :| c in live && e.port == c.port;
      assert HasEntries(m, c);
    }
  }

  /** What is read back under a container's port has the container's own keys, however wide its
      interface indexes are. */
  lemma ReadBackKeys(d: NetData)
    ensures var e := EntryOf(FromValue(ToValue(d)).(port := d.port));
            && e.port == d.port && e.addr == EntryOf(d).addr
            && e.host == EntryOf(d).host && e.pod == EntryOf(d).pod
  {
    IpRoundTrip(d.veth.pod.addr);
  }

  lemma SameKeysDeleted(m: Maps, e: Entry, f: Entry)
    requires e.port == f.port && e.addr == f.addr && e.host == f.host && e.pod == f.pod
    ensures Deleted(m, e) == Deleted(m, f)
  {
  }

  /** A container comes and goes: the DEL finds it, and the maps are the old ones exactly under the
      condition of `RestoredIff`. */
  method AddThenDel(o: Objects, d: NetData) returns (ok: bool)
    modifies o
    ensures var e := EntryOf(d);
            && (ok <==> e.port != e.addr && e.host != e.pod)
            && (o.Contents() == old(o.Contents()) <==>
                if e.port != e.addr then Unused(old(o.Contents()), e) else HalfGone(old(o.Contents()), e))
  {
    var e := EntryOf(d);
    RestoredIff(o.Contents(), e);
    o.ExecAdd(d);
    ghost var n := o.Contents();
    assert n.net[d.port] == ToValue(d);
    ReadBackKeys(d);
    var found;
    found, ok := o.ExecDel(d.port);
    SameKeysDeleted(n, EntryOf(FromValue(ToValue(d)).(port := d.port)), e);
  }

  /** Pod address 0.0.117.48 is port 30000 as a key: the DEL stops after the first map, and the DNAT
      target and both interfaces stay in the maps. */
  method TargetLeftBehind() returns (o: Objects, d: NetData)
    ensures d.port == 30000 && d.veth.pod.addr == [0, 0, 117, 48]
    ensures o.Contents() == Maps(map[], map[30000 := ToTarget(d)], map[1 := ToVethEntry(d.veth), 2 := ToVethEntry(d.veth)])
  {
    o := new Objects();
    var mac: Mac := [2, 0, 0, 0, 0, 1];
    d := NetData(Veth(Peer("host", 1, mac, [10, 0, 0, 1]), Peer("pod", 2, mac, [0, 0, 117, 48])), 30000);
    o.ExecAdd(d);
    assert IpToInt(d.veth.pod.addr) == 30000;
    ReadBackKeys(d);
    var found, ok := o.ExecDel(30000);
    assert o.net == map[];
  }

  // ---- Two containers, one port ----

  /** The container under a port, as the lookup gives it back. */
  function Found(m: Maps, port: U16): Entry
    requires port in m.net
  {
    EntryOf(FromValue(m.net[port]).(port := port))
  }

  /** The maps after the DEL of a pod whose workload has this port; without a port it ends at once. */
  function AfterDel(m: Maps, port: Option<U16>): Maps {
    if port.Some? && port.value in m.net then Deleted(m, Found(m, port.value)) else m
  }

  method DelPod(o: Objects, port: Option<U16>)
    modifies o
    ensures o.Contents() == AfterDel(old(o.Contents()), port)
  {
    if port.Some? {
      var found, ok := o.ExecDel(port.value);
    }
  }

  /** The containers under other ports share no key with `e`. */
  ghost predicate OthersApart(m: Maps, e: Entry) {
    forall k: U16 | k in m.net && k != e.port :: Usable(Found(m, k)) && Separate(Found(m, k), e)
  }

  /** A DEL spares the entries of a container exactly when it is not for the container's port, whoever's
      pod it is for. */
  lemma SparedIff(m: Maps, e: Entry, port: Option<U16>)
    requires Usable(e) && HasEntries(m, e) && OthersApart(m, e)
    ensures HasEntries(AfterDel(m, port), e) <==> port != Some(e.port)
  {
    if port.Some? && port.value in m.net {
      var f := Found(m, port.value);
      if port.value == e.port {
        assert e.port !in Deleted(m, f).net;
      } else {
        assert Usable(f) && Separate(f, e);
        DeletedKeeps(m, f, e);
      }
    }
  }

  lemma DeletedKeeps(m: Maps, f: Entry, e: Entry)
    requires Usable(e) && Usable(f) && Separate(f, e) && HasEntries(m, e)
    ensures HasEntries(Deleted(m, f), e)
  {
  }

  /** What is left of a container whose port another one took over before its DEL. */
  function Orphaned(m: Maps, a: Entry): Maps {
    Maps(m.net[a.addr := a.value], m.dnat, m.veths[a.host := a.veth][a.pod := a.veth])
  }

  /** Two containers that got the same port one after the other. */
  predicate OnePort(a: Entry, b: Entry) {
    && Usable(a) && Usable(b) && a.port == b.port && a.addr != b.addr
    && a.host != b.host && a.host != b.pod && a.pod != b.host && a.pod != b.pod
  }

  lemma EarlyMaps(m: Maps, a: Entry, b: Entry)
    requires OnePort(a, b) && Unused(m, a)
    ensures Added(Deleted(Added(m, a), a), b) == Added(m, b)
  {
    RestoredIff(m, a);
  }

  lemma LateMaps(m: Maps, a: Entry, b: Entry)
    requires OnePort(a, b) && Unused(m, a) && Unused(m, b)
    ensures Deleted(Added(Added(m, a), b), b) == Orphaned(m, a)
  {
    var n := Added(Added(m, a), b);
    assert Deleted(n, b) == Removed(n, b);
    assert Removed(n, b).net == m.net[a.addr := a.value];
    assert Removed(n, b).dnat == m.dnat;
    assert Removed(n, b).veths == m.veths[a.host := a.veth][a.pod := a.veth];
  }

  /** The pod of `a` failed and `b` got its port: if the DEL of `a` comes before the ADD of `b`, `b` has its
      entries and nothing else is left. If it comes after, it is the entries of `b` that go, and the address
      and the interfaces of `a` stay for good. */
  method DelAndAdd(o: Objects, a: NetData, b: NetData, late: bool)
    requires OnePort(EntryOf(a), EntryOf(b)) && Unused(o.Contents(), EntryOf(a)) && Unused(o.Contents(), EntryOf(b))
    modifies o
    ensures o.Contents() ==
            if late then Orphaned(old(o.Contents()), EntryOf(a)) else Added(old(o.Contents()), EntryOf(b))
  {
    ghost var m := o.Contents();
    ReadBackKeys(a);
    ReadBackKeys(b);
    o.ExecAdd(a);
    if late {
      o.ExecAdd(b);
      ghost var n := o.Contents();
      assert n.net[b.port] == ToValue(b);
      LateMaps(m, EntryOf(a), EntryOf(b));
      DelPod(o, Some(a.port));
      SameKeysDeleted(n, EntryOf(FromValue(ToValue(b)).(port := b.port)), EntryOf(b));
    } else {
      ghost var n := o.Contents();
      assert n.net[a.port] == ToValue(a);
      EarlyMaps(m, EntryOf(a), EntryOf(b));
      DelPod(o, Some(a.port));
      SameKeysDeleted(n, EntryOf(FromValue(ToValue(a)).(port := a.port)), EntryOf(a));
      o.ExecAdd(b);
    }
  }

  // ---- Lookups ----

  /** A port is looked up successfully exactly when a live container has it, and then finds that one. */
  lemma LookupExact(m: Maps, live: set<Entry>, port: U16)
    requires Exact(m, live) && Distinct(live)
    ensures port in m.net <==> DnatKey(live, port)
    ensures forall e | e in live && e.port == port :: port in m.net && m.net[port] == e.value
  {
    if port in m.net {
      var e :| e in live && (port == e.port || port == e.addr);
      assert Usable(e);
    }
    forall e | e in live && e.port == port
      ensures port in m.net && m.net[port] == e.value
    {
      assert HasEntries(m, e);
    }
  }

  /** The lookup by port returns the container that was added, interface names aside. */
  lemma LookupReturnsAdded(m: Maps, live: set<Entry>, d: NetData)
    requires Exact(m, live) && Distinct(live) && Indexable(d) && EntryOf(d) in live
    ensures d.port in m.net && FromValue(m.net[d.port]) == Unnamed(d)
  {
    LookupExact(m, live, d.port);
    assert EntryOf(d).port == d.port;
    ValueRoundTrip(d);
  }

  /** What the datapath reads for a live container: its port and its address lead to one value with the pod's
      and the host's interface, address and MAC; the DNAT target of its port is the pod's address and MAC, and
      that address leads back to the container; both interface indexes lead to the host's index and address. */
  lemma EntriesMean(m: Maps, live: set<Entry>, d: NetData)
    requires Exact(m, live) && Distinct(live) && Indexable(d) && EntryOf(d) in live
    ensures var addr := IpToInt(d.veth.pod.addr);
            && d.port in m.net && addr in m.net && m.net[d.port] == m.net[addr]
            && var v := m.net[d.port];
               && v.port == d.port
               && v.pod.index == d.veth.pod.index && v.pod.addr == addr && v.pod.mac == d.veth.pod.mac
               && v.host.index == d.veth.host.index && v.host.addr == IpToInt(d.veth.host.addr)
               && v.host.mac == d.veth.host.mac
    ensures d.port in m.dnat
            && var t := m.dnat[d.port];
               && t.addr == IpToInt(d.veth.pod.addr) && t.mac == d.veth.pod.mac
               && t.addr in m.net && FromValue(m.net[t.addr]) == Unnamed(d)
    ensures forall i | i == d.veth.host.index || i == d.veth.pod.index ::
              && i in m.veths
              && m.veths[i].hostIndex == d.veth.host.index && m.veths[i].hostAddr == IpToInt(d.veth.host.addr)
  {
    assert HasEntries(m, EntryOf(d));
    ValueRoundTrip(d);
  }

  // ---- Any sequence of ADDs and DELs ----

  datatype Command = Add(d: NetData) | Del(port: U16)

  function WithPort(live: set<Entry>, port: U16): set<Entry> {
    set e | e in live && e.port == port
  }

  /** The containers that are up after the commands. */
  function Live(cs: seq<Command>): set<Entry> {
    if cs == [] then {}
    else
      var before := Live(cs[..|cs| - 1]);
      match cs[|cs| - 1]
      case Add(d) => before + {EntryOf(d)}
      case Del(port) => before - WithPort(before, port)
  }

  /** At every moment the live containers have distinct ports, addresses and interfaces. */
  ghost predicate Orderly(cs: seq<Command>) {
    cs == [] ||
    (Orderly(cs[..|cs| - 1]) && Distinct(Live(cs))
     && match cs[|cs| - 1]
        case Add(d) => Indexable(d) && EntryOf(d) !in Live(cs[..|cs| - 1])
        case Del(_) => true)
  }

  lemma OnlyOne(live: set<Entry>, e: Entry)
    requires Distinct(live) && e in live
    ensures WithPort(live, e.port) == {e}
  {
  }

  /** A live entry is that of a container an ADD was called for. */
  lemma {:induction false} LiveWasAdded(cs: seq<Command>, e: Entry) returns (d: NetData)
    requires Orderly(cs) && e in Live(cs)
    ensures Indexable(d) && EntryOf(d) == e
  {
    var before := cs[..|cs| - 1];
    if e in Live(before) {
      d := LiveWasAdded(before, e);
    } else {
      d := cs[|cs| - 1].d;
    }
  }

  lemma DelStep(cs: seq<Command>, m: Maps, port: U16)
    requires Orderly(cs) && Distinct(Live(cs)) && Exact(m, Live(cs)) && port in m.net
    ensures var e := EntryOf(FromValue(m.net[port]).(port := port));
            Present(m, e) && Exact(Deleted(m, e), Live(cs) - WithPort(Live(cs), port))
  {
    var live := Live(cs);
    LookupExact(m, live, port);
    var e :| e in live && port == e.port;
    var d := LiveWasAdded(cs, e);
    EntryRoundTrip(d);
    OnlyOne(live, e);
    DelKeepsExact(m, live, e);
    assert Deleted(m, e) == Removed(m, e);
  }

  lemma DelMisses(m: Maps, live: set<Entry>, port: U16)
    requires Exact(m, live) && Distinct(live) && port !in m.net
    ensures live - WithPort(live, port) == live
  {
    LookupExact(m, live, port);
  }

  /** After any orderly sequence of commands the maps hold exactly the live containers' entries. */
  method RunCommands(o: Objects, cs: seq<Command>)
    requires o.Contents() == Maps(map[], map[], map[]) && Orderly(cs)
    modifies o
    ensures Exact(o.Contents(), Live(cs))
    decreases |cs|
  {
    if cs == [] {
      return;
    }
    ghost var before := cs[..|cs| - 1];
    RunCommands(o, cs[..|cs| - 1]);
    ghost var m := o.Contents();
    assert Distinct(Live(before));
    match cs[|cs| - 1]
    case Add(d) =>
      AddKeepsExact(m, Live(before), EntryOf(d));
      o.ExecAdd(d);
    case Del(port) =>
      var found, ok := o.ExecDel(port);
      if found {
        DelStep(before, m, port);
      } else {
        DelMisses(m, Live(before), port);
      }
  }
}
