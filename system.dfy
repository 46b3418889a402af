/** `GET /api/system/ip` of `backend/src/routes/system.js`: the server's
 *  non-internal IPv4 addresses per network interface and the one address
 *  offered for LAN access, chosen by the interface name. The interfaces,
 *  in enumeration order, and `PORT` are parameters. */
module System {
  import opened Wrappers
  import opened Strings
  import opened Js
  import Settings

  /** An entry of `os.networkInterfaces()[name]`. */
  datatype Adres = Adres(family: string, internal: bool, address: string, netmask: string, mac: string)

  /** What the answer keeps of an address. */
  datatype Ipv4Adres = Ipv4Adres(address: string, netmask: string, mac: string)

  /** The non-internal IPv4 addresses, in order. */
  function Ipv4(addrs: seq<Adres>): (r: seq<Ipv4Adres>)
    ensures |r| <= |addrs|
  {
    if addrs == [] then []
    else
      var a := addrs[|addrs| - 1];
      var onceki := Ipv4(addrs[..|addrs| - 1]);
      if a.family == "IPv4" && !a.internal then onceki + [Ipv4Adres(a.address, a.netmask, a.mac)] else onceki
  }

  /** The filter keeps exactly the non-internal IPv4 entries. */
  lemma {:induction false} Ipv4Members(addrs: seq<Adres>, x: Ipv4Adres)
    ensures x in Ipv4(addrs) <==>
      exists a :: a in addrs && a.family == "IPv4" && !a.internal && x == Ipv4Adres(a.address, a.netmask, a.mac)
  {
    if addrs != [] {
      var init := addrs[..|addrs| - 1];
      Ipv4Members(init, x);
      assert addrs == init + [addrs[|addrs| - 1]];
    }
  }

  /** An interface counts when it has at least one such address. */
  predicate Uygun(addrs: seq<Adres>)
  {
    |Ipv4(addrs)| > 0
  }

  // -------------------------------------------------------- priority

  /** A priority: a pattern index, or `Infinity`. */
  datatype Oncelik = Sonlu(n: nat) | Sonsuz

  /** The `<` of two priorities. */
  predicate Once(a: Oncelik, b: Oncelik)
  {
    a.Sonlu? && (b.Sonsuz? || a.n < b.n)
  }

  const PriorityPatterns: seq<string> := ["ethernet", "eth", "wi-fi", "wifi", "wlan", "lan"]
  const SkipPatterns: seq<string> := ["vpn", "virtual", "vethernet", "nordlynx", "wsl", "docker", "vmware", "hyper-v"]

  /** `findIndex(p => nameLower.includes(p))` from position `i`. */
  function IlkDesen(nameLower: string, i: nat): (r: Option<nat>)
    requires i <= |PriorityPatterns|
    ensures r.Some? ==> i <= r.value < |PriorityPatterns| && Contains(nameLower, PriorityPatterns[r.value])
    ensures r.Some? ==> forall k :: i <= k < r.value ==> !Contains(nameLower, PriorityPatterns[k])
    ensures r.None? ==> forall k :: i <= k < |PriorityPatterns| ==> !Contains(nameLower, PriorityPatterns[k])
    decreases |PriorityPatterns| - i
  {
    if i == |PriorityPatterns| then None
    else if Contains(nameLower, PriorityPatterns[i]) then Some(i)
    else IlkDesen(nameLower, i + 1)
  }

  /** `skipPatterns.some(p => nameLower.includes(p))`. */
  predicate Sanal(nameLower: string)
  {
    exists k :: 0 <= k < |SkipPatterns| && Contains(nameLower, SkipPatterns[k])
  }

  /** The priority of an interface name: the first matching pattern; then
   *  `Infinity` for a virtual interface, 6 for any other. The virtual test
   *  is made only when no pattern matched. */
  function OncelikOf(name: string): (p: Oncelik)
    ensures p.Sonlu? ==> p.n <= |PriorityPatterns|
    ensures p.Sonlu? && p.n < |PriorityPatterns| ==> Contains(ToLower(name), PriorityPatterns[p.n])
    ensures p == Sonsuz <==> IlkDesen(ToLower(name), 0).None? && Sanal(ToLower(name))
  {
    var nameLower := ToLower(name);
    match IlkDesen(nameLower, 0)
    case Some(i) => Sonlu(i)
    case None => if Sanal(nameLower) then Sonsuz else Sonlu(|PriorityPatterns|)
  }

  /** A name containing `ethernet` in any case gets the best priority, even
   *  when it also contains a virtual pattern (as `vEthernet (WSL)` does). */
  lemma EthernetFirst(name: string)
    requires Contains(ToLower(name), "ethernet")
    ensures OncelikOf(name) == Sonlu(0)
  {
  }

  lemma VEthernetWslIsPriorityZero(s: string)
    requires s == "vEthernet (WSL)"
    ensures OncelikOf(s) == Sonlu(0)
  {
    var t := ToLower(s);
    assert t[1..9] == "ethernet";
    ContainsAt(t, "ethernet", 1);
    EthernetFirst(s);
  }

  /** A text contains every piece that starts at one of its positions. */
  lemma {:induction false} ContainsAt(s: string, p: string, i: nat)
    requires i + |p| <= |s| && s[i..i + |p|] == p
    ensures Contains(s, p)
    decreases i
  {
    if i == 0 {
      assert s[..|p|] == p;
    } else {
      assert s[1..][i - 1..i - 1 + |p|] == p;
      ContainsAt(s[1..], p, i - 1);
    }
  }

  // ---------------------------------------------------------- choice

  /** What the choice needs of an interface: whether it counts, and the
   *  priority of its name. */
  type Puan = (bool, Oncelik)

  function Puanlar(entries: seq<(string, seq<Adres>)>): (ps: seq<Puan>)
    ensures |ps| == |entries|
    ensures forall j :: 0 <= j < |entries| ==> ps[j] == (Uygun(entries[j].1), OncelikOf(entries[j].0))
  {
    seq(|entries|, j requires 0 <= j < |entries| => (Uygun(entries[j].1), OncelikOf(entries[j].0)))
  }

  /** The state of the loop after some interfaces: the best priority so far
   *  and the position of the interface chosen. */
  function SecimP(ps: seq<Puan>): (r: (Oncelik, Option<nat>))
    ensures r.1.None? <==> r.0 == Sonsuz
    ensures r.1.Some? ==> r.1.value < |ps| && ps[r.1.value].0 && r.0 == ps[r.1.value].1
  {
    if ps == [] then (Sonsuz, None)
    else
      var p := ps[|ps| - 1];
      var onceki := SecimP(ps[..|ps| - 1]);
      if p.0 && Once(p.1, onceki.0) then (p.1, Some(|ps| - 1)) else onceki
  }

  lemma {:induction false} SecimPEnIyi(ps: seq<Puan>)
    ensures var r := SecimP(ps);
      r.1.None? <==> forall j :: 0 <= j < |ps| && ps[j].0 ==> ps[j].1 == Sonsuz
    ensures var r := SecimP(ps);
      r.1.Some? ==> forall j :: 0 <= j < r.1.value && ps[j].0 ==> Once(r.0, ps[j].1)
    ensures var r := SecimP(ps);
      r.1.Some? ==> forall j :: r.1.value < j < |ps| && ps[j].0 ==> !Once(ps[j].1, r.0)
  {
    if ps != [] {
      var n := |ps| - 1;
      var init := ps[..n];
      SecimPEnIyi(init);
      assert forall j :: 0 <= j < n ==> init[j] == ps[j];
    }
  }

  /** The interface the loop chooses. */
  function Secim(entries: seq<(string, seq<Adres>)>): (r: (Oncelik, Option<nat>))
    ensures r.1.Some? ==> r.1.value < |entries| && Uygun(entries[r.1.value].1)
  {
    SecimP(Puanlar(entries))
  }

  /** The chosen interface has the smallest finite priority among those
   *  that count; every earlier one is strictly worse (ties go to the first)
   *  and none later is better. Nothing is chosen exactly when every
   *  interface that counts is virtual. */
  lemma SecimEnIyi(entries: seq<(string, seq<Adres>)>)
    ensures var r := Secim(entries);
      r.1.None? <==> forall j :: 0 <= j < |entries| && Uygun(entries[j].1) ==> OncelikOf(entries[j].0) == Sonsuz
    ensures var r := Secim(entries);
      r.1.Some? ==> r.0 == OncelikOf(entries[r.1.value].0) && r.0.Sonlu?
    ensures var r := Secim(entries);
      r.1.Some? ==> forall j :: 0 <= j < r.1.value && Uygun(entries[j].1) ==> Once(r.0, OncelikOf(entries[j].0))
    ensures var r := Secim(entries);
      r.1.Some? ==> forall j :: r.1.value < j < |entries| && Uygun(entries[j].1) ==> !Once(OncelikOf(entries[j].0), r.0)
  {
    SecimPEnIyi(Puanlar(entries));
  }

  /** The `interfaces` object: every interface that counts, with its
   *  addresses. */
  function Arayuzler(entries: seq<(string, seq<Adres>)>): (m: map<string, seq<Ipv4Adres>>)
  {
    if entries == [] then map[]
    else
      var e := entries[|entries| - 1];
      var onceki := Arayuzler(entries[..|entries| - 1]);
      if Uygun(e.1) then onceki[e.0 := Ipv4(e.1)] else onceki
  }

  /** Only interfaces that count are listed. */
  lemma {:induction false} ArayuzlerYalniz(entries: seq<(string, seq<Adres>)>, name: string)
    requires name in Arayuzler(entries)
    ensures exists j :: 0 <= j < |entries| && entries[j].0 == name && Uygun(entries[j].1)
  {
    var n := |entries| - 1;
    if entries[n].0 != name || !Uygun(entries[n].1) {
      ArayuzlerYalniz(entries[..n], name);
      var j :| 0 <= j < n && entries[..n][j].0 == name && Uygun(entries[..n][j].1);
      assert entries[j] == entries[..n][j];
    }
  }

  /** The names of an object are distinct. */
  predicate AdlarTekil(entries: seq<(string, seq<Adres>)>)
  {
    forall i, j :: 0 <= i < j < |entries| ==> entries[i].0 != entries[j].0
  }

  /** Every interface that counts is listed under its name with its
   *  addresses. */
  lemma {:induction false} ArayuzlerTam(entries: seq<(string, seq<Adres>)>, j: nat)
    requires AdlarTekil(entries) && j < |entries| && Uygun(entries[j].1)
    ensures entries[j].0 in Arayuzler(entries) && Arayuzler(entries)[entries[j].0] == Ipv4(entries[j].1)
  {
    var n := |entries| - 1;
    if j < n {
      ArayuzlerTam(entries[..n], j);
      assert entries[..n][j] == entries[j];
    }
  }

  // ---------------------------------------------------------- answer

  /** The JSON answer: `port` is `parseInt` of the port text (`None` for
   *  NaN). */
  datatype IpYaniti = IpYaniti(
    interfaces: map<string, seq<Ipv4Adres>>, primaryIP: Option<string>, port: Option<int>,
    local: string, lan: Option<string>)

  /** `accessUrls.lan`: only for a truthy primary address. */
  function LanUrl(primaryIP: Option<string>, port: string): (u: Option<string>)
    ensures u.Some? <==> TruthyStr(primaryIP)
    ensures u.Some? ==> u.value == "http://" + primaryIP.value + ":" + port
  {
    if TruthyStr(primaryIP) then Some("http://" + primaryIP.value + ":" + port) else None
  }

  /** One more interface for the choice. */
  lemma SecimPAdim(ps: seq<Puan>, i: nat)
    requires i < |ps|
    ensures var s := SecimP(ps[..i]);
      SecimP(ps[..i + 1]) == if ps[i].0 && Once(ps[i].1, s.0) then (ps[i].1, Some(i)) else s
  {
    assert ps[..i + 1][..i] == ps[..i];
  }

  /** One more interface for the choice, on the interfaces themselves. */
  lemma SecimAdim(entries: seq<(string, seq<Adres>)>, i: nat)
    requires i < |entries|
    ensures var s := Secim(entries[..i]);
      var p := OncelikOf(entries[i].0);
      Secim(entries[..i + 1]) == if Uygun(entries[i].1) && Once(p, s.0) then (p, Some(i)) else s
  {
    var ps := Puanlar(entries[..i + 1]);
    PuanlarOnEk(entries[..i + 1], i);
    assert entries[..i + 1][..i] == entries[..i];
    SecimPAdim(ps, i);
    assert ps[i] == (Uygun(entries[i].1), OncelikOf(entries[i].0));
  }

  /** The scores of a prefix are the prefix of the scores. */
  lemma PuanlarOnEk(entries: seq<(string, seq<Adres>)>, i: nat)
    requires i <= |entries|
    ensures Puanlar(entries)[..i] == Puanlar(entries[..i])
  {
  }

  /** One more interface for the `interfaces` object. */
  lemma ArayuzlerAdim(entries: seq<(string, seq<Adres>)>, i: nat)
    requires i < |entries|
    ensures var m := Arayuzler(entries[..i]);
      Arayuzler(entries[..i + 1]) == if Uygun(entries[i].1) then m[entries[i].0 := Ipv4(entries[i].1)] else m
  {
    assert entries[..i + 1][..i] == entries[..i];
  }

  /** One pass of the handler's loop: an interface with a non-internal IPv4
   *  address is listed, and becomes the primary one when its priority beats
   *  the best so far. */
  method Adim(name: string, addrs: seq<Adres>, interfaces: map<string, seq<Ipv4Adres>>, bestPriority: Oncelik,
              primaryIP: Option<string>)
    returns (interfaces': map<string, seq<Ipv4Adres>>, bestPriority': Oncelik, primaryIP': Option<string>, secildi: bool)
    ensures interfaces' == if Uygun(addrs) then interfaces[name := Ipv4(addrs)] else interfaces
    ensures secildi <==> Uygun(addrs) && Once(OncelikOf(name), bestPriority)
    ensures secildi ==> bestPriority' == OncelikOf(name) && primaryIP' == Some(Ipv4(addrs)[0].address)
    ensures !secildi ==> bestPriority' == bestPriority && primaryIP' == primaryIP
  {
    interfaces', bestPriority', primaryIP', secildi := interfaces, bestPriority, primaryIP, false;
    var ipv4Addrs := Ipv4(addrs);
    if |ipv4Addrs| > 0 {
      interfaces' := interfaces[name := ipv4Addrs];
      var currentPriority := OncelikOf(name);
      if Once(currentPriority, bestPriority) {
        bestPriority' := currentPriority;
        primaryIP' := Some(ipv4Addrs[0].address);
        secildi := true;
      }
    }
  }

  /** The handler's loop over the interfaces: the `interfaces` object and
   *  the primary address. */
  method Tara(entries: seq<(string, seq<Adres>)>) returns (interfaces: map<string, seq<Ipv4Adres>>, primaryIP: Option<string>)
    ensures interfaces == Arayuzler(entries)
    ensures var s := Secim(entries);
      primaryIP == if s.1.Some? then Some(Ipv4(entries[s.1.value].1)[0].address) else None
  {
    interfaces := map[];
    primaryIP := None;
    var bestPriority := Sonsuz;
    ghost var chosen: Option<nat> := None;
    var i := 0;
    while i < |entries|
      invariant 0 <= i <= |entries|
      invariant interfaces == Arayuzler(entries[..i])
      invariant bestPriority == Secim(entries[..i]).0 && chosen == Secim(entries[..i]).1
      invariant chosen.Some? ==> chosen.value < i && Uygun(entries[chosen.value].1)
      invariant chosen.Some? ==> primaryIP == Some(Ipv4(entries[chosen.value].1)[0].address)
      invariant chosen.None? ==> primaryIP.None?
    {
      SecimAdim(entries, i);
      ArayuzlerAdim(entries, i);
      var secildi;
      interfaces, bestPriority, primaryIP, secildi := Adim(entries[i].0, entries[i].1, interfaces, bestPriority, primaryIP);
      if secildi {
        chosen := Some(i);
      }
      i := i + 1;
    }
    assert entries[..i] == entries;
  }

  /** The handler: the loop, then the port and the access URLs. */
  method Ip(entries: seq<(string, seq<Adres>)>, envPort: Option<string>) returns (r: IpYaniti)
    ensures r.interfaces == Arayuzler(entries)
    ensures var s := Secim(entries);
      r.primaryIP == if s.1.Some? then Some(Ipv4(entries[s.1.value].1)[0].address) else None
    ensures r.local == "http://localhost:" + OrStr(envPort, "7474")
    ensures r.lan == LanUrl(r.primaryIP, OrStr(envPort, "7474"))
    ensures r.port == Settings.ParseInt(OrStr(envPort, "7474"))
  {
    var interfaces, primaryIP := Tara(entries);
    var port := OrStr(envPort, "7474");
    r := IpYaniti(interfaces, primaryIP, Settings.ParseInt(port), "http://localhost:" + port, LanUrl(primaryIP, port));
  }
}
