/**
 The handlers of the gateway informer as they run: they list objects in an order that is not known, scan the
 lists keeping a pointer to the loop variable, and rewrite routes, GatewayExIp and tunnels one by one.
 */
module GatewayInformer {
  import opened Api
  import opened Cluster
  import opened Lists

  // ----- scans -----

  /** A variable whose address is taken. */
  class Cell<T> {
    var value: T

    constructor (value: T)
      ensures this.value == value
    {
      this.value := value;
    }
  }

  datatype Item = Item(name: string, e: GatewayExIp)

  /** A GatewayExIp that was never filled in. */
  const NO_ITEM := Item("", GatewayExIp("", "", "", "", ""))

  /**
   Lines 163-172: all iterations share one loop variable, and the result points to it. Left at the first match
   it holds that; run to the end it holds the last element, which is no match either.
   */
  method ScanExIps(items: seq<Item>, gw: Word) returns (gatewayExIp: Cell<Item>)
    ensures fresh(gatewayExIp)
    ensures match FirstMatch(items, (x: Item) => x.e.localGateway == gw)
            case Some(x) => gatewayExIp.value == x
            case None => gatewayExIp.value == NO_ITEM || gatewayExIp.value.e.localGateway != gw
    ensures gw != "" ==>
              (gatewayExIp.value.e.localGateway == gw <==> FirstMatch(items, (x: Item) => x.e.localGateway == gw).Some?)
  {
    ghost var p := (x: Item) => x.e.localGateway == gw;
    gatewayExIp := new Cell(NO_ITEM);
    var exIp := new Cell(NO_ITEM);
    var i := 0;
    while i < |items|
      invariant 0 <= i <= |items|
      invariant FirstMatch(items, p) == FirstMatch(items[i..], p)
      invariant i == 0 ==> gatewayExIp.value == NO_ITEM
      invariant i > 0 ==> gatewayExIp == exIp && !p(exIp.value)
      invariant fresh(gatewayExIp) && fresh(exIp)
    {
      exIp.value := items[i];
      gatewayExIp := exIp;
      if gatewayExIp.value.e.localGateway == gw {
        break;
      }
      i := i + 1;
    }
  }

  datatype StatefulSet = StatefulSet(gw: Word, available: bool, vpc: Word)

  const NO_SET := StatefulSet("", false, "")

  predicate Candidate(x: StatefulSet, vpc: Word, except: Option<Word>) {
    x.available && x.vpc == vpc && (except.Some? ==> x.gw != except.value)
  }

  /** Lines 201-210 and 367-376: the pointer is only taken at the first match. */
  method ScanStatefulSets(items: seq<StatefulSet>, vpc: Word,
                          except: Option<Word>) returns (gwStatefulSet: Cell<StatefulSet>)
    ensures fresh(gwStatefulSet)
    ensures match FirstMatch(items, (x: StatefulSet) => Candidate(x, vpc, except))
            case Some(x) => gwStatefulSet.value == x
            case None => gwStatefulSet.value == NO_SET
  {
    ghost var p := (x: StatefulSet) => Candidate(x, vpc, except);
    gwStatefulSet := new Cell(NO_SET);
    var statefulSet := new Cell(NO_SET);
    var i := 0;
    while i < |items|
      invariant 0 <= i <= |items|
      invariant FirstMatch(items, p) == FirstMatch(items[i..], p)
      invariant gwStatefulSet != statefulSet && gwStatefulSet.value == NO_SET
      invariant fresh(gwStatefulSet) && fresh(statefulSet)
    {
      statefulSet.value := items[i];
      if statefulSet.value.available && statefulSet.value.vpc == vpc
        && (except.None? || statefulSet.value.gw != except.value) {
        gwStatefulSet := statefulSet;
        break;
      }
      i := i + 1;
    }
  }

  lemma SomePick<T>(s: set<T>) returns (p: Option<T>)
    ensures Picks(s, p)
  {
    if s == {} {
      p := None;
    } else {
      var x :| x in s;
      p := Some(x);
    }
  }

  /** Storing exactly the labelled tunnels, in any order, is retargeting the VPC. */
  lemma StoredIsRetarget(tunnels: map<Key, VpcNatTunnel>, items: seq<(Key, VpcNatTunnel)>, vpc: Word, gw: Option<Word>,
                         ip: Word)
    requires forall x :: x in items <==> x.0 in tunnels && x.1 == tunnels[x.0] && Labelled(x.1, vpc)
    ensures Stored(tunnels, items, (t: VpcNatTunnel) => RetargetOne(t, vpc, gw, ip)) == Retarget(tunnels, vpc, gw, ip)
  {
    var f := (t: VpcNatTunnel) => RetargetOne(t, vpc, gw, ip);
    StoredAt(tunnels, items, f);
    forall k | k in tunnels
      ensures Stored(tunnels, items, f)[k] == RetargetOne(tunnels[k], vpc, gw, ip)
    {
      assert (k, tunnels[k]) in items <==> Labelled(tunnels[k], vpc);
    }
  }

  // ----- handlers -----

  class Informer {
    var c: Cluster

    constructor (c: Cluster)
      ensures this.c == c
    {
      this.c := c;
    }

    /** The GatewayExIps with the labels localGateway and localCluster. */
    method ListExIps(gw: Word) returns (items: seq<Item>)
      ensures forall x :: x in items <==> x.name in ExIpsNaming(c, gw) && x.e == c.exips[x.name]
    {
      items := SomeOrder(set n | n in ExIpsNaming(c, gw) :: Item(n, c.exips[n]));
    }

    method ListStatefulSets() returns (items: seq<StatefulSet>)
      ensures forall x :: x in items <==>
                x.gw in c.gateways && x.available == (x.gw in c.pods) && x.vpc == Home(c, x.gw)
    {
      items := SomeOrder(set g | g in c.gateways :: StatefulSet(g, g in c.pods, Home(c, g)));
    }

    /** The tunnels with the label localVpc. */
    method ListTunnels(vpc: Word) returns (items: seq<(Key, VpcNatTunnel)>)
      ensures forall x :: x in items <==> x.0 in c.tunnels && x.1 == c.tunnels[x.0] && Labelled(x.1, vpc)
    {
      items := SomeOrder(set k | k in c.tunnels && Labelled(c.tunnels[k], vpc) :: (k, c.tunnels[k]));
    }

    /** The one GatewayExIp of this cluster that names the gateway, if any. */
    method FindExIp(gw: Word) returns (exip: Option<string>, gatewayExIp: Cell<Item>)
      requires gw != ""
      ensures fresh(gatewayExIp) && Picks(ExIpsNaming(c, gw), exip)
      ensures exip.Some? ==> gatewayExIp.value == Item(exip.value, c.exips[exip.value])
    {
      var items := ListExIps(gw);
      gatewayExIp := ScanExIps(items, gw);
      FirstMatchIsFirst(items, (x: Item) => x.e.localGateway == gw);
      if gatewayExIp.value.e.localGateway == gw {
        exip := Some(gatewayExIp.value.name);
      } else {
        exip := None;
        forall n: string
          ensures n !in ExIpsNaming(c, gw)
        {
          assert n in ExIpsNaming(c, gw) <==> Item(n, if n in c.exips then c.exips[n] else NO_ITEM.e) in items;
        }
      }
    }

    /** An available gateway on the router, if any. */
    method FindNext(gw: Word, except: Option<Word>) returns (next: Option<Word>)
      requires "" !in c.homes && forall g | g in c.gateways :: g in c.homes
      ensures Picks(Available(c, gw) - (if except.Some? then {except.value} else {}), next)
    {
      var items := ListStatefulSets();
      var vpc := Home(c, gw);
      var found := ScanStatefulSets(items, vpc, except);
      FirstMatchIsFirst(items, (x: StatefulSet) => Candidate(x, vpc, except));
      ghost var candidates := Available(c, gw) - (if except.Some? then {except.value} else {});
      if found.value.gw == "" {
        next := None;
        forall g: Word
          ensures g !in candidates
        {
          assert StatefulSet(g, true, vpc) in items <==> g in Available(c, gw);
        }
        assert candidates == {};
      } else {
        next := Some(found.value.gw);
        assert found.value in items && Candidate(found.value, vpc, except);
        assert found.value.gw in candidates;
      }
    }

    /** Lines 215-217 and 229: every static route is overwritten through a pointer, then the VPC is stored. */
    method Reroute(vpc: Word, nextHop: Word)
      requires vpc in c.vpcs
      modifies this
      ensures c == old(c).(vpcs := old(c).vpcs[vpc := seq(|old(c).vpcs[vpc]|, _ => nextHop)])
    {
      var hops := c.vpcs[vpc];
      var routes := new Word[|hops|](i requires 0 <= i < |hops| => hops[i]);
      for i := 0 to routes.Length
        invariant forall j | 0 <= j < i :: routes[j] == nextHop
        invariant c == old(c)
      {
        routes[i] := nextHop;
      }
      assert routes[..] == seq(|hops|, _ => nextHop);
      c := c.(vpcs := c.vpcs[vpc := routes[..]]);
    }

    /** Lines 245-252: every tunnel of the list is changed and stored. */
    method UpdateTunnels(items: seq<(Key, VpcNatTunnel)>, vpc: Word, gw: Option<Word>, ip: Word)
      requires forall x :: x in items <==> x.0 in c.tunnels && x.1 == c.tunnels[x.0] && Labelled(x.1, vpc)
      modifies this
      ensures c == old(c).(tunnels := Retarget(old(c).tunnels, vpc, gw, ip))
    {
      ghost var before := c;
      ghost var f := (t: VpcNatTunnel) => RetargetOne(t, vpc, gw, ip);
      for i := 0 to |items|
        invariant c == before.(tunnels := Stored(before.tunnels, items[..i], f))
      {
        var k, t := items[i].0, items[i].1;
        assert items[i] in items && items[..i + 1][..i] == items[..i];
        t := t.(spec := t.spec.(internalIP := ip));
        if gw.Some? {
          t := t.(spec := t.spec.(localGw := gw.value));
        }
        c := c.(tunnels := c.tunnels[k := t]);
      }
      assert items[..|items|] == items;
      StoredIsRetarget(before.tunnels, items, vpc, gw, ip);
    }

    /** AddFunc, lines 64-144 */
    method AddFunc(gw: Word, available: bool, cidr: Option<Word>)
      modifies this
      ensures c == HandleAdded(old(c), gw, available, cidr)
    {
      if !available || gw !in c.gateways || gw !in c.pods {
        return;
      }
      var vpc := Home(c, gw);
      var name := ExIpName(vpc, c.id);
      if name in c.exips {
        // the VPC has a running gateway: this one is a standby
        return;
      }
      if vpc !in c.vpcs {
        return;
      }
      var hops := c.vpcs[vpc];
      for i := 0 to |hops|
        invariant forall j | 0 <= j < i :: hops[j] == c.gateways[gw].lanIP
        invariant c == old(c)
      {
        if hops[i] != c.gateways[gw].lanIP {
          assert hops[i] in hops;
          return;
        }
      }
      if cidr.None? {
        return;
      }
      c := c.(exips := c.exips[name := GatewayExIp(c.pods[gw].externalIP, cidr.value, vpc, gw, c.id)]);
    }

    /** UpdateFunc, lines 146-321: what it does is one of the outcomes that the specification allows. */
    method UpdateFunc(gw: Word, before: nat, after: nat) returns (ghost exip: Option<string>, ghost next: Option<Word>)
      requires gw != "" && "" !in c.homes && forall g | g in c.gateways :: g in c.homes
      modifies this
      ensures Picks(ExIpsNaming(old(c), gw), exip) && Picks(Available(old(c), gw) - {gw}, next)
      ensures c == if before == 1 && after == 0 then HandleWentDown(old(c), gw, exip, next)
                   else if before == 0 && after == 1 then HandleCameUp(old(c), gw, exip)
                   else old(c)
    {
      exip := SomePick(ExIpsNaming(c, gw));
      next := SomePick(Available(c, gw) - {gw});
      if before == 1 && after == 0 {
        exip, next := WentDown(gw);
      } else if before == 0 && after == 1 {
        exip := CameUp(gw);
      }
    }

    /** Lines 151-253 */
    method WentDown(gw: Word) returns (ghost exip: Option<string>, ghost next: Option<Word>)
      requires gw != "" && "" !in c.homes && forall g | g in c.gateways :: g in c.homes
      modifies this
      ensures Picks(ExIpsNaming(old(c), gw), exip) && Picks(Available(old(c), gw) - {gw}, next)
      ensures c == HandleWentDown(old(c), gw, exip, next)
    {
      next := SomePick(Available(c, gw) - {gw});
      var found, gatewayExIp := FindExIp(gw);
      exip := found;
      if found.None? {
        return;
      }
      var vpc := gatewayExIp.value.e.localVpc;
      if vpc !in c.vpcs {
        return;
      }
      var tunnels := ListTunnels(vpc);
      var gwNext := FindNext(gw, Some(gw));
      next := gwNext;
      if gwNext.None? {
        return;
      }
      Promoted(gatewayExIp, gwNext.value, tunnels);
    }

    /** Lines 215-252 and 386-432: routes, GatewayExIp and tunnels, in this order. */
    method Promoted(gatewayExIp: Cell<Item>, next: Word, tunnels: seq<(Key, VpcNatTunnel)>)
      requires var x := gatewayExIp.value; x.name in c.exips && c.exips[x.name] == x.e && x.e.localVpc in c.vpcs
      requires next in c.pods && next in c.gateways
      requires forall x :: x in tunnels <==>
                 x.0 in c.tunnels && x.1 == c.tunnels[x.0] && Labelled(x.1, gatewayExIp.value.e.localVpc)
      modifies this, gatewayExIp
      ensures c == Promote(old(c), old(gatewayExIp.value.name), next)
    {
      var vpc := gatewayExIp.value.e.localVpc;
      var ip := c.pods[next].externalIP;
      Reroute(vpc, c.gateways[next].lanIP);
      gatewayExIp.value := gatewayExIp.value.(e := gatewayExIp.value.e.(externalIP := ip));
      gatewayExIp.value := gatewayExIp.value.(e := gatewayExIp.value.e.(localGateway := next));
      c := c.(exips := c.exips[gatewayExIp.value.name := gatewayExIp.value.e]);
      UpdateTunnels(tunnels, vpc, Some(next), ip);
    }

    /** Lines 255-320 */
    method CameUp(gw: Word) returns (ghost exip: Option<string>)
      requires gw != ""
      modifies this
      ensures Picks(ExIpsNaming(old(c), gw), exip)
      ensures c == HandleCameUp(old(c), gw, exip)
    {
      var found, gatewayExIp := FindExIp(gw);
      exip := found;
      if found.None? || gw !in c.pods {
        return;
      }
      var ip := c.pods[gw].externalIP;
      gatewayExIp.value := gatewayExIp.value.(e := gatewayExIp.value.e.(externalIP := ip));
      c := c.(exips := c.exips[gatewayExIp.value.name := gatewayExIp.value.e]);
      var tunnels := ListTunnels(gatewayExIp.value.e.localVpc);
      UpdateTunnels(tunnels, gatewayExIp.value.e.localVpc, None, ip);
    }

    /** DeleteFunc, lines 323-433 */
    method DeleteFunc(gw: Word) returns (ghost exip: Option<string>, ghost next: Option<Word>)
      requires gw != "" && "" !in c.homes && forall g | g in c.gateways :: g in c.homes
      modifies this
      ensures Picks(ExIpsNaming(old(c), gw), exip) && Picks(Available(old(c), gw), next)
      ensures c == HandleDeleted(old(c), gw, exip, next)
    {
      next := SomePick(Available(c, gw));
      var found, gatewayExIp := FindExIp(gw);
      exip := found;
      if found.None? {
        return;
      }
      var vpc := gatewayExIp.value.e.localVpc;
      if vpc !in c.vpcs {
        return;
      }
      var gwNext := FindNext(gw, None);
      next := gwNext;
      if gwNext.None? {
        c := c.(exips := c.exips - {gatewayExIp.value.name});
        return;
      }
      var tunnels := ListTunnels(vpc);
      Promoted(gatewayExIp, gwNext.value, tunnels);
    }
  }
}
