/**
 What the GatewayExIp syncer's callbacks do to the local cluster.
 */
module GatewayExIpController {
  import opened GoStrings
  import opened Api
  import opened Cluster
  import opened Lists

  class Controller {
    var c: Cluster

    constructor (c: Cluster)
      ensures this.c == c
    {
      this.c := c;
    }

    /**
     onRemoteGatewayExIpSynced, lines 155-186. Tunnels that have the address already are skipped. A name
     without a dot has no second part: an index panic.
     */
    method OnRemoteGatewayExIpSynced(name: string, ip: Word) returns (outcome: Outcome)
      modifies this
      ensures if '.' in name then outcome == Done && c == old(c).(tunnels := Propagate(old(c).tunnels, name, ip))
              else outcome == Panicked && c == old(c)
    {
      var splitStrings := SplitN2(name, '.');
      if |splitStrings| < 2 {
        return Panicked;
      }
      var items := ListTunnels(splitStrings[0], splitStrings[1]);
      ghost var before := c;
      ghost var f := (t: VpcNatTunnel) => t.(spec := t.spec.(remoteIP := ip));
      for i := 0 to |items|
        invariant c == before.(tunnels := Stored(before.tunnels, items[..i], f))
      {
        var k, t := items[i].0, items[i].1;
        assert items[..i + 1][..i] == items[..i];
        if t.spec.remoteIP == ip {
          SkippedIsStored(before.tunnels, items, i, f);
          continue;
        }
        t := t.(spec := t.spec.(remoteIP := ip));
        c := c.(tunnels := c.tunnels[k := t]);
      }
      assert items[..|items|] == items;
      StoredIsPropagate(before.tunnels, items, name, ip);
      return Done;
    }

    /** The tunnels with the labels remoteVpc and remoteCluster. */
    method ListTunnels(vpc: string, cluster: string) returns (items: seq<(Key, VpcNatTunnel)>)
      ensures forall x :: x in items <==>
                && x.0 in c.tunnels && x.1 == c.tunnels[x.0]
                && "remoteVpc" in x.1.labels && x.1.labels["remoteVpc"] == vpc
                && "remoteCluster" in x.1.labels && x.1.labels["remoteCluster"] == cluster
    {
      items := SomeOrder(set k | k in c.tunnels
                                 && "remoteVpc" in c.tunnels[k].labels && c.tunnels[k].labels["remoteVpc"] == vpc
                                 && "remoteCluster" in c.tunnels[k].labels
                                 && c.tunnels[k].labels["remoteCluster"] == cluster
                           :: (k, c.tunnels[k]));
    }
  }

  /** Skipping an object that would not change is storing it. */
  lemma SkippedIsStored(tunnels: map<Key, VpcNatTunnel>, items: seq<(Key, VpcNatTunnel)>, i: nat,
                        f: VpcNatTunnel -> VpcNatTunnel)
    requires i < |items| && f(items[i].1) == items[i].1
    requires forall x | x in items :: x.0 in tunnels && x.1 == tunnels[x.0]
    ensures Stored(tunnels, items[..i + 1], f) == Stored(tunnels, items[..i], f)
  {
    assert items[i] in items && items[..i + 1][..i] == items[..i];
    forall x | x in items[..i]
      ensures x in items
    {
    }
    StoredAt(tunnels, items[..i], f);
  }

  /** Storing exactly the tunnels that point at the name, in any order, is propagating the address. */
  lemma StoredIsPropagate(tunnels: map<Key, VpcNatTunnel>, items: seq<(Key, VpcNatTunnel)>, name: string, ip: Word)
    requires '.' in name
    requires forall x :: x in items <==> x.0 in tunnels && x.1 == tunnels[x.0] && PointsAt(x.1, name)
    ensures Stored(tunnels, items, (t: VpcNatTunnel) => t.(spec := t.spec.(remoteIP := ip)))
            == Propagate(tunnels, name, ip)
  {
    var f := (t: VpcNatTunnel) => t.(spec := t.spec.(remoteIP := ip));
    StoredAt(tunnels, items, f);
    forall k | k in tunnels
      ensures Stored(tunnels, items, f)[k] == PropagateOne(tunnels[k], name, ip)
    {
      assert (k, tunnels[k]) in items <==> PointsAt(tunnels[k], name);
    }
  }

  /**
   Exact propagation: after a sync of the GatewayExIp of a VPC and a cluster, Spec.RemoteIP is the new address
   on exactly the tunnels labelled with the two, nothing else has changed, and a second sync changes nothing.
   */
  lemma PropagationIsExact(tunnels: map<Key, VpcNatTunnel>, vpc: string, cluster: string, ip: Word)
    requires DotFree(vpc)
    ensures var name := ExIpName(vpc, cluster);
            && '.' in name
            && var after := Propagate(tunnels, name, ip);
               && after.Keys == tunnels.Keys
               && (forall k | k in tunnels ::
                     if "remoteVpc" in tunnels[k].labels && tunnels[k].labels["remoteVpc"] == vpc
                        && "remoteCluster" in tunnels[k].labels && tunnels[k].labels["remoteCluster"] == cluster
                     then after[k] == tunnels[k].(spec := tunnels[k].spec.(remoteIP := ip))
                     else after[k] == tunnels[k])
               && Propagate(after, name, ip) == after
  {
    var name := ExIpName(vpc, cluster);
    assert name[|vpc|] == '.';
    SplitN2First(vpc, cluster, '.');
    assert vpc + "." + cluster == vpc + ['.'] + cluster;
  }
}
