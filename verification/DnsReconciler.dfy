/**
 The reconciler of VpcDnsForwards: it rewrites the Corefile and the init commands of a deployment in place.
 */
module DnsReconciler {
  import opened Api
  import opened Finalizers
  import opened GoStrings
  import opened DnsCommands
  import opened DnsCorefile

  const DNS_FINALIZER := "dns.finalizer.ustc.io"

  datatype VpcDns = VpcDns(name: string, vpc: string, active: bool)

  /** Lines 237-244: the commands are rewritten in place. */
  method AddRouteTo(command: array<string>, route: string)
    modifies command
    ensures command[..] == AddRoute(old(command[..]), route)
  {
    for j := 0 to command.Length
      invariant forall i | 0 <= i < j :: command[i] == AddTo(old(command[i]), route)
      invariant forall i | j <= i < command.Length :: command[i] == old(command[i])
    {
      if Contains(command[j], ROUTE_ADD) {
        if !Contains(command[j], route) {
          command[j] := command[j] + route;
        }
      }
    }
  }

  /** Lines 265-268 */
  method DropRouteFrom(command: array<string>, route: string)
    requires route != ""
    modifies command
    ensures command[..] == DropRoute(old(command[..]), route)
  {
    for j := 0 to command.Length
      invariant forall i | 0 <= i < j :: command[i] == DropFrom(old(command[i]), route)
      invariant forall i | j <= i < command.Length :: command[i] == old(command[i])
    {
      command[j] := RemoveAll(command[j], route);
    }
  }

  class VpcDnsForward {
    const vpc: string
    var finalizers: seq<string>

    constructor (vpc: string)
      ensures this.vpc == vpc && finalizers == []
    {
      this.vpc := vpc;
      finalizers := [];
    }
  }

  /** What the reconciler finds in the API server. */
  class VpcDnsForwardReconciler {
    var corefile: Option<string>                   // of the ConfigMap vpc-dns-corefile
    var coreDnsIP: Option<Word>                    // of the Service kube-dns
    var gateway: Option<Word>                      // of the Subnet ovn-default
    var servers: seq<VpcDns>
    const deployments: map<string, array<string>>  // name to the commands of the first init container

    constructor (deployments: map<string, array<string>>)
      ensures this.deployments == deployments
    {
      this.deployments := deployments;
      corefile, coreDnsIP, gateway, servers := None, None, None, [];
    }

    ghost predicate Valid()
      reads this
    {
      forall a, b | a in deployments && b in deployments && deployments[a] == deployments[b] :: a == b
    }

    /** The name of the first active server of the VPC, or an empty name. */
    static function FirstServer(servers: seq<VpcDns>, vpc: string): string {
      if servers == [] then ""
      else if servers[0].vpc == vpc && servers[0].active then servers[0].name
      else FirstServer(servers[1..], vpc)
    }

    /** The first one of the list with this VPC that is active. */
    static lemma {:induction false} FirstServerMeans(servers: seq<VpcDns>, vpc: string)
      ensures if exists i :: 0 <= i < |servers| && servers[i].vpc == vpc && servers[i].active then
                exists i :: 0 <= i < |servers| && servers[i].vpc == vpc && servers[i].active
                  && FirstServer(servers, vpc) == servers[i].name
                  && forall j | 0 <= j < i :: !(servers[j].vpc == vpc && servers[j].active)
              else FirstServer(servers, vpc) == ""
    {
      if servers != [] && !(servers[0].vpc == vpc && servers[0].active) {
        var rest := servers[1..];
        FirstServerMeans(rest, vpc);
        assert forall i | 0 < i < |servers| :: servers[i] == rest[i - 1];
        if exists i :: 0 <= i < |rest| && rest[i].vpc == vpc && rest[i].active {
          var i :| 0 <= i < |rest| && rest[i].vpc == vpc && rest[i].active && FirstServer(rest, vpc) == rest[i].name
            && forall j | 0 <= j < i :: !(rest[j].vpc == vpc && rest[j].active);
          assert servers[i + 1] == rest[i];
        }
      }
    }

    ghost predicate Resolves(vpc: string)
      reads this
    {
      coreDnsIP.Some? && gateway.Some? && "vpc-dns-" + FirstServer(servers, vpc) in deployments
    }

    ghost function CommandsOf(vpc: string): array<string>
      requires Resolves(vpc)
      reads this
    {
      deployments["vpc-dns-" + FirstServer(servers, vpc)]
    }

    ghost function RouteHere(): string
      requires coreDnsIP.Some? && gateway.Some?
      reads this
      ensures Terminated(RouteHere())
    {
      RouteIsTerminated(coreDnsIP.value, gateway.value);
      Route(coreDnsIP.value, gateway.value)
    }

    /** The Corefile after the check and the update; without CoreDNS' address it stays as it is. */
    ghost function UpToDate(corefile: Option<string>): Option<string>
      reads this
    {
      if corefile.Some? && coreDnsIP.Some? then Some(Ensured(corefile.value, coreDnsIP.value)) else corefile
    }

    /** The commands of all other deployments are what they were. */
    twostate predicate OthersUnchanged(changed: set<array<string>>)
      reads this, deployments.Values
    {
      forall name | name in deployments && deployments[name] !in changed ::
          deployments[name][..] == old(deployments[name][..])
    }

    /** getVpcDnsDeployment, lines 180-207 */
    method GetVpcDnsDeployment(vpc: string) returns (command: Option<array<string>>)
      ensures var name := "vpc-dns-" + FirstServer(servers, vpc);
              command == if name in deployments then Some(deployments[name]) else None
    {
      var found := "";
      var i := 0;
      while i < |servers|
        invariant 0 <= i <= |servers|
        invariant found == "" && FirstServer(servers, vpc) == FirstServer(servers[i..], vpc)
      {
        if servers[i].vpc == vpc && servers[i].active {
          found := servers[i].name;
          break;
        }
        i := i + 1;
      }
      var name := "vpc-dns-" + found;
      command := if name in deployments then Some(deployments[name]) else None;
    }

    /** updateDnsCorefile, lines 121-153, and its guard, lines 211-223 */
    method EnsureCorefile() returns (ok: bool)
      modifies this`corefile
      ensures ok <==> old(corefile).Some? && (Forwards(old(corefile).value) || coreDnsIP.Some?)
      ensures corefile == UpToDate(old(corefile))
    {
      if corefile.None? {
        return false;
      }
      if !Forwards(corefile.value) {
        if coreDnsIP.None? {
          return false;
        }
        corefile := Some(ReplaceFirst(corefile.value, SERVER, Block(coreDnsIP.value) + SERVER));
      }
      return true;
    }

    /**
     createDnsConnection, lines 210-251: the Corefile is brought up to date first, also when the deployment
     is not found afterwards; the route is added to the commands of this VPC's deployment only.
     */
    method CreateDnsConnection(vpc: string) returns (ok: bool)
      requires Valid()
      modifies this`corefile, deployments.Values
      ensures ok <==> old(corefile).Some? && Resolves(vpc)
      ensures corefile == UpToDate(old(corefile))
      ensures ok ==> CommandsOf(vpc)[..] == AddRoute(old(CommandsOf(vpc)[..]), RouteHere())
      ensures OthersUnchanged(if ok then {CommandsOf(vpc)} else {})
    {
      ok := EnsureCorefile();
      if !ok || coreDnsIP.None? || gateway.None? {
        return false;
      }
      var route := Route(coreDnsIP.value, gateway.value);
      var found := GetVpcDnsDeployment(vpc);
      if found.None? {
        return false;
      }
      AddRouteTo(found.value, route);
    }

    /** deleteDnsConnection, lines 254-275 */
    method DeleteDnsConnection(vpc: string) returns (ok: bool)
      requires Valid()
      modifies deployments.Values
      ensures ok <==> Resolves(vpc)
      ensures ok ==> CommandsOf(vpc)[..] == DropRoute(old(CommandsOf(vpc)[..]), RouteHere())
      ensures OthersUnchanged(if ok then {CommandsOf(vpc)} else {})
    {
      if coreDnsIP.None? || gateway.None? {
        return false;
      }
      var route := Route(coreDnsIP.value, gateway.value);
      RouteIsTerminated(coreDnsIP.value, gateway.value);
      var found := GetVpcDnsDeployment(vpc);
      if found.None? {
        return false;
      }
      DropRouteFrom(found.value, route);
      return true;
    }

    /** handleCreateOrUpdate, lines 66-82: the finalizer is stored before anything else is changed. */
    method HandleCreateOrUpdate(forward: VpcDnsForward) returns (ok: bool)
      requires Valid()
      modifies this`corefile, deployments.Values, forward`finalizers
      ensures forward.finalizers == old(forward.finalizers)
           + if "dns.finalizer.ustc.io" in old(forward.finalizers) then [] else ["dns.finalizer.ustc.io"]
      ensures ok <==> old(corefile).Some? && Resolves(forward.vpc)
      ensures ok ==> CommandsOf(forward.vpc)[..] == AddRoute(old(CommandsOf(forward.vpc)[..]), RouteHere())
      ensures corefile == UpToDate(old(corefile))
      ensures OthersUnchanged(if ok then {CommandsOf(forward.vpc)} else {})
    {
      var stored := ContainsString(forward.finalizers, DNS_FINALIZER);
      if !stored {
        forward.finalizers := forward.finalizers + [DNS_FINALIZER];
      }
      ok := CreateDnsConnection(forward.vpc);
    }

    /** handleDelete, lines 84-100: the finalizer goes only after the route is gone. */
    method HandleDelete(forward: VpcDnsForward) returns (ok: bool)
      requires Valid()
      modifies deployments.Values, forward`finalizers
      ensures ok <==> "dns.finalizer.ustc.io" !in old(forward.finalizers) || Resolves(forward.vpc)
      ensures forward.finalizers == if ok then Dropped(old(forward.finalizers), "dns.finalizer.ustc.io")
              else old(forward.finalizers)
      ensures ok && "dns.finalizer.ustc.io" in old(forward.finalizers) ==>
                CommandsOf(forward.vpc)[..] == DropRoute(old(CommandsOf(forward.vpc)[..]), RouteHere())
      ensures OthersUnchanged(if ok && "dns.finalizer.ustc.io" in old(forward.finalizers)
                              then {CommandsOf(forward.vpc)} else {})
    {
      var stored := ContainsString(forward.finalizers, DNS_FINALIZER);
      if !stored {
        DroppedNothing(forward.finalizers, DNS_FINALIZER);
        return true;
      }
      ok := DeleteDnsConnection(forward.vpc);
      if ok {
        forward.finalizers := Dropped(forward.finalizers, DNS_FINALIZER);
      }
    }
  }
}
