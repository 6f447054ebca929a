/**
 The operator's resources (api/v1), as values.

 Field values that end up in shell commands are `Word`s: text without blanks and semicolons.
 */
module Api {

  type Word = s: string | ' ' !in s && ';' !in s witness ""

  /** Objects are addressed by namespace and name; a tunnel's device carries the bare name. */
  datatype Key = Key(namespace: string, name: Word)

  datatype TunnelSpec = TunnelSpec(
    remoteCluster: Word, remoteVpc: Word, interfaceAddr: Word, localVpc: Word,
    typ: Word, remoteIP: Word, internalIP: Word, localGw: Word)

  datatype TunnelStatus = TunnelStatus(
    initialized: bool, internalIP: Word, remoteIP: Word, interfaceAddr: Word, localGw: Word, typ: Word,
    globalnetCIDR: Word, remoteGlobalnetCIDR: Word, ovnGwIP: Word, globalEgressIP: seq<Word>)

  datatype VpcNatTunnel = VpcNatTunnel(
    spec: TunnelSpec, status: TunnelStatus, labels: map<string, Word>,
    finalizers: seq<string>, deleting: bool)

  /** A GatewayExIp with the three labels the operator puts on it. */
  datatype GatewayExIp = GatewayExIp(
    externalIP: Word, globalNetCIDR: Word,
    localVpc: Word, localGateway: Word, localCluster: Word)

  const EMPTY_STATUS := TunnelStatus(false, "", "", "", "", "", "", "", "", [])

  datatype Option<+T> = None | Some(value: T)

  /** The name under which the GatewayExIp of a VPC of a cluster is stored. */
  function ExIpName(vpc: string, cluster: string): string {
    vpc + "." + cluster
  }
}
