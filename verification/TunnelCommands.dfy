/**
 The shell commands that build and take down a tunnel, as the text that is sent to the pod, and the
 operations that this text stands for.
 */
module TunnelCommands {
  import opened GoStrings
  import opened Api
  import opened Netns

  const DEFAULT_VID: Word := "100"
  const DEFAULT_PORT: Word := "4789"

  function Vid(labels: map<string, Word>): Word {
    if "vid" in labels then labels["vid"] else DEFAULT_VID
  }

  function Port(labels: map<string, Word>): Word {
    if "vx-port" in labels then labels["vx-port"] else DEFAULT_PORT
  }

  /** The factory's choice: everything that is not VXLAN is GRE. */
  predicate IsVxlan(typ: string) {
    typ == "vxlan"
  }

  function KindFor(typ: string, labels: map<string, Word>): Kind {
    if IsVxlan(typ) then Vxlan(Vid(labels), Port(labels)) else Gre
  }

  // ----- the text -----

  function GreCreate(name: string, remote: string, local: string): string {
    Line(["ip", "tunnel", "add", name, "mode", "gre", "remote", remote, "local", local, "ttl", "255"])
  }

  function VxlanCreate(name: string, vid: string, port: string, remote: string, local: string): string {
    Line(["ip", "link", "add", name, "type", "vxlan", "id", vid, "dev", "net1", "dstport", port,
          "remote", remote, "local", local])
  }

  function SetUp(name: string): string {
    Line(["ip", "link", "set", name, "up"])
  }

  function AddAddr(addr: string, name: string): string {
    Line(["ip", "addr", "add", addr, "dev", name])
  }

  /** `verb` is "add" or "del" */
  function InFlowRoute(verb: string, dst: string, gateway: string): string {
    Line(["ip", "route", verb, dst, "via", gateway, "dev", "eth0"])
  }

  function OutFlowRoute(verb: string, dst: string, name: string): string {
    Line(["ip", "route", verb, dst, "dev", name])
  }

  /** `flag` is "-A" or "-D" */
  function SnatRule(flag: string, dst: string, range: string): string {
    Line(["iptables", "-t", "nat", flag, "POSTROUTING", "-d", dst, "-j", "SNAT", "--to-source", range])
  }

  function CreateCmd(name: string, typ: string, st: TunnelStatus, labels: map<string, Word>): string {
    (if IsVxlan(typ) then VxlanCreate(name, Vid(labels), Port(labels), st.remoteIP, st.internalIP)
     else GreCreate(name, st.remoteIP, st.internalIP))
    + ";" + SetUp(name) + ";" + AddAddr(st.interfaceAddr, name)
  }

  function DeleteCmd(name: string, typ: string): string {
    if IsVxlan(typ) then Line(["ip", "link", "del", name]) else Line(["ip", "tunnel", "del", name])
  }

  function GenGlobalnetRoute(name: string, st: TunnelStatus): string
    requires st.globalEgressIP != []
  {
    InFlowRoute("add", st.globalnetCIDR, st.ovnGwIP) + ";" + OutFlowRoute("add", st.remoteGlobalnetCIDR, name)
    + ";" + SnatRule("-A", st.remoteGlobalnetCIDR, EgressRange(st))
  }

  function GenDelGlobalnetRoute(name: string, st: TunnelStatus): string
    requires st.globalEgressIP != []
  {
    InFlowRoute("del", st.globalnetCIDR, st.ovnGwIP) + ";" + OutFlowRoute("del", st.remoteGlobalnetCIDR, name)
    + ";" + SnatRule("-D", st.remoteGlobalnetCIDR, EgressRange(st))
  }

  function EgressRange(st: TunnelStatus): string
    requires st.globalEgressIP != []
  {
    st.globalEgressIP[0] + "-" + st.globalEgressIP[|st.globalEgressIP| - 1]
  }

  // ----- what is meant -----

  function CreateOps(name: string, typ: string, st: TunnelStatus, labels: map<string, Word>): seq<Op> {
    [if IsVxlan(typ) then LinkAddVxlan(name, Vid(labels), Port(labels), st.remoteIP, st.internalIP)
     else TunnelAddGre(name, st.remoteIP, st.internalIP),
     LinkSetUp(name),
     AddrAdd(st.interfaceAddr, name)]
  }

  function DeleteOps(name: string, typ: string): seq<Op> {
    [if IsVxlan(typ) then LinkDel(name) else TunnelDel(name)]
  }

  function InFlow(st: TunnelStatus): Hop {
    Via(st.ovnGwIP, "eth0")
  }

  function Snat(st: TunnelStatus): Rule
    requires st.globalEgressIP != []
  {
    Rule(st.remoteGlobalnetCIDR, EgressRange(st))
  }

  function RouteOps(name: string, st: TunnelStatus): seq<Op>
    requires st.globalEgressIP != []
  {
    [RouteAdd(st.globalnetCIDR, InFlow(st)), RouteAdd(st.remoteGlobalnetCIDR, Direct(name)), SnatAppend(Snat(st))]
  }

  function UnrouteOps(name: string, st: TunnelStatus): seq<Op>
    requires st.globalEgressIP != []
  {
    [RouteDel(st.globalnetCIDR, InFlow(st)), RouteDel(st.remoteGlobalnetCIDR, Direct(name)), SnatDelete(Snat(st))]
  }

  // ----- reading the text -----

  /** One statement, split into words, as the tools it names understand it. */
  function ParseWords(w: seq<string>): Op {
    if |w| == 12 && w[0] == "ip" && w[1] == "tunnel" && w[2] == "add" && w[4] == "mode" && w[5] == "gre"
       && w[6] == "remote" && w[8] == "local" && w[10] == "ttl" && w[11] == "255" then
      TunnelAddGre(w[3], w[7], w[9])
    else if |w| == 16 && w[0] == "ip" && w[1] == "link" && w[2] == "add" && w[4] == "type" && w[5] == "vxlan"
       && w[6] == "id" && w[8] == "dev" && w[9] == "net1" && w[10] == "dstport" && w[12] == "remote"
       && w[14] == "local" then
      LinkAddVxlan(w[3], w[7], w[11], w[13], w[15])
    else if |w| == 5 && w[0] == "ip" && w[1] == "link" && w[2] == "set" && w[4] == "up" then
      LinkSetUp(w[3])
    else if |w| == 6 && w[0] == "ip" && w[1] == "addr" && w[2] == "add" && w[4] == "dev" then
      AddrAdd(w[3], w[5])
    else if |w| == 4 && w[0] == "ip" && w[1] == "tunnel" && w[2] == "del" then
      TunnelDel(w[3])
    else if |w| == 4 && w[0] == "ip" && w[1] == "link" && w[2] == "del" then
      LinkDel(w[3])
    else if |w| == 8 && w[0] == "ip" && w[1] == "route" && w[4] == "via" && w[6] == "dev" then
      ParseRoute(w[2], w[3], Via(w[5], w[7]))
    else if |w| == 6 && w[0] == "ip" && w[1] == "route" && w[4] == "dev" then
      ParseRoute(w[2], w[3], Direct(w[5]))
    else if |w| == 11 && w[0] == "iptables" && w[1] == "-t" && w[2] == "nat" && w[4] == "POSTROUTING" && w[5] == "-d"
       && w[7] == "-j" && w[8] == "SNAT" && w[9] == "--to-source" then
      ParseRule(w[3], Rule(w[6], w[10]))
    else Unknown
  }

  function ParseRoute(verb: string, dst: string, hop: Hop): Op {
    if verb == "add" then RouteAdd(dst, hop) else if verb == "del" then RouteDel(dst, hop) else Unknown
  }

  function ParseRule(flag: string, rule: Rule): Op {
    if flag == "-A" then SnatAppend(rule) else if flag == "-D" then SnatDelete(rule) else Unknown
  }

  function ParseStatement(statement: string): Op {
    ParseWords(Split(statement, ' '))
  }

  function ParseStatements(statements: seq<string>): seq<Op> {
    if statements == [] then []
    else [ParseStatement(statements[0])] + ParseStatements(statements[1..])
  }

  /** `sh -c text` */
  function Parse(text: string): seq<Op> {
    ParseStatements(Split(text, ';'))
  }

  // ----- text and meaning agree -----

  predicate Clean(ws: seq<string>) {
    ws != [] && forall w | w in ws :: ' ' !in w && ';' !in w
  }

  /** The text is one statement, and is read as this operation. */
  predicate Reads(text: string, op: Op) {
    Split(text, ';') == [text] && ParseWords(Split(text, ' ')) == op
  }

  lemma ReadsLine(ws: seq<string>, op: Op)
    requires Clean(ws) && ParseWords(ws) == op
    ensures Reads(Line(ws), op)
  {
    LineHasNo(ws, ';');
    SplitWord(Line(ws), ';');
    SplitLine(ws);
  }

  lemma SplitThree(a: string, b: string, c: string)
    requires Split(a, ';') == [a] && Split(b, ';') == [b] && Split(c, ';') == [c]
    ensures Split(a + ";" + b + ";" + c, ';') == [a, b, c]
  {
    hide Split;
    SplitAppend(a, b, ';');
    SplitAppend(a + ";" + b, c, ';');
  }

  /** A command of three statements is read as the three operations. */
  lemma ParseThree(a: string, b: string, c: string, opA: Op, opB: Op, opC: Op)
    requires Reads(a, opA) && Reads(b, opB) && Reads(c, opC)
    ensures Parse(a + ";" + b + ";" + c) == [opA, opB, opC]
  {
    hide Split, ParseWords;
    SplitThree(a, b, c);
    assert [a, b, c][1..] == [b, c] && [b, c][1..] == [c] && [c][1..] == [];
    assert ParseStatements([c]) == [opC];
    assert ParseStatements([b, c]) == [opB] + ParseStatements([c]);
  }

  lemma ParseOne(a: string, opA: Op)
    requires Reads(a, opA)
    ensures Parse(a) == [opA]
  {
    assert [a][1..] == [];
    assert ParseStatements([]) == [];
  }

  lemma CleanAppend(a: seq<string>, b: seq<string>)
    requires Clean(a) && Clean(b)
    ensures Clean(a + b)
  {
  }

  lemma GreCreateClean(name: Word, remote: Word, local: Word)
    ensures Clean(["ip", "tunnel", "add", name, "mode", "gre", "remote", remote, "local", local, "ttl", "255"])
  {
    var a, b := ["ip", "tunnel", "add", name, "mode", "gre"], ["remote", remote, "local", local, "ttl", "255"];
    CleanAppend(a, b);
    assert a + b == ["ip", "tunnel", "add", name, "mode", "gre", "remote", remote, "local", local, "ttl", "255"];
  }

  lemma GreCreateReads(name: Word, remote: Word, local: Word)
    ensures Reads(GreCreate(name, remote, local), TunnelAddGre(name, remote, local))
  {
    hide Clean, Reads, Line;
    GreCreateClean(name, remote, local);
    ReadsLine(["ip", "tunnel", "add", name, "mode", "gre", "remote", remote, "local", local, "ttl", "255"],
              TunnelAddGre(name, remote, local));
  }

  lemma VxlanCreateReads(name: Word, vid: Word, port: Word, remote: Word, local: Word)
    ensures Reads(VxlanCreate(name, vid, port, remote, local), LinkAddVxlan(name, vid, port, remote, local))
  {
    hide Clean, Reads, Line;
    var ws := ["ip", "link", "add", name, "type", "vxlan", "id", vid, "dev", "net1", "dstport", port,
               "remote", remote, "local", local];
    VxlanCreateClean(name, vid, port, remote, local);
    ReadsLine(ws, LinkAddVxlan(name, vid, port, remote, local));
  }

  lemma VxlanCreateClean(name: Word, vid: Word, port: Word, remote: Word, local: Word)
    ensures Clean(["ip", "link", "add", name, "type", "vxlan", "id", vid, "dev", "net1", "dstport", port,
                   "remote", remote, "local", local])
  {
    var a, b := ["ip", "link", "add", name, "type", "vxlan", "id", vid],
      ["dev", "net1", "dstport", port, "remote", remote, "local", local];
    CleanAppend(a, b);
    assert a + b == ["ip", "link", "add", name, "type", "vxlan", "id", vid, "dev", "net1", "dstport", port,
                   "remote", remote, "local", local];
  }

  lemma SetUpReads(name: Word)
    ensures Reads(SetUp(name), LinkSetUp(name))
  {
    ReadsLine(["ip", "link", "set", name, "up"], LinkSetUp(name));
  }

  lemma AddAddrReads(addr: Word, name: Word)
    ensures Reads(AddAddr(addr, name), AddrAdd(addr, name))
  {
    ReadsLine(["ip", "addr", "add", addr, "dev", name], AddrAdd(addr, name));
  }

  lemma InFlowReads(verb: Word, dst: Word, gateway: Word)
    ensures Reads(InFlowRoute(verb, dst, gateway), ParseRoute(verb, dst, Via(gateway, "eth0")))
  {
    ReadsLine(["ip", "route", verb, dst, "via", gateway, "dev", "eth0"], ParseRoute(verb, dst, Via(gateway, "eth0")));
  }

  lemma OutFlowReads(verb: Word, dst: Word, name: Word)
    ensures Reads(OutFlowRoute(verb, dst, name), ParseRoute(verb, dst, Direct(name)))
  {
    ReadsLine(["ip", "route", verb, dst, "dev", name], ParseRoute(verb, dst, Direct(name)));
  }

  lemma SnatClean(flag: Word, dst: Word, range: Word)
    ensures Clean(["iptables", "-t", "nat", flag, "POSTROUTING", "-d", dst, "-j", "SNAT", "--to-source", range])
  {
    var a, b := ["iptables", "-t", "nat", flag, "POSTROUTING"], ["-d", dst, "-j", "SNAT", "--to-source", range];
    CleanAppend(a, b);
    assert a + b == ["iptables", "-t", "nat", flag, "POSTROUTING", "-d", dst, "-j", "SNAT", "--to-source", range];
  }

  lemma SnatReads(flag: Word, dst: Word, range: Word)
    ensures Reads(SnatRule(flag, dst, range), ParseRule(flag, Rule(dst, range)))
  {
    hide Clean, Reads, Line, ParseRule;
    SnatClean(flag, dst, range);
    ReadsLine(["iptables", "-t", "nat", flag, "POSTROUTING", "-d", dst, "-j", "SNAT", "--to-source", range],
              ParseRule(flag, Rule(dst, range)));
  }

  lemma DeleteReads(name: Word)
    ensures Reads(Line(["ip", "link", "del", name]), LinkDel(name))
    ensures Reads(Line(["ip", "tunnel", "del", name]), TunnelDel(name))
  {
    ReadsLine(["ip", "link", "del", name], LinkDel(name));
    ReadsLine(["ip", "tunnel", "del", name], TunnelDel(name));
  }

  /** The create command, read by the shell, is the three operations meant. */
  lemma CreateCmdMeans(name: Word, typ: string, st: TunnelStatus, labels: map<string, Word>)
    ensures Parse(CreateCmd(name, typ, st, labels)) == CreateOps(name, typ, st, labels)
    ensures CreateOps(name, typ, st, labels)
         == [if typ == "vxlan" then
               LinkAddVxlan(name, if "vid" in labels then labels["vid"] else "100",
                            if "vx-port" in labels then labels["vx-port"] else "4789", st.remoteIP, st.internalIP)
             else TunnelAddGre(name, st.remoteIP, st.internalIP),
             LinkSetUp(name), AddrAdd(st.interfaceAddr, name)]
  {
    SetUpReads(name);
    AddAddrReads(st.interfaceAddr, name);
    if IsVxlan(typ) {
      VxlanCreateReads(name, Vid(labels), Port(labels), st.remoteIP, st.internalIP);
      ParseThree(VxlanCreate(name, Vid(labels), Port(labels), st.remoteIP, st.internalIP), SetUp(name),
                 AddAddr(st.interfaceAddr, name),
                 LinkAddVxlan(name, Vid(labels), Port(labels), st.remoteIP, st.internalIP), LinkSetUp(name),
                 AddrAdd(st.interfaceAddr, name));
    } else {
      GreCreateReads(name, st.remoteIP, st.internalIP);
      ParseThree(GreCreate(name, st.remoteIP, st.internalIP), SetUp(name), AddAddr(st.interfaceAddr, name),
                 TunnelAddGre(name, st.remoteIP, st.internalIP), LinkSetUp(name), AddrAdd(st.interfaceAddr, name));
    }
  }

  lemma DeleteCmdMeans(name: Word, typ: string)
    ensures Parse(DeleteCmd(name, typ)) == DeleteOps(name, typ)
    ensures DeleteOps(name, typ) == [if typ == "vxlan" then LinkDel(name) else TunnelDel(name)]
  {
    DeleteReads(name);
    if IsVxlan(typ) {
      ParseOne(Line(["ip", "link", "del", name]), LinkDel(name));
    } else {
      ParseOne(Line(["ip", "tunnel", "del", name]), TunnelDel(name));
    }
  }

  lemma EgressRangeIsWord(st: TunnelStatus)
    requires st.globalEgressIP != []
    ensures ' ' !in EgressRange(st) && ';' !in EgressRange(st)
  {
  }

  /** The route commands, read by the shell, are the operations meant. */
  lemma GenGlobalnetRouteMeans(name: Word, st: TunnelStatus)
    requires st.globalEgressIP != []
    ensures Parse(GenGlobalnetRoute(name, st)) == RouteOps(name, st)
    ensures RouteOps(name, st)
         == [RouteAdd(st.globalnetCIDR, Via(st.ovnGwIP, "eth0")), RouteAdd(st.remoteGlobalnetCIDR, Direct(name)),
             SnatAppend(Rule(st.remoteGlobalnetCIDR,
                             st.globalEgressIP[0] + "-" + st.globalEgressIP[|st.globalEgressIP| - 1]))]
  {
    EgressRangeIsWord(st);
    InFlowReads("add", st.globalnetCIDR, st.ovnGwIP);
    OutFlowReads("add", st.remoteGlobalnetCIDR, name);
    SnatReads("-A", st.remoteGlobalnetCIDR, EgressRange(st));
    ParseThree(InFlowRoute("add", st.globalnetCIDR, st.ovnGwIP), OutFlowRoute("add", st.remoteGlobalnetCIDR, name),
               SnatRule("-A", st.remoteGlobalnetCIDR, EgressRange(st)),
               RouteAdd(st.globalnetCIDR, InFlow(st)), RouteAdd(st.remoteGlobalnetCIDR, Direct(name)),
               SnatAppend(Snat(st)));
  }

  lemma GenDelGlobalnetRouteMeans(name: Word, st: TunnelStatus)
    requires st.globalEgressIP != []
    ensures Parse(GenDelGlobalnetRoute(name, st)) == UnrouteOps(name, st)
    ensures UnrouteOps(name, st)
         == [RouteDel(st.globalnetCIDR, Via(st.ovnGwIP, "eth0")), RouteDel(st.remoteGlobalnetCIDR, Direct(name)),
             SnatDelete(Rule(st.remoteGlobalnetCIDR,
                             st.globalEgressIP[0] + "-" + st.globalEgressIP[|st.globalEgressIP| - 1]))]
  {
    EgressRangeIsWord(st);
    InFlowReads("del", st.globalnetCIDR, st.ovnGwIP);
    OutFlowReads("del", st.remoteGlobalnetCIDR, name);
    SnatReads("-D", st.remoteGlobalnetCIDR, EgressRange(st));
    ParseThree(InFlowRoute("del", st.globalnetCIDR, st.ovnGwIP), OutFlowRoute("del", st.remoteGlobalnetCIDR, name),
               SnatRule("-D", st.remoteGlobalnetCIDR, EgressRange(st)),
               RouteDel(st.globalnetCIDR, InFlow(st)), RouteDel(st.remoteGlobalnetCIDR, Direct(name)),
               SnatDelete(Snat(st)));
  }

  // ----- word by word -----

  /** The statements of a command and the words of each: the text, but for its blanks and semicolons. */
  function Words(text: string): seq<seq<string>> {
    var statements := Split(text, ';');
    seq(|statements|, i requires 0 <= i < |statements| => Split(statements[i], ' '))
  }

  predicate Says(text: string, ws: seq<string>) {
    Split(text, ';') == [text] && Split(text, ' ') == ws
  }

  lemma SaysLine(ws: seq<string>)
    requires Clean(ws)
    ensures Says(Line(ws), ws)
  {
    LineHasNo(ws, ';');
    SplitWord(Line(ws), ';');
    SplitLine(ws);
  }

  lemma WordsOfThree(a: string, b: string, c: string, wa: seq<string>, wb: seq<string>, wc: seq<string>)
    requires Says(a, wa) && Says(b, wb) && Says(c, wc)
    ensures Words(a + ";" + b + ";" + c) == [wa, wb, wc]
  {
    hide Split;
    SplitThree(a, b, c);
  }

  /** The words of the create command. */
  lemma CreateCmdWords(name: Word, typ: string, st: TunnelStatus, labels: map<string, Word>)
    ensures Words(CreateCmd(name, typ, st, labels))
         == [if typ == "vxlan" then
               ["ip", "link", "add", name, "type", "vxlan", "id", if "vid" in labels then labels["vid"] else "100",
                "dev", "net1", "dstport", if "vx-port" in labels then labels["vx-port"] else "4789",
                "remote", st.remoteIP, "local", st.internalIP]
             else
               ["ip", "tunnel", "add", name, "mode", "gre", "remote", st.remoteIP, "local", st.internalIP,
                "ttl", "255"],
             ["ip", "link", "set", name, "up"], ["ip", "addr", "add", st.interfaceAddr, "dev", name]]
  {
    hide Clean, Says, Words, Line;
    var vid, port := Vid(labels), Port(labels);
    SetUpSays(name);
    AddAddrSays(st.interfaceAddr, name);
    var up, addr := ["ip", "link", "set", name, "up"], ["ip", "addr", "add", st.interfaceAddr, "dev", name];
    if IsVxlan(typ) {
      VxlanCreateClean(name, vid, port, st.remoteIP, st.internalIP);
      var ws := ["ip", "link", "add", name, "type", "vxlan", "id", vid, "dev", "net1", "dstport", port,
                 "remote", st.remoteIP, "local", st.internalIP];
      SaysLine(ws);
      WordsOfThree(Line(ws), SetUp(name), AddAddr(st.interfaceAddr, name), ws, up, addr);
    } else {
      GreCreateClean(name, st.remoteIP, st.internalIP);
      var ws := ["ip", "tunnel", "add", name, "mode", "gre", "remote", st.remoteIP, "local", st.internalIP,
                 "ttl", "255"];
      SaysLine(ws);
      WordsOfThree(Line(ws), SetUp(name), AddAddr(st.interfaceAddr, name), ws, up, addr);
    }
  }

  lemma SetUpSays(name: Word)
    ensures Says(SetUp(name), ["ip", "link", "set", name, "up"])
  {
    hide Says, Line;
    SaysLine(["ip", "link", "set", name, "up"]);
  }

  lemma AddAddrSays(addr: Word, name: Word)
    ensures Says(AddAddr(addr, name), ["ip", "addr", "add", addr, "dev", name])
  {
    hide Says, Line;
    SaysLine(["ip", "addr", "add", addr, "dev", name]);
  }

  /** The words of the delete command. */
  lemma DeleteCmdWords(name: Word, typ: string)
    ensures Words(DeleteCmd(name, typ)) == [["ip", if typ == "vxlan" then "link" else "tunnel", "del", name]]
  {
    hide Line;
    var ws := ["ip", if typ == "vxlan" then "link" else "tunnel", "del", name];
    SaysLine(ws);
    assert DeleteCmd(name, typ) == Line(ws);
  }

  /** The words of the commands that route through the tunnel and that undo it. */
  lemma RouteCmdWords(name: Word, st: TunnelStatus)
    requires st.globalEgressIP != []
    ensures Words(GenGlobalnetRoute(name, st)) == RouteWords("add", "-A", name, st)
    ensures Words(GenDelGlobalnetRoute(name, st)) == RouteWords("del", "-D", name, st)
  {
    hide Says, Words, Line;
    EgressRangeIsWord(st);
    RouteSays("add", "-A", name, st);
    RouteSays("del", "-D", name, st);
  }

  function RouteWords(verb: string, flag: string, name: string, st: TunnelStatus): seq<seq<string>>
    requires st.globalEgressIP != []
  {
    [["ip", "route", verb, st.globalnetCIDR, "via", st.ovnGwIP, "dev", "eth0"],
     ["ip", "route", verb, st.remoteGlobalnetCIDR, "dev", name],
     ["iptables", "-t", "nat", flag, "POSTROUTING", "-d", st.remoteGlobalnetCIDR, "-j", "SNAT", "--to-source",
      st.globalEgressIP[0] + "-" + st.globalEgressIP[|st.globalEgressIP| - 1]]]
  }

  lemma RouteSays(verb: Word, flag: Word, name: Word, st: TunnelStatus)
    requires st.globalEgressIP != []
    ensures var dst := st.remoteGlobalnetCIDR;
            Words(InFlowRoute(verb, st.globalnetCIDR, st.ovnGwIP) + ";" + OutFlowRoute(verb, dst, name)
                  + ";" + SnatRule(flag, dst, EgressRange(st)))
            == RouteWords(verb, flag, name, st)
  {
    hide Clean, Says, Words, Line;
    EgressRangeIsWord(st);
    var ws := RouteWords(verb, flag, name, st);
    InFlowClean(verb, st.globalnetCIDR, st.ovnGwIP);
    OutFlowClean(verb, st.remoteGlobalnetCIDR, name);
    SnatClean(flag, st.remoteGlobalnetCIDR, EgressRange(st));
    SaysLine(ws[0]);
    SaysLine(ws[1]);
    SaysLine(ws[2]);
    WordsOfThree(Line(ws[0]), Line(ws[1]), Line(ws[2]), ws[0], ws[1], ws[2]);
  }

  lemma InFlowClean(verb: Word, dst: Word, gateway: Word)
    ensures Clean(["ip", "route", verb, dst, "via", gateway, "dev", "eth0"])
  {
  }

  lemma OutFlowClean(verb: Word, dst: Word, name: Word)
    ensures Clean(["ip", "route", verb, dst, "dev", name])
  {
  }
}
