/**
 The route to CoreDNS in the init commands of a VPC's DNS deployment: added, found and removed by string
 operations, which here are shown to be operations on lists of statements.
 */
module DnsCommands {
  import opened GoStrings
  import opened Api

  const ROUTE_ADD := "ip -4 route add"

  /** genRouteToCoreDNS, line 176 */
  function Route(ip: string, gateway: string): string {
    Line(["ip", "-4", "route", "add", ip, "via", gateway, "dev", "net1;"])
  }

  /** createDnsConnection, lines 239-243 */
  function AddTo(command: string, route: string): string {
    if Contains(command, ROUTE_ADD) && !Contains(command, route) then command + route else command
  }

  /** deleteDnsConnection, line 267 */
  function DropFrom(command: string, route: string): string
    requires route != ""
  {
    RemoveAll(command, route)
  }

  function AddRoute(commands: seq<string>, route: string): seq<string> {
    seq(|commands|, i requires 0 <= i < |commands| => AddTo(commands[i], route))
  }

  function DropRoute(commands: seq<string>, route: string): seq<string>
    requires route != ""
  {
    seq(|commands|, i requires 0 <= i < |commands| => DropFrom(commands[i], route))
  }

  // ----- on all commands -----

  /** The text ends with its only semicolon. */
  predicate Terminated(s: string) {
    s != "" && s[|s| - 1] == ';' && ';' !in s[..|s| - 1]
  }

  lemma RouteIsTerminated(ip: Word, gateway: Word)
    ensures Terminated(Route(ip, gateway))
  {
    var ws := ["ip", "-4", "route", "add", ip, "via", gateway, "dev", "net1"];
    LineHasNo(ws, ';');
    LineLast(ws, ";");
    assert ws[8] + ";" == "net1;";
    assert ws[..8] + [ws[8] + ";"] == ["ip", "-4", "route", "add", ip, "via", gateway, "dev", "net1;"];
    var r := Route(ip, gateway);
    assert r[..|r| - 1] == Line(ws);
  }

  /** The text of the route. */
  lemma RouteMeans(ip: Word, gateway: Word)
    ensures Route(ip, gateway) == "ip -4 route add " + ip + " via " + gateway + " dev net1;"
  {
    var head, middle, tail := ["ip", "-4", "route", "add"], ["via"], ["dev", "net1;"];
    LineAround(middle, gateway, tail);
    LineAround(head, ip, middle + [gateway] + tail);
    assert head + [ip] + (middle + [gateway] + tail)
        == ["ip", "-4", "route", "add", ip, "via", gateway, "dev", "net1;"];
    assert Line(head) + " " == "ip -4 route add " by {
      assert Line(["add"]) == "add" && Line(["route", "add"]) == "route add";
      assert Line(["-4", "route", "add"]) == "-4 route add";
    }
    assert " " + (Line(middle) + " ") == " via " && " " + Line(tail) == " dev net1;";
    assert "ip -4 route add " + ip + (" " + ((Line(middle) + " ") + gateway + (" " + Line(tail))))
        == "ip -4 route add " + ip + " via " + gateway + " dev net1;";
  }

  lemma {:induction false} RemoveAllShortens(s: string, sub: string)
    requires sub != ""
    ensures |RemoveAll(s, sub)| <= |s|
    ensures Contains(s, sub) <==> |RemoveAll(s, sub)| < |s|
    ensures Contains(s, sub) <==> RemoveAll(s, sub) != s
  {
    if sub <= s {
      RemoveAllShortens(s[|sub|..], sub);
    } else if s != "" {
      RemoveAllShortens(s[1..], sub);
      assert s == [s[0]] + s[1..];
    }
  }

  /** No occurrence can straddle the point where the route is appended. */
  lemma {:induction false} RemoveAppended(command: string, route: string)
    requires Terminated(route) && !Contains(command, route)
    ensures RemoveAll(command + route, route) == command
  {
    var s := command + route;
    if command == "" {
      assert s == route && s[|route|..] == "";
    } else {
      assert !(route <= s) by {
        if |route| <= |command| {
          assert s[..|route|] == command[..|route|];
        } else {
          assert s[|route| - 1] == route[|route| - 1 - |command|] == route[..|route| - 1][|route| - 1 - |command|];
        }
      }
      RemoveAppended(command[1..], route);
      assert s[1..] == command[1..] + route;
      assert command == [command[0]] + command[1..];
    }
  }

  lemma {:induction false} ContainsAppended(command: string, route: string)
    ensures Contains(command + route, route)
  {
    if command == "" {
      assert command + route == route;
    } else {
      ContainsAppended(command[1..], route);
      assert (command + route)[1..] == command[1..] + route;
    }
  }

  /** Deleting after creating restores a command if and only if it did not contain the route before. */
  lemma CommandRoundTrip(command: string, route: string)
    requires Terminated(route)
    ensures DropFrom(AddTo(command, route), route) == command <==> !Contains(command, route)
  {
    RemoveAllShortens(command, route);
    if !Contains(command, route) {
      RemoveAppended(command, route);
    }
  }

  /** The same for the whole array of commands, whatever text they are. */
  lemma RouteRoundTrip(commands: seq<string>, ip: Word, gateway: Word)
    ensures Terminated(Route(ip, gateway))
    ensures var route := Route(ip, gateway);
            DropRoute(AddRoute(commands, route), route) == commands
            <==> forall command | command in commands :: !Contains(command, route)
  {
    var route := Route(ip, gateway);
    RouteIsTerminated(ip, gateway);
    var after := DropRoute(AddRoute(commands, route), route);
    forall i | 0 <= i < |commands|
      ensures after[i] == commands[i] <==> !Contains(commands[i], route)
    {
      CommandRoundTrip(commands[i], route);
    }
    assert after == commands <==> forall i | 0 <= i < |commands| :: after[i] == commands[i];
    assert forall i | 0 <= i < |commands| :: commands[i] in commands;
  }

  /**
   Exactly the commands that contain a route statement, and not this one, get the route, at their end; all others are
   left alone, whatever text they are.
   */
  lemma AddRouteMeans(commands: seq<string>, route: string)
    ensures |AddRoute(commands, route)| == |commands|
    ensures forall i | 0 <= i < |commands| ::
              AddRoute(commands, route)[i]
              == if Contains(commands[i], "ip -4 route add") && !Contains(commands[i], route)
                 then commands[i] + route else commands[i]
  {
  }

  /** Adding twice is adding once, on all commands. */
  lemma AddIsIdempotent(commands: seq<string>, route: string)
    ensures AddRoute(AddRoute(commands, route), route) == AddRoute(commands, route)
  {
    forall i | 0 <= i < |commands|
      ensures AddTo(AddTo(commands[i], route), route) == AddTo(commands[i], route)
    {
      ContainsAppended(commands[i], route);
    }
  }

  // ----- on commands that are lists of statements -----

  function Concat(statements: seq<string>): string {
    if statements == [] then "" else statements[0] + Concat(statements[1..])
  }

  predicate IsSuffix(s: string, r: string) {
    |r| <= |s| && s[|s| - |r|..] == r
  }

  function Strip(s: string, r: string): string {
    if IsSuffix(s, r) then s[..|s| - |r|] else s
  }

  function StripAll(statements: seq<string>, r: string): seq<string> {
    if statements == [] then [] else [Strip(statements[0], r)] + StripAll(statements[1..], r)
  }

  /** The statements other than `r`, in order. */
  function Others(statements: seq<string>, r: string): seq<string> {
    if statements == [] then []
    else (if statements[0] == r then [] else [statements[0]]) + Others(statements[1..], r)
  }

  predicate AllTerminated(statements: seq<string>) {
    forall s | s in statements :: Terminated(s)
  }

  /** No statement merely ends with `r`. */
  predicate NoProperSuffix(statements: seq<string>, r: string) {
    forall s | s in statements :: IsSuffix(s, r) ==> s == r
  }

  lemma SemicolonIsLast(s: string)
    requires Terminated(s)
    ensures forall i | 0 <= i < |s| :: s[i] == ';' <==> i == |s| - 1
  {
    forall i | 0 <= i < |s| - 1
      ensures s[i] != ';'
    {
      assert s[i] == s[..|s| - 1][i];
    }
  }

  /** A route can only start a text of statements if it is the first of them. */
  lemma OnlyWholeStatements(s: string, rest: string, r: string)
    requires Terminated(s) && Terminated(r)
    ensures r <= s + rest <==> r == s
  {
    SemicolonIsLast(s);
    SemicolonIsLast(r);
    if r <= s + rest {
      var end := |r| - 1;
      assert r[end] == (s + rest)[end];
      var stop := |s| - 1;
      assert stop < |r| ==> r[stop] == (s + rest)[stop];
      assert |r| == |s|;
    }
  }

  lemma ShorterTerminated(s: string)
    requires Terminated(s) && |s| > 1
    ensures Terminated(s[1..])
  {
    assert s[1..][..|s| - 2] == s[1..|s| - 1];
    assert s[..|s| - 1] == [s[0]] + s[1..|s| - 1];
  }

  /** Where the route does not start, one character is passed over. */
  lemma RemoveSkips(s: string, r: string)
    requires s != "" && r != "" && !(r <= s)
    ensures RemoveAll(s, r) == [s[0]] + RemoveAll(s[1..], r)
    ensures Contains(s, r) <==> Contains(s[1..], r)
  {
  }

  lemma RemoveWhole(r: string, rest: string)
    requires r != ""
    ensures RemoveAll(r + rest, r) == RemoveAll(rest, r) && Contains(r + rest, r)
  {
    assert (r + rest)[|r|..] == rest;
  }

  /** The same of a suffix, seen from one character further. */
  lemma StripLater(s: string, r: string)
    requires s != "" && r != s
    ensures IsSuffix(s, r) <==> IsSuffix(s[1..], r)
    ensures [s[0]] + Strip(s[1..], r) == Strip(s, r)
  {
    assert s == [s[0]] + s[1..];
    if |r| < |s| {
      assert s[1..][|s| - 1 - |r|..] == s[|s| - |r|..];
      assert [s[0]] + s[1..][..|s| - 1 - |r|] == s[..|s| - |r|];
    }
  }

  lemma {:induction false} RemoveFromStatement(s: string, rest: string, r: string)
    requires Terminated(s) && Terminated(r)
    ensures RemoveAll(s + rest, r) == Strip(s, r) + RemoveAll(rest, r)
    ensures Contains(s + rest, r) <==> IsSuffix(s, r) || Contains(rest, r)
    decreases |s|
  {
    hide RemoveAll, Contains;
    OnlyWholeStatements(s, rest, r);
    if r == s {
      RemoveWhole(r, rest);
    } else {
      RemoveSkips(s + rest, r);
      assert (s + rest)[1..] == s[1..] + rest;
      StripLater(s, r);
      if |s| == 1 {
        assert s[1..] + rest == rest;
      } else {
        ShorterTerminated(s);
        RemoveFromStatement(s[1..], rest, r);
        Reassociate([s[0]], Strip(s[1..], r), RemoveAll(rest, r));
      }
    }
  }

  /** Removing a route strips it from the end of every statement that ends with it, and changes nothing else. */
  lemma {:induction false} RemoveStrips(statements: seq<string>, r: string)
    requires AllTerminated(statements) && Terminated(r)
    ensures RemoveAll(Concat(statements), r) == Concat(StripAll(statements, r))
  {
    if statements != [] {
      RemoveStrips(statements[1..], r);
      RemoveFromStatement(statements[0], Concat(statements[1..]), r);
      assert Concat([Strip(statements[0], r)] + StripAll(statements[1..], r))
          == Strip(statements[0], r) + Concat(StripAll(statements[1..], r));
    }
  }

  /** A route is found exactly when a statement ends with it. */
  lemma {:induction false} ContainsMeansSuffix(statements: seq<string>, r: string)
    requires AllTerminated(statements) && Terminated(r)
    ensures Contains(Concat(statements), r) <==> exists s :: s in statements && IsSuffix(s, r)
  {
    if statements != [] {
      var first, rest := statements[0], statements[1..];
      ContainsMeansSuffix(rest, r);
      RemoveFromStatement(first, Concat(rest), r);
      assert forall s :: s in statements <==> s == first || s in rest;
    }
  }

  /** On such statements, a route is found exactly when it is one of them. */
  lemma ContainsMeansStatement(statements: seq<string>, r: string)
    requires AllTerminated(statements) && Terminated(r) && NoProperSuffix(statements, r)
    ensures Contains(Concat(statements), r) <==> r in statements
  {
    ContainsMeansSuffix(statements, r);
    assert IsSuffix(r, r);
  }

  lemma {:induction false} StripAgainstFilter(statements: seq<string>, r: string)
    requires r != ""
    ensures |Concat(StripAll(statements, r))| <= |Concat(Others(statements, r))|
    ensures NoProperSuffix(statements, r) ==> Concat(StripAll(statements, r)) == Concat(Others(statements, r))
    ensures !NoProperSuffix(statements, r) ==> |Concat(StripAll(statements, r))| < |Concat(Others(statements, r))|
  {
    if statements != [] {
      var first, rest := statements[0], statements[1..];
      StripAgainstFilter(rest, r);
      assert forall s :: s in statements <==> s == first || s in rest;
      ConcatStep(Strip(first, r), StripAll(rest, r));
      ConcatStep(first, Others(rest, r));
      assert [] + Others(rest, r) == Others(rest, r);
      assert IsSuffix(r, r) && Strip(r, r) == "";
    }
  }

  lemma ConcatStep(s: string, rest: seq<string>)
    ensures Concat([s] + rest) == s + Concat(rest)
  {
    assert ([s] + rest)[1..] == rest;
  }

  /**
   The delete loop filters out exactly the statements equal to the route and keeps the others in order, if
   and only if no statement has the route as a proper suffix.
   */
  lemma DropIsFilter(statements: seq<string>, r: string)
    requires AllTerminated(statements) && Terminated(r)
    ensures DropFrom(Concat(statements), r) == Concat(Others(statements, r)) <==> NoProperSuffix(statements, r)
  {
    RemoveStrips(statements, r);
    StripAgainstFilter(statements, r);
  }

  lemma {:induction false} ConcatSnoc(statements: seq<string>, s: string)
    ensures Concat(statements + [s]) == Concat(statements) + s
  {
    if statements == [] {
      assert [] + [s] == [s] && [s][1..] == [];
    } else {
      ConcatSnoc(statements[1..], s);
      assert (statements + [s])[1..] == statements[1..] + [s];
    }
  }

  /** The create loop inserts the route once at the end if it is not one of the statements. */
  lemma AddIsInsert(statements: seq<string>, r: string)
    requires AllTerminated(statements) && Terminated(r) && NoProperSuffix(statements, r)
    requires Contains(Concat(statements), ROUTE_ADD)
    ensures AddTo(Concat(statements), r) == Concat(if r in statements then statements else statements + [r])
  {
    ContainsMeansStatement(statements, r);
    ConcatSnoc(statements, r);
  }

  lemma {:induction false} OthersAreOthers(statements: seq<string>, r: string)
    ensures forall s :: s in Others(statements, r) <==> s in statements && s != r
  {
    if statements != [] {
      OthersAreOthers(statements[1..], r);
      assert statements == [statements[0]] + statements[1..];
    }
  }

  /** On such commands, deleting twice is deleting once, and afterwards the route is not found any more. */
  lemma DropIsIdempotent(statements: seq<string>, r: string)
    requires AllTerminated(statements) && Terminated(r) && NoProperSuffix(statements, r)
    ensures var once := DropFrom(Concat(statements), r);
            DropFrom(once, r) == once && !Contains(once, r)
  {
    var rest := Others(statements, r);
    DropIsFilter(statements, r);
    OthersAreOthers(statements, r);
    ContainsMeansStatement(rest, r);
    RemoveAllShortens(Concat(rest), r);
  }

  /**
   On arbitrary text it is not: with the route nested in its own text, deleting leaves a route behind
   that the next delete removes.
   */
  lemma DropTwiceDiffers(r: string)
    requires Terminated(r) && |r| > 1
    ensures var command := r[..|r| - 1] + r + ";";
            DropFrom(command, r) == r && DropFrom(DropFrom(command, r), r) == ""
  {
    var body := r[..|r| - 1];
    assert r == body + ";";
    var nested := body + r;
    assert nested[..|nested| - 1] == body + body;
    NestedIsStripped(nested, body, r);
    assert nested + ";" == body + r + ";";
    assert RemoveAll(";", r) == ";";
    assert r[|r|..] == "";
  }

  lemma NestedIsStripped(nested: string, body: string, r: string)
    requires Terminated(r) && nested == body + r && ';' !in body && Terminated(nested)
    ensures RemoveAll(nested + ";", r) == body + RemoveAll(";", r)
  {
    RemoveFromStatement(nested, ";", r);
    assert Strip(nested, r) == body;
  }

  // ----- different routes -----

  /** A text of words that starts in the middle of another has fewer words, or a shorter first one. */
  lemma RouteStartsOnce(ip1: Word, gw1: Word, ip2: Word, gw2: Word, p: string)
    requires Route(ip2, gw2) == p + Route(ip1, gw1)
    ensures p == "" && ip1 == ip2 && gw1 == gw2
  {
    var w1 := ["ip", "-4", "route", "add", ip1, "via", gw1, "dev", "net1;"];
    var w2 := ["ip", "-4", "route", "add", ip2, "via", gw2, "dev", "net1;"];
    SplitLine(w1);
    SplitLine(w2);
    SplitAfterPrefix(p, Route(ip1, gw1), ' ');
    assert w2[0] == "ip" && w1[0] == "ip";
    assert w2[4] == ip2 && w2[6] == gw2 && w1[4] == ip1 && w1[6] == gw1;
  }

  /** Neither of two different routes occurs in the other. */
  lemma RoutesAreApart(ip1: Word, gw1: Word, ip2: Word, gw2: Word)
    ensures Contains(Route(ip2, gw2), Route(ip1, gw1)) <==> ip1 == ip2 && gw1 == gw2
  {
    var r1, r2 := Route(ip1, gw1), Route(ip2, gw2);
    RouteIsTerminated(ip1, gw1);
    RouteIsTerminated(ip2, gw2);
    RemoveFromStatement(r2, "", r1);
    assert r2 + "" == r2;
    if IsSuffix(r2, r1) {
      RouteStartsOnce(ip1, gw1, ip2, gw2, r2[..|r2| - |r1|]);
    }
  }

  /** A route that is appended and does not end with the other one does not show it. */
  lemma AddKeepsOther(statements: seq<string>, r1: string, r2: string)
    requires AllTerminated(statements) && Terminated(r1) && Terminated(r2) && !IsSuffix(r1, r2)
    ensures Contains(AddTo(Concat(statements), r1), r2) <==> Contains(Concat(statements), r2)
  {
    hide Contains, Concat, IsSuffix;
    ContainsMeansSuffix(statements, r2);
    ContainsMeansSuffix(statements + [r1], r2);
    ConcatSnoc(statements, r1);
    assert forall s :: s in statements + [r1] <==> s in statements || s == r1;
  }

  /** A route that is filtered out was not the other one. */
  lemma DropKeepsOther(statements: seq<string>, r1: string, r2: string)
    requires AllTerminated(statements) && Terminated(r1) && Terminated(r2) && r1 != r2
    requires NoProperSuffix(statements, r1) && NoProperSuffix(statements, r2)
    ensures Contains(DropFrom(Concat(statements), r1), r2) <==> Contains(Concat(statements), r2)
  {
    hide Contains, RemoveAll, Concat, DropFrom, IsSuffix;
    DropIsFilter(statements, r1);
    OthersAreOthers(statements, r1);
    ContainsMeansStatement(statements, r2);
    ContainsMeansStatement(Others(statements, r1), r2);
  }

  /** Adding or removing one route keeps the presence of every other. */
  lemma RoutesDoNotInterfere(statements: seq<string>, ip1: Word, gw1: Word, ip2: Word, gw2: Word)
    requires ip1 != ip2 || gw1 != gw2
    requires AllTerminated(statements)
    requires NoProperSuffix(statements, Route(ip1, gw1)) && NoProperSuffix(statements, Route(ip2, gw2))
    ensures Terminated(Route(ip1, gw1))
    ensures var command := Concat(statements); var r1, r2 := Route(ip1, gw1), Route(ip2, gw2);
            && (Contains(AddTo(command, r1), r2) <==> Contains(command, r2))
            && (Contains(DropFrom(command, r1), r2) <==> Contains(command, r2))
  {
    hide Route, Contains, Concat, RemoveAll, AddTo, DropFrom;
    var r1, r2 := Route(ip1, gw1), Route(ip2, gw2);
    RouteIsTerminated(ip1, gw1);
    RouteIsTerminated(ip2, gw2);
    RoutesAreApart(ip2, gw2, ip1, gw1);
    SuffixIsContained(r1, r2);
    SuffixIsContained(r2, r2);
    AddKeepsOther(statements, r1, r2);
    DropKeepsOther(statements, r1, r2);
  }

  lemma SuffixIsContained(s: string, r: string)
    requires Terminated(s) && Terminated(r)
    ensures IsSuffix(s, r) <==> Contains(s, r)
    ensures s == r ==> IsSuffix(s, r)
  {
    RemoveFromStatement(s, "", r);
    assert s + "" == s;
  }
}
