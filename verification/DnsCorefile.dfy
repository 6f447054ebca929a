/**
 The Corefile of the VPCs' DNS servers: a forwarding block is put in front of the default server, once.
 */
module DnsCorefile {
  import opened GoStrings

  const ZONE := "clusterset.local"
  const SERVER := ".:53 {"

  /** checkDnsCorefile, line 114 */
  predicate Forwards(corefile: string) {
    Contains(corefile, ZONE)
  }

  /** The text that is put in front of the server, lines 142-145. */
  function Block(ip: string): string {
    ZONE + ":53 {\n    forward . " + ip + "\n  }\n  "
  }

  /** updateDnsCorefile, line 146 */
  function WithForward(corefile: string, ip: string): string {
    ReplaceFirst(corefile, SERVER, Block(ip) + SERVER)
  }

  /** createDnsConnection, lines 211-223 */
  function Ensured(corefile: string, ip: string): string {
    if Forwards(corefile) then corefile else WithForward(corefile, ip)
  }

  // ----- where the block goes -----

  /** The first occurrence. */
  predicate FirstAt(s: string, sub: string, i: nat) {
    OccursAt(s, sub, i) && forall j | 0 <= j < i :: !OccursAt(s, sub, j)
  }

  /** One different character is enough. */
  lemma NotThere(s: string, sub: string, j: nat, k: nat)
    requires k < |sub| && j + k < |s| && s[j + k] != sub[k]
    ensures !OccursAt(s, sub, j)
  {
    assert j + |sub| <= |s| ==> s[j..j + |sub|][k] == s[j + k];
  }

  /** Replacing the first occurrence, told by its position. */
  lemma {:induction false} ReplaceFirstAt(s: string, sub: string, replacement: string, i: nat)
    requires sub != "" && FirstAt(s, sub, i)
    ensures ReplaceFirst(s, sub, replacement) == s[..i] + replacement + s[i + |sub|..]
  {
    if i == 0 {
      assert sub == s[..|sub|];
    } else {
      assert !OccursAt(s, sub, 0);
      forall j | 0 <= j < i - 1
        ensures !OccursAt(s[1..], sub, j)
      {
        assert !OccursAt(s, sub, j + 1);
        assert s[1..][j..j + |sub|] == s[j + 1..j + 1 + |sub|];
      }
      assert s[1..][i - 1..i - 1 + |sub|] == s[i..i + |sub|];
      ReplaceFirstAt(s[1..], sub, replacement, i - 1);
      assert s[..i] == [s[0]] + s[1..][..i - 1];
    }
  }

  lemma {:induction false} ReplaceFirstAbsent(s: string, sub: string, replacement: string)
    requires sub != "" && !Contains(s, sub)
    ensures ReplaceFirst(s, sub, replacement) == s
  {
    if s != "" {
      ReplaceFirstAbsent(s[1..], sub, replacement);
    }
  }

  /** What is contained occurs somewhere first. */
  lemma {:induction false} HasFirst(s: string, sub: string) returns (i: nat)
    requires Contains(s, sub)
    ensures FirstAt(s, sub, i)
  {
    if sub <= s {
      i := 0;
    } else {
      var k := HasFirst(s[1..], sub);
      i := k + 1;
      assert s[1..][k..k + |sub|] == s[k + 1..k + 1 + |sub|];
      forall j | 0 <= j < i
        ensures !OccursAt(s, sub, j)
      {
        if j > 0 {
          assert !OccursAt(s[1..], sub, j - 1);
          assert j + |sub| <= |s| ==> s[1..][j - 1..j - 1 + |sub|] == s[j..j + |sub|];
        }
      }
    }
  }

  /**
   The update puts the forwarding block, with CoreDNS' address, in front of the first default server, and does nothing
   without one; with the check before it, it is done only if the Corefile does not know the zone yet.
   */
  lemma ForwardIsInserted(corefile: string, ip: string)
    ensures if Contains(corefile, ".:53 {") then
              exists i: nat :: FirstAt(corefile, ".:53 {", i) &&
                WithForward(corefile, ip)
                == corefile[..i] + ("clusterset.local:53 {\n    forward . " + ip + "\n  }\n  ") + corefile[i..]
            else WithForward(corefile, ip) == corefile
    ensures Ensured(corefile, ip)
         == if Contains(corefile, "clusterset.local") then corefile else WithForward(corefile, ip)
  {
    if Contains(corefile, SERVER) {
      var i := HasFirst(corefile, SERVER);
      InsertedAt(corefile, ip, i);
      assert FirstAt(corefile, ".:53 {", i);
      BlockMeans(ip);
    } else {
      ReplaceFirstAbsent(corefile, SERVER, Block(ip) + SERVER);
    }
  }

  lemma BlockMeans(ip: string)
    ensures Block(ip) == "clusterset.local:53 {\n    forward . " + ip + "\n  }\n  "
  {
    assert ZONE + ":53 {\n    forward . " == "clusterset.local:53 {\n    forward . ";
  }

  lemma InsertedAt(corefile: string, ip: string, i: nat)
    requires FirstAt(corefile, SERVER, i)
    ensures WithForward(corefile, ip) == corefile[..i] + Block(ip) + corefile[i..]
  {
    ReplaceFirstAt(corefile, SERVER, Block(ip) + SERVER, i);
    assert corefile[i..] == SERVER + corefile[i + |SERVER|..];
  }

  lemma OccursMeansContains(s: string, sub: string, i: nat)
    requires OccursAt(s, sub, i)
    ensures Contains(s, sub)
  {
    ContainsMeansOccurs(s, sub);
  }

  lemma ZoneOccurs(before: string, ip: string, after: string)
    ensures OccursAt(before + Block(ip) + after, ZONE, |before|)
  {
    var rest := ":53 {\n    forward . " + ip + "\n  }\n  ";
    assert before + Block(ip) + after == before + ZONE + (rest + after);
  }

  /** Checking and then updating is idempotent, for every Corefile, also with another address the second time. */
  lemma EnsuredIsIdempotent(corefile: string, ip: string, ip': string)
    ensures Ensured(Ensured(corefile, ip), ip') == if Contains(corefile, SERVER) then Ensured(corefile, ip)
            else corefile
    ensures Ensured(Ensured(corefile, ip), ip') == Ensured(corefile, ip)
  {
    if Contains(corefile, SERVER) {
      if !Forwards(corefile) {
        var i := HasFirst(corefile, SERVER);
        InsertedAt(corefile, ip, i);
        ZoneOccurs(corefile[..i], ip, corefile[i..]);
        OccursMeansContains(WithForward(corefile, ip), ZONE, i);
      }
    } else {
      ReplaceFirstAbsent(corefile, SERVER, Block(ip) + SERVER);
      ReplaceFirstAbsent(corefile, SERVER, Block(ip') + SERVER);
    }
  }

  // ----- taking the block out again -----

  /** The zone's name does not overlap with itself. */
  lemma ZoneDoesNotOverlap(d: nat)
    requires 0 < d < |ZONE|
    ensures exists k | 0 <= k < |ZONE| - d :: ZONE[k] != ZONE[d + k]
  {
    if d == 13 {
      assert ZONE[1] == 'l' && ZONE[14] == 'a';
      assert ZONE[1] != ZONE[13 + 1];
    } else {
      assert ZONE[0] == 'c';
      assert ZONE[d] != 'c';
      assert ZONE[0] != ZONE[d + 0];
    }
  }

  /** Without the zone in front of it, the inserted block is the first of its kind. */
  lemma BlockIsFirst(before: string, ip: string, after: string)
    requires !Forwards(before + after)
    ensures FirstAt(before + Block(ip) + after, Block(ip), |before|)
  {
    var s := before + Block(ip) + after;
    var n := |before|;
    forall j | 0 <= j < n
      ensures !OccursAt(s, ZONE, j)
    {
      ZoneNotBefore(before, ip, after, j);
    }
    forall j | 0 <= j < n
      ensures !OccursAt(s, Block(ip), j)
    {
      assert !OccursAt(s, ZONE, j);
      assert Block(ip)[..|ZONE|] == ZONE;
      assert j + |Block(ip)| <= |s| ==> s[j..j + |ZONE|] == s[j..j + |Block(ip)|][..|ZONE|];
    }
  }

  /** An occurrence rules out another one that would overlap with it and differ. */
  lemma NoOverlap(s: string, sub: string, at: nat, j: nat, k: nat)
    requires OccursAt(s, sub, at) && j < at && at - j + k < |sub| && sub[k] != sub[at - j + k]
    ensures !OccursAt(s, sub, j)
  {
    assert s[at + k] == s[at..at + |sub|][k];
    NotThere(s, sub, j, at - j + k);
  }

  lemma NotInPrefix(a: string, b: string, c: string, sub: string, j: nat)
    requires !Contains(a + c, sub) && j + |sub| <= |a|
    ensures !OccursAt(a + b + c, sub, j)
  {
    ContainsMeansOccurs(a + c, sub);
    assert !OccursAt(a + c, sub, j);
    assert (a + b + c)[j..j + |sub|] == (a + c)[j..j + |sub|];
  }

  lemma ZoneNotBefore(before: string, ip: string, after: string, j: nat)
    requires !Forwards(before + after) && j < |before|
    ensures !OccursAt(before + Block(ip) + after, ZONE, j)
  {
    if j + |ZONE| <= |before| {
      NotInPrefix(before, Block(ip), after, ZONE, j);
    } else {
      ZoneOccurs(before, ip, after);
      ZoneDoesNotOverlap(|before| - j);
      var k :| 0 <= k < |ZONE| - (|before| - j) && ZONE[k] != ZONE[|before| - j + k];
      NoOverlap(before + Block(ip) + after, ZONE, |before|, j, k);
    }
  }

  /** Removing the inserted block gives the original file back. */
  lemma BlockRoundTrip(corefile: string, ip: string)
    requires Contains(corefile, SERVER) && !Forwards(corefile)
    ensures ReplaceFirst(Ensured(corefile, ip), Block(ip), "") == corefile
  {
    hide ReplaceFirst, Contains;
    var i := HasFirst(corefile, SERVER);
    InsertedAt(corefile, ip, i);
    assert corefile == corefile[..i] + corefile[i..];
    BlockIsFirst(corefile[..i], ip, corefile[i..]);
    ReplaceFirstAt(Ensured(corefile, ip), Block(ip), "", i);
  }

  // ----- how many servers -----

  /** No occurrence lies across the seam. */
  ghost predicate Seam(a: string, b: string, sub: string) {
    forall j | 0 <= j < |a| < j + |sub| :: !OccursAt(a + b, sub, j)
  }

  lemma {:induction false} CountAppend(a: string, b: string, sub: string)
    requires sub != "" && Seam(a, b, sub)
    ensures Count(a + b, sub) == Count(a, sub) + Count(b, sub)
    decreases |a|
  {
    var s := a + b;
    if a == "" {
      assert s == b;
    } else if sub <= s {
      assert OccursAt(s, sub, 0);
      assert a[..|sub|] == s[..|sub|];
      SeamTail(a, b, sub, |sub|);
      CountAppend(a[|sub|..], b, sub);
      assert s[|sub|..] == a[|sub|..] + b;
    } else {
      assert !(sub <= a);
      SeamTail(a, b, sub, 1);
      CountAppend(a[1..], b, sub);
      assert s[1..] == a[1..] + b;
    }
  }

  lemma SeamTail(a: string, b: string, sub: string, n: nat)
    requires Seam(a, b, sub) && n <= |a|
    ensures Seam(a[n..], b, sub)
  {
    forall j | 0 <= j < |a[n..]| < j + |sub|
      ensures !OccursAt(a[n..] + b, sub, j)
    {
      assert !OccursAt(a + b, sub, n + j);
      assert n + j + |sub| <= |a + b| ==> (a + b)[n + j..n + j + |sub|] == (a[n..] + b)[j..j + |sub|];
    }
  }

  /** Whatever contains a character that the text lacks does not occur in it. */
  lemma {:induction false} CountWithout(s: string, sub: string, c: char)
    requires sub != "" && c in sub && c !in s
    ensures Count(s, sub) == 0
  {
    if s != "" {
      assert sub <= s ==> forall x | x in sub :: x in s;
      CountWithout(s[1..], sub, c);
    }
  }

  /** A character at the seam that is not part of the server's name. */
  lemma SeamByLast(a: string, b: string, sub: string)
    requires a != "" && a[|a| - 1] !in sub
    ensures Seam(a, b, sub)
  {
    forall j | 0 <= j < |a| < j + |sub|
      ensures !OccursAt(a + b, sub, j)
    {
      NotThere(a + b, sub, j, |a| - 1 - j);
    }
  }

  lemma SeamByNext(a: string, b: string, sub: string)
    requires b != "" && b[0] !in sub
    ensures Seam(a, b, sub)
  {
    forall j | 0 <= j < |a| < j + |sub|
      ensures !OccursAt(a + b, sub, j)
    {
      NotThere(a + b, sub, j, |a| - j);
    }
  }

  /** After " . " no occurrence of the server's name can have begun. */
  lemma SeamAfterDot(rest: string)
    ensures Seam(" . ", rest, SERVER)
  {
    var text := " . " + rest;
    forall j | 0 <= j < 3 < j + |SERVER|
      ensures !OccursAt(text, SERVER, j)
    {
      assert SERVER[2 - j] != ' ';
      NotThere(text, SERVER, j, 2 - j);
    }
  }

  /** After two blanks neither: where it would have its own blank, the server begins anew. */
  lemma SeamBeforeServer(rest: string)
    requires SERVER <= rest
    ensures Seam("\n  }\n  ", rest, SERVER)
  {
    var text := "\n  }\n  " + rest;
    assert text[6] == ' ' && text[7] == '.';
    forall j | 0 <= j < 7 < j + |SERVER|
      ensures !OccursAt(text, SERVER, j)
    {
      if 6 - j == 4 {
        NotThere(text, SERVER, j, 5);
      } else {
        NotThere(text, SERVER, j, 6 - j);
      }
    }
  }

  /** A text in front that cannot hold the server's name. */
  lemma CountSkips(a: string, b: string, sub: string, c: char)
    requires sub != "" && c in sub && c !in a && Seam(a, b, sub)
    ensures Count(a + b, sub) == Count(b, sub)
  {
    CountAppend(a, b, sub);
    CountWithout(a, sub, c);
  }

  lemma CountHead(rest: string)
    ensures Count(ZONE + ":53 {\n    forward . " + rest, SERVER) == Count(rest, SERVER)
  {
    var forward := ":53 {\n    forward";
    var dot := " . ";
    assert ZONE + ":53 {\n    forward . " + rest == ZONE + (forward + (dot + rest));
    SeamByLast(ZONE, forward + (dot + rest), SERVER);
    CountSkips(ZONE, forward + (dot + rest), SERVER, ':');
    SeamByLast(forward, dot + rest, SERVER);
    CountSkips(forward, dot + rest, SERVER, '.');
    SeamAfterDot(rest);
    CountSkips(dot, rest, SERVER, ':');
  }

  lemma CountBlock(ip: string, rest: string)
    requires SERVER <= rest
    ensures Count(Block(ip) + rest, SERVER) == Count(ip, SERVER) + Count(rest, SERVER)
  {
    var head, tail := ZONE + ":53 {\n    forward . ", "\n  }\n  ";
    assert Block(ip) + rest == head + (ip + (tail + rest));
    CountHead(ip + (tail + rest));
    SeamByNext(ip, tail + rest, SERVER);
    CountAppend(ip, tail + rest, SERVER);
    SeamBeforeServer(rest);
    CountSkips(tail, rest, SERVER, '.');
  }

  lemma FirstIsASeam(before: string, rest: string, sub: string)
    requires FirstAt(before + rest, sub, |before|)
    ensures Seam(before, rest, sub)
  {
  }

  /** The number of servers stays, apart from any in the address itself. */
  lemma ServersAreKept(corefile: string, ip: string)
    requires Contains(corefile, SERVER)
    ensures Count(WithForward(corefile, ip), SERVER) == Count(corefile, SERVER) + Count(ip, SERVER)
    ensures ':' !in ip ==> Count(WithForward(corefile, ip), SERVER) == Count(corefile, SERVER)
  {
    var i := HasFirst(corefile, SERVER);
    var before, rest := corefile[..i], corefile[i..];
    InsertedAt(corefile, ip, i);
    assert corefile == before + rest;
    assert SERVER <= rest by { assert rest[..|SERVER|] == corefile[i..i + |SERVER|]; }
    FirstIsASeam(before, rest, SERVER);
    CountAppend(before, rest, SERVER);
    CountAround(before, ip, rest);
    if ':' !in ip {
      CountWithout(ip, SERVER, ':');
    }
  }

  lemma CountAround(before: string, ip: string, rest: string)
    requires SERVER <= rest
    ensures Count(before + Block(ip) + rest, SERVER) == Count(before, SERVER) + Count(ip, SERVER) + Count(rest, SERVER)
  {
    var block := Block(ip);
    assert block[0] == 'c';
    SeamByNext(before, block + rest, SERVER);
    CountAppend(before, block + rest, SERVER);
    assert before + block + rest == before + (block + rest);
    CountBlock(ip, rest);
  }
}
