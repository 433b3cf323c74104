/**
 One pass of `syncExternalIPs` (talos-edge-router/internal/sniproxy/ipsync.go):
 the addresses written are the sorted union over all nodes, whatever the order
 nodes and addresses are listed in.
 */
module ExternalIPs {
  import opened Requests
  import opened Text

  // ---------------------------------------------------------------- sorted lists of strings

  predicate Less(a: string, b: string) {
    b != [] && (a == [] || a[0] < b[0] || (a[0] == b[0] && Less(a[1..], b[1..])))
  }

  /** The order of strings: at the first difference the smaller character, or the end, comes first. */
  lemma {:induction false} FirstDifferenceDecides(a: string, b: string, i: nat)
    requires i <= |a| && i <= |b| && a[..i] == b[..i] && (i == |a| || i == |b| || a[i] != b[i])
    ensures Less(a, b) <==> i < |b| && (i == |a| || a[i] < b[i])
  {
    if i > 0 {
      assert a[0] == a[..i][0] == b[..i][0] == b[0];
      assert a[1..][..i - 1] == a[..i][1..] == b[..i][1..] == b[1..][..i - 1];
      FirstDifferenceDecides(a[1..], b[1..], i - 1);
    }
  }

  lemma {:induction false} LessTrichotomy(a: string, b: string)
    ensures a == b || Less(a, b) || Less(b, a)
    ensures !(Less(a, b) && Less(b, a)) && !Less(a, a)
  {
    if a != [] && b != [] && a[0] == b[0] {
      LessTrichotomy(a[1..], b[1..]);
      assert a == [a[0]] + a[1..] && b == [b[0]] + b[1..];
    }
    if a != [] {
      LessIrreflexive(a);
    }
  }

  lemma {:induction false} LessIrreflexive(a: string)
    ensures !Less(a, a)
  {
    if a != [] {
      LessIrreflexive(a[1..]);
    }
  }

  lemma {:induction false} LessTransitive(a: string, b: string, c: string)
    requires Less(a, b) && Less(b, c)
    ensures Less(a, c)
  {
    if a != [] && a[0] == b[0] == c[0] {
      LessTransitive(a[1..], b[1..], c[1..]);
    }
  }

  predicate Sorted(s: seq<string>) {
    forall i :: 0 < i < |s| ==> !Less(s[i], s[i - 1])
  }

  predicate StrictlySorted(s: seq<string>) {
    forall i :: 0 < i < |s| ==> Less(s[i - 1], s[i])
  }

  lemma {:induction false} FirstIsLeast(s: seq<string>, x: string)
    requires StrictlySorted(s) && s != [] && x in s[1..]
    ensures Less(s[0], x)
  {
    if s[1] != x {
      var t := s[1..];
      assert forall i :: 0 < i < |t| ==> t[i] == s[i + 1] && t[i - 1] == s[i];
      FirstIsLeast(t, x);
      LessTransitive(s[0], s[1], x);
    }
  }

  /** A strictly sorted list is determined by the set of its elements. */
  lemma {:induction false} StrictlySortedUnique(s: seq<string>, t: seq<string>)
    requires StrictlySorted(s) && StrictlySorted(t)
    requires forall x :: x in s <==> x in t
    ensures s == t
  {
    if s != [] {
      assert s[0] in t;
    }
    if t != [] {
      assert t[0] in s;
    }
    if s != [] && t != [] {
      HeadsAgree(s, t);
      HeadNotInTail(s);
      HeadNotInTail(t);
      assert s == [s[0]] + s[1..] && t == [t[0]] + t[1..];
      forall x ensures x in s[1..] <==> x in t[1..] {
        assert x in s <==> x == s[0] || x in s[1..];
        assert x in t <==> x == t[0] || x in t[1..];
      }
      TailSorted(s);
      TailSorted(t);
      StrictlySortedUnique(s[1..], t[1..]);
    }
  }

  lemma TailSorted(s: seq<string>)
    requires StrictlySorted(s) && s != []
    ensures StrictlySorted(s[1..])
  {
  }

  lemma HeadsAgree(s: seq<string>, t: seq<string>)
    requires StrictlySorted(s) && StrictlySorted(t) && s != [] && t != []
    requires forall x :: x in s <==> x in t
    ensures s[0] == t[0]
  {
    assert s == [s[0]] + s[1..] && t == [t[0]] + t[1..];
    assert s[0] in s && t[0] in t;
    if s[0] in t[1..] {
      FirstIsLeast(t, s[0]);
    }
    if t[0] in s[1..] {
      FirstIsLeast(s, t[0]);
    }
    LessTrichotomy(s[0], t[0]);
  }

  lemma HeadNotInTail(s: seq<string>)
    requires StrictlySorted(s) && s != []
    ensures s[0] !in s[1..]
  {
    if s[0] in s[1..] {
      FirstIsLeast(s, s[0]);
      LessIrreflexive(s[0]);
    }
  }

  // ---------------------------------------------------------------- `sort.Strings`

  function Insert(x: string, s: seq<string>): seq<string> {
    if s == [] then [x] else if Less(s[0], x) then [s[0]] + Insert(x, s[1..]) else [x] + s
  }

  function Sort(s: seq<string>): seq<string> {
    if s == [] then [] else Insert(s[0], Sort(s[1..]))
  }

  lemma {:induction false} InsertFacts(x: string, s: seq<string>)
    ensures multiset(Insert(x, s)) == multiset(s) + multiset{x}
    ensures Sorted(s) ==> Sorted(Insert(x, s))
    ensures Insert(x, s)[0] == x || (s != [] && Insert(x, s)[0] == s[0])
  {
    if s == [] {
    } else if Less(s[0], x) {
      InsertFacts(x, s[1..]);
      assert s == [s[0]] + s[1..];
      if Sorted(s) {
        SortedTail(s);
        LessTrichotomy(s[0], x);
        PrependSorted(s[0], Insert(x, s[1..]));
      }
    } else if Sorted(s) {
      PrependSorted(x, s);
    }
  }

  lemma SortedTail(s: seq<string>)
    requires Sorted(s) && s != []
    ensures Sorted(s[1..])
  {
  }

  lemma PrependSorted(x: string, s: seq<string>)
    requires Sorted(s) && (s != [] ==> !Less(s[0], x))
    ensures Sorted([x] + s)
  {
  }

  lemma {:induction false} SortFacts(s: seq<string>)
    ensures multiset(Sort(s)) == multiset(s) && Sorted(Sort(s))
  {
    if s != [] {
      SortFacts(s[1..]);
      InsertFacts(s[0], Sort(s[1..]));
      assert s == [s[0]] + s[1..];
    }
  }

  predicate Distinct(s: seq<string>) {
    forall i, j :: 0 <= i < j < |s| ==> s[i] != s[j]
  }

  /** Sorting a list without duplicates gives the strictly sorted list of its elements. */
  lemma SortDistinct(s: seq<string>)
    requires Distinct(s)
    ensures StrictlySorted(Sort(s)) && forall x :: x in Sort(s) <==> x in s
  {
    SortFacts(s);
    var r := Sort(s);
    forall x ensures x in r <==> x in s {
      assert x in r <==> x in multiset(r);
      assert x in s <==> x in multiset(s);
    }
    forall i | 0 < i < |r| ensures Less(r[i - 1], r[i]) {
      LessTrichotomy(r[i - 1], r[i]);
      DistinctCount(s, r[i]);
      NeighboursCount(r, i);
    }
  }

  lemma NeighboursCount(r: seq<string>, i: int)
    requires 0 < i < |r|
    ensures r[i - 1] == r[i] ==> multiset(r)[r[i]] >= 2
  {
    assert r == r[..i - 1] + [r[i - 1], r[i]] + r[i + 1..];
  }

  lemma {:induction false} DistinctCount(s: seq<string>, x: string)
    requires Distinct(s)
    ensures multiset(s)[x] <= 1
  {
    if s != [] {
      assert s == [s[0]] + s[1..];
      DistinctCount(s[1..], x);
      if x == s[0] {
        assert x !in s[1..];
      }
    }
  }

  lemma {:induction false} SortFixed(s: seq<string>)
    requires StrictlySorted(s)
    ensures Sort(s) == s
  {
    if s != [] {
      TailSorted(s);
      SortFixed(s[1..]);
      if |s| > 1 {
        LessTrichotomy(s[0], s[1]);
      }
      assert s == [s[0]] + s[1..];
    }
  }

  // ---------------------------------------------------------------- what nodes contribute

  datatype AddressType = InternalIP | ExternalIP | Hostname | OtherType
  datatype Address = Address(kind: AddressType, address: string)
  datatype Node = Node(addresses: seq<Address>, extra: string)

  predicate IsSpace(c: char) {
    c in {'\t', '\n', '\U{000B}', '\U{000C}', '\r', ' ', '\U{0085}', '\U{00A0}', '\U{1680}', '\U{2028}', '\U{2029}',
        '\U{202F}', '\U{205F}', '\U{3000}'}
    || '\U{2000}' <= c <= '\U{200A}'
  }

  function TrimLeft(s: string): string {
    if s != [] && IsSpace(s[0]) then TrimLeft(s[1..]) else s
  }

  function TrimRight(s: string): string {
    if s != [] && IsSpace(s[|s| - 1]) then TrimRight(s[..|s| - 1]) else s
  }

  function TrimSpace(s: string): string {
    TrimRight(TrimLeft(s))
  }

  lemma Spaces()
    ensures forall c :: c in " \t\r\n" ==> IsSpace(c)
    ensures forall c :: '!' <= c <= '~' ==> !IsSpace(c)
  {
  }

  /** Trimming takes all white space off both ends and nothing else. */
  lemma TrimmedIs(s: string) returns (l: string, r: string)
    ensures s == l + TrimSpace(s) + r && (forall c :: c in l + r ==> IsSpace(c))
    ensures TrimSpace(s) != [] ==> !IsSpace(TrimSpace(s)[0]) && !IsSpace(TrimSpace(s)[|TrimSpace(s)| - 1])
  {
    l := TrimmedLeft(s);
    r := TrimmedRight(TrimLeft(s));
  }

  lemma {:induction false} TrimmedLeft(s: string) returns (l: string)
    ensures s == l + TrimLeft(s) && (forall c :: c in l ==> IsSpace(c))
    ensures TrimLeft(s) != [] ==> !IsSpace(TrimLeft(s)[0])
  {
    l := [];
    if s != [] && IsSpace(s[0]) {
      l := TrimmedLeft(s[1..]);
      l := [s[0]] + l;
    }
  }

  lemma {:induction false} TrimmedRight(s: string) returns (r: string)
    ensures s == TrimRight(s) + r && (forall c :: c in r ==> IsSpace(c))
    ensures TrimRight(s) != [] ==> TrimRight(s)[0] == s[0] && !IsSpace(TrimRight(s)[|TrimRight(s)| - 1])
  {
    r := [];
    if s != [] && IsSpace(s[|s| - 1]) {
      r := TrimmedRight(s[..|s| - 1]);
      r := r + [s[|s| - 1]];
    }
  }

  /** `strings.Split(s, ",")`. */
  function SplitComma(s: string): (r: seq<string>)
    ensures |r| > 0 && forall p :: p in r ==> ',' !in p
    decreases |s|
  {
    var parts := Cut(s, ',');
    if parts.None? then [s] else
      assert |parts.value.1| < |s|;
      [parts.value.0] + SplitComma(parts.value.1)
  }

  function JoinComma(parts: seq<string>): string
    requires |parts| > 0
  {
    if |parts| == 1 then parts[0] else parts[0] + [','] + JoinComma(parts[1..])
  }

  lemma {:induction false} SplitJoin(s: string)
    ensures JoinComma(SplitComma(s)) == s
    decreases |s|
  {
    var parts := Cut(s, ',');
    if parts.Some? {
      SplitJoin(parts.value.1);
      assert SplitComma(s)[1..] == SplitComma(parts.value.1);
    }
  }

  predicate Routable(a: Address) { a.kind == InternalIP || a.kind == ExternalIP }

  /** One of the node's internal and external addresses, or in its annotation. */
  ghost predicate Lists(n: Node, ip: string) {
    (exists a :: a in n.addresses && a.kind in {InternalIP, ExternalIP} && a.address == ip)
    || (ip != "" && exists p :: p in SplitComma(n.extra) && TrimSpace(p) == ip)
  }

  /** Some node has the address. */
  ghost predicate InUnion(nodes: seq<Node>, ip: string) {
    exists n :: n in nodes && Lists(n, ip)
  }

  /** The one list the pass may write for these nodes. */
  ghost predicate IsUnion(nodes: seq<Node>, ips: seq<string>) {
    StrictlySorted(ips) && forall ip :: ip in ips <==> InUnion(nodes, ip)
  }

  /** Node order, and how often a node is listed, make no difference. */
  lemma UnionUnique(nodes: seq<Node>, others: seq<Node>, ips: seq<string>, ips': seq<string>)
    requires forall n :: n in nodes <==> n in others
    requires IsUnion(nodes, ips) && IsUnion(others, ips')
    ensures ips == ips'
  {
    forall ip ensures ip in ips <==> ip in ips' {
      assert InUnion(nodes, ip) <==> InUnion(others, ip);
    }
    StrictlySortedUnique(ips, ips');
  }

  // ---------------------------------------------------------------- the pass

  /** A Go slice: nil and empty are different to `reflect.DeepEqual`. */
  datatype Slice = Nil | Make(items: seq<string>) {
    function Items(): seq<string> { if Nil? then [] else items }
  }

  datatype SyncResult = Unchanged | Patched | Skipped | ApiFailed

  class ServiceApi {
    const reliable: bool
    var loadBalancer: bool
    var externalIPs: seq<string>
    var patches: nat

    constructor (reliable: bool, loadBalancer: bool, externalIPs: seq<string>)
      ensures this.reliable == reliable && this.loadBalancer == loadBalancer && this.externalIPs == externalIPs
                && patches == 0
    {
      this.reliable, this.loadBalancer, this.externalIPs, patches := reliable, loadBalancer, externalIPs, 0;
    }

    /** Writes the sorted union unless it is there already; an empty union is always written. */
    method SyncExternalIPs(nodes: seq<Node>) returns (r: SyncResult, ghost union: seq<string>)
      modifies this`externalIPs, this`patches
      ensures IsUnion(nodes, union)
      ensures forall ip :: ip in union <==>
                exists n :: && n in nodes
                            && (|| Address(InternalIP, ip) in n.addresses || Address(ExternalIP, ip) in n.addresses
                                || (ip != "" && exists p :: p in SplitComma(n.extra) && TrimSpace(p) == ip))
      ensures loadBalancer ==> r in {Skipped, ApiFailed}
      ensures r in {Skipped, Unchanged} ==> externalIPs == old(externalIPs) && patches == old(patches)
      ensures r == Unchanged ==> union != [] && Sort(externalIPs) == union
      ensures r == Patched ==> externalIPs == union && patches == old(patches) + 1
      ensures r == Patched ==> union == [] || Sort(old(externalIPs)) != union
      ensures r == ApiFailed ==> !reliable && externalIPs in {old(externalIPs), union}
      ensures r == Skipped ==> loadBalancer
    {
      var ips := CollectIPs(nodes);
      union := Sort(ips.Items());
      SortedUnion(nodes, ips.Items());
      ListedRaw(nodes);
      var sorted := if ips.Nil? then Nil else Make(Sort(ips.items));
      var ok := Answered(reliable);
      if !ok {
        return ApiFailed, union;
      }
      if loadBalancer {
        return Skipped, union;
      }
      var current := Make(Sort(externalIPs));
      if current == sorted {
        return Unchanged, union;
      }
      ok := Answered(reliable);
      var carriedOut: bool := *;
      if ok || carriedOut {
        externalIPs, patches := sorted.Items(), patches + 1;
      }
      return if ok then Patched else ApiFailed, union;
    }

    lemma ListedRaw(nodes: seq<Node>)
      ensures forall ip :: InUnion(nodes, ip) <==>
                exists n :: && n in nodes
                            && (|| Address(InternalIP, ip) in n.addresses || Address(ExternalIP, ip) in n.addresses
                                || (ip != "" && exists p :: p in SplitComma(n.extra) && TrimSpace(p) == ip))
    {
      forall n: Node, ip
        ensures Lists(n, ip) <==>
                || Address(InternalIP, ip) in n.addresses || Address(ExternalIP, ip) in n.addresses
                || (ip != "" && exists p :: p in SplitComma(n.extra) && TrimSpace(p) == ip)
      {
      }
    }

    /** A second pass right after a first one writes nothing, except that an empty union is written again. */
    method SyncTwice(nodes: seq<Node>, again: seq<Node>) returns (first: SyncResult, second: SyncResult)
      requires reliable && !loadBalancer && forall n :: n in nodes <==> n in again
      modifies this`externalIPs, this`patches
      ensures first in {Unchanged, Patched}
      ensures second == if exists ip :: InUnion(nodes, ip) then Unchanged else Patched
    {
      ghost var u, u2;
      first, u := SyncExternalIPs(nodes);
      SortFixed(u);
      second, u2 := SyncExternalIPs(again);
      UnionUnique(nodes, again, u, u2);
      assert u != [] ==> InUnion(nodes, u[0]);
    }

    /** Gathers each address once, in the order nodes are listed; nil when there is none. */
    method CollectIPs(nodes: seq<Node>) returns (ips: Slice)
      ensures Distinct(ips.Items()) && (forall ip :: ip in ips.Items() <==> InUnion(nodes, ip))
      ensures ips.Nil? <==> ips.Items() == []
    {
      var list: seq<string> := [];
      for i := 0 to |nodes|
        invariant Distinct(list)
        invariant forall ip :: ip in list <==> InUnion(nodes[..i], ip)
      {
        assert nodes[..i + 1] == nodes[..i] + [nodes[i]];
        list := AddNode(nodes[i], list);
        assert forall ip :: InUnion(nodes[..i + 1], ip) <==> InUnion(nodes[..i], ip) || Lists(nodes[i], ip);
      }
      assert nodes[..|nodes|] == nodes;
      ips := if list == [] then Nil else Make(list);
    }

    /** Sorting what was gathered gives the one list to be written. */
    lemma SortedUnion(nodes: seq<Node>, list: seq<string>)
      requires Distinct(list) && forall ip :: ip in list <==> InUnion(nodes, ip)
      ensures IsUnion(nodes, Sort(list)) && (Sort(list) == [] <==> list == [])
    {
      SortDistinct(list);
      SortFacts(list);
      assert |multiset(Sort(list))| == |multiset(list)|;
    }

    static method AddNode(node: Node, ips: seq<string>) returns (r: seq<string>)
      requires Distinct(ips)
      ensures Distinct(r) && forall ip :: ip in r <==> ip in ips || Lists(node, ip)
    {
      r := ips;
      for j := 0 to |node.addresses|
        invariant Distinct(r)
        invariant forall ip :: ip in r <==>
                  ip in ips
                  || exists a :: a in node.addresses[..j] && Routable(a) && a.address == ip
      {
        assert node.addresses[..j + 1] == node.addresses[..j] + [node.addresses[j]];
        if Routable(node.addresses[j]) {
          r := AddOnce(r, node.addresses[j].address);
        }
      }
      assert node.addresses[..|node.addresses|] == node.addresses;
      if node.extra != "" {
        var parts := SplitComma(node.extra);
        ghost var before := r;
        for j := 0 to |parts|
          invariant Distinct(r)
          invariant forall ip :: ip in r <==>
                    ip in before
                    || (ip != "" && exists p :: p in parts[..j] && TrimSpace(p) == ip)
        {
          assert parts[..j + 1] == parts[..j] + [parts[j]];
          var ip := TrimSpace(parts[j]);
          if ip != "" {
            r := AddOnce(r, ip);
          }
        }
        assert parts[..|parts|] == parts;
      } else {
        assert SplitComma(node.extra) == [""] && TrimSpace("") == "";
      }
    }

    static method AddOnce(ips: seq<string>, ip: string) returns (r: seq<string>)
      requires Distinct(ips)
      ensures Distinct(r) && forall x :: x in r <==> x in ips || x == ip
    {
      r := if ip in ips then ips else ips + [ip];
    }
  }
}
