/**
 Security groups of worker ports
 (loadbalancer-controller/internal/openstack/portattach.go): the cluster group
 is attached first, then the project's default group is taken off.
 */
module WorkerPorts {
  import opened Requests
  import opened Text

  function WithGroup(groups: seq<string>, sg: string): seq<string> {
    if sg in groups then groups else groups + [sg]
  }

  function Without(groups: seq<string>, sg: string): (r: seq<string>)
    ensures forall g :: g in r <==> g in groups && g != sg
    ensures sg !in groups ==> r == groups
  {
    if groups == [] then []
    else if groups[0] == sg then Without(groups[1..], sg)
    else [groups[0]] + Without(groups[1..], sg)
  }

  lemma {:induction false} WithoutAppend(groups: seq<string>, g: string, sg: string)
    ensures Without(groups + [g], sg) == if g == sg then Without(groups, sg) else Without(groups, sg) + [g]
  {
    if groups == [] {
      assert groups + [g] == [g];
    } else {
      assert (groups + [g])[1..] == groups[1..] + [g];
      WithoutAppend(groups[1..], g, sg);
    }
  }

  /** Attach then detach: the original groups in order minus the default one, plus the cluster group. */
  lemma AttachDetach(groups: seq<string>, sg: string, def: string)
    requires sg != def
    ensures Without(WithGroup(groups, sg), def) ==
              if sg in groups then Without(groups, def) else Without(groups, def) + [sg]
  {
    WithoutAppend(groups, sg, def);
  }

  ghost predicate AttachedTo(start: map<nat, seq<string>>, now: map<nat, seq<string>>, ports: set<nat>, sg: string) {
    now.Keys == start.Keys && forall p :: p in now ==>
        now[p] == if p in ports then WithGroup(start[p], sg) else start[p]
  }

  lemma AttachDetachAll(start: map<nat, seq<string>>, now: map<nat, seq<string>>, sg: string, def: string,
                        ports: set<nat>)
    requires sg != def && now.Keys == start.Keys && forall p :: p in ports && p in start ==>
              now[p] == WithGroup(start[p], sg)
    ensures forall p :: p in ports && p in start ==>
              Without(now[p], def) == (if sg in start[p] then Without(start[p], def) else Without(start[p], def) + [sg])
              && sg in Without(now[p], def) && now[p] != []
  {
    forall p | p in ports && p in start
      ensures Without(now[p], def) == (if sg in start[p] then Without(start[p], def) else Without(start[p], def) + [sg])
    {
      AttachDetach(start[p], sg, def);
    }
  }

  /** Every port has its groups of the start, or the start's groups minus the default, and then not none. */
  ghost predicate Stripped(start: map<nat, seq<string>>, now: map<nat, seq<string>>, ports: set<nat>, def: string) {
    && now.Keys == start.Keys
    && forall p :: p in start && now[p] != start[p] ==> p in ports && now[p] == Without(start[p], def) && now[p] != []
  }

  /** What attaching and then detaching may have done to a port so far. */
  predicate Regrouped(before: seq<string>, after: seq<string>, sg: string, def: Option<string>) {
    || after == before || after == WithGroup(before, sg)
    || (def.Some? && after == Without(WithGroup(before, sg), def.value))
  }

  /** Ports that carry one of the addresses on the network. */
  function PortsOf(portOf: map<(string, string), nat>, ips: seq<string>, network: string): set<nat> {
    set ip | ip in ips && (network, ip) in portOf :: portOf[(network, ip)]
  }

  datatype DetachResult = Detached | ApiFailed | Refused(port: nat)

  class Neutron {
    const reliable: bool
    const portOf: map<(string, string), nat>
    const defaultSG: Option<string>
    var groups: map<nat, seq<string>>
    ghost var states: seq<map<nat, seq<string>>>

    ghost predicate Valid()
      reads this
    {
      forall a :: a in portOf ==> portOf[a] in groups
    }

    ghost function Found(ips: seq<string>, network: string): set<nat> {
      PortsOf(portOf, ips, network)
    }

    constructor (reliable: bool, portOf: map<(string, string), nat>, defaultSG: Option<string>,
                 groups: map<nat, seq<string>>)
      requires forall a :: a in portOf ==> portOf[a] in groups
      ensures Valid() && this.reliable == reliable && this.portOf == portOf && this.defaultSG == defaultSG
      ensures this.groups == groups && states == []
    {
      this.reliable, this.portOf, this.defaultSG, this.groups, states := reliable, portOf, defaultSG, groups, [];
    }

    method UpdatePort(port: nat, list: seq<string>) returns (ok: bool)
      requires port in groups
      modifies this
      ensures groups == old(groups)[port := list] || (!ok && groups == old(groups))
      ensures states == old(states) + [groups]
      ensures reliable ==> ok
    {
      ok := Answered(reliable);
      var carriedOut: bool := *;
      if ok || carriedOut {
        groups := groups[port := list];
      }
      states := states + [groups];
    }

    method HasSG(list: seq<string>, want: string) returns (has: bool)
      ensures has <==> want in list
    {
      for i := 0 to |list|
        invariant want !in list[..i]
      {
        if list[i] == want {
          return true;
        }
        assert list[..i + 1] == list[..i] + [list[i]];
      }
      assert list[..|list|] == list;
      return false;
    }

    /** Adds the group to every found port that lacks it; on failure some may still lack it. */
    method EnsureSGAttachedToWorkers(sg: string, ips: seq<string>, network: string) returns (ok: bool)
      requires Valid()
      modifies this
      ensures Valid() && groups.Keys == old(groups).Keys
      ensures forall p :: p in groups ==>
                groups[p] == old(groups)[p] || (p in Found(ips, network) && groups[p] == WithGroup(old(groups)[p], sg))
      ensures ok && sg != "" && network != "" ==> forall p :: p in Found(ips, network) ==>
                groups[p] == WithGroup(old(groups)[p], sg)
      ensures sg == "" || network == "" ==> ok && groups == old(groups)
      ensures reliable ==> ok
    {
      if sg == "" || network == "" || |ips| == 0 {
        return true;
      }
      for n := 0 to |ips|
        invariant AttachedTo(old(groups), groups, Found(ips[..n], network), sg)
      {
        FoundNext(ips, network, n);
        ghost var before := groups;
        ok := AttachOne(sg, ips[n], network);
        OneMoreAttached(old(groups), before, ips, network, n, sg);
        if !ok {
          return;
        }
      }
      assert ips[..|ips|] == ips;
      ok := true;
    }

    method AttachOne(sg: string, ip: string, network: string) returns (ok: bool)
      requires Valid()
      modifies this
      ensures Valid()
      ensures ok ==> groups == Attached(old(groups), sg, ip, network)
      ensures !ok ==> groups == old(groups) || groups == Attached(old(groups), sg, ip, network)
      ensures reliable ==> ok
    {
      ok := Answered(reliable);
      if ok && (network, ip) in portOf {
        var port := portOf[(network, ip)];
        var has := HasSG(groups[port], sg);
        if !has {
          ok := UpdatePort(port, groups[port] + [sg]);
        }
        assert has ==> groups == groups[port := WithGroup(groups[port], sg)];
      }
    }

    ghost function Attached(groups: map<nat, seq<string>>, sg: string, ip: string,
                            network: string): map<nat, seq<string>>
      requires forall a :: a in portOf ==> portOf[a] in groups
    {
      if (network, ip) in portOf then groups[portOf[(network, ip)] := WithGroup(groups[portOf[(network, ip)]], sg)]
          else groups
    }

    lemma OneMoreAttached(start: map<nat, seq<string>>, now: map<nat, seq<string>>, ips: seq<string>, network: string,
                          n: nat, sg: string)
      requires n < |ips| && forall a :: a in portOf ==> portOf[a] in now
      requires AttachedTo(start, now, Found(ips[..n], network), sg)
      ensures AttachedTo(start, Attached(now, sg, ips[n], network), Found(ips[..n + 1], network), sg)
    {
    }

    lemma FoundNext(ips: seq<string>, network: string, n: nat)
      requires n < |ips|
      ensures Found(ips[..n + 1], network) ==
              Found(ips[..n], network) + (if (network, ips[n]) in portOf then {portOf[(network, ips[n])]} else {})
      ensures Found(ips[..n + 1], network) <= Found(ips, network)
    {
    }

    /** Takes the default group off every found port, and refuses to leave a port with none. */
    method DetachDefaultSGFromWorkers(ips: seq<string>, network: string) returns (r: DetachResult)
      requires Valid()
      modifies this
      ensures Valid() && old(states) <= states
      ensures defaultSG.None? || network == "" ==> groups == old(groups) && states == old(states) && !r.Refused?
      ensures defaultSG.Some? ==> Stripped(old(groups), groups, Found(ips, network), defaultSG.value)
      ensures defaultSG.Some? ==> forall k :: |old(states)| <= k < |states| ==>
                Stripped(old(groups), states[k], Found(ips, network), defaultSG.value)
      ensures defaultSG.Some? && r == Detached && network != "" ==>
                forall p :: p in Found(ips, network) ==> groups[p] == Without(old(groups)[p], defaultSG.value)
      ensures r.Refused? ==> defaultSG.Some? && r.port in Found(ips, network) && defaultSG.value in old(groups)[r.port]
                             && Without(old(groups)[r.port], defaultSG.value) == []
      ensures reliable ==> r != ApiFailed
    {
      hide Without;
      if network == "" || |ips| == 0 {
        return Detached;
      }
      var ok := Answered(reliable);
      if !ok {
        return ApiFailed;
      }
      if defaultSG.None? {
        return Detached;
      }
      for n := 0 to |ips|
        invariant Stripped(old(groups), groups, Found(ips, network), defaultSG.value) && old(states) <= states
        invariant forall p :: p in Found(ips[..n], network) ==> groups[p] == Without(old(groups)[p], defaultSG.value)
        invariant forall k :: |old(states)| <= k < |states| ==>
                    Stripped(old(groups), states[k], Found(ips, network), defaultSG.value)
      {
        FoundNext(ips, network, n);
        ghost var before := groups;
        r := DetachOne(ips[n], network, defaultSG.value);
        OneMoreDetached(old(groups), before, groups, ips, network, n, defaultSG.value, r == Detached);
        if r != Detached {
          return;
        }
      }
      assert ips[..|ips|] == ips;
      return Detached;
    }

    lemma OneMoreDetached(start: map<nat, seq<string>>, before: map<nat, seq<string>>, now: map<nat, seq<string>>,
                          ips: seq<string>, network: string, n: nat, def: string, done: bool)
      requires n < |ips| && (forall a :: a in portOf ==> portOf[a] in start)
      requires Stripped(start, before, Found(ips, network), def)
      requires forall p :: p in Found(ips[..n], network) ==> before[p] == Without(start[p], def)
      requires now == before
               || ((network, ips[n]) in portOf && def in before[portOf[(network, ips[n])]]
                   && Without(before[portOf[(network, ips[n])]], def) != []
                   && now == before[portOf[(network, ips[n])] := Without(before[portOf[(network, ips[n])]], def)])
      requires done && (network, ips[n]) in portOf ==>
                 now[portOf[(network, ips[n])]] == Without(before[portOf[(network, ips[n])]], def)
      ensures Stripped(start, now, Found(ips, network), def)
      ensures done ==> forall p :: p in Found(ips[..n + 1], network) ==> now[p] == Without(start[p], def)
    {
      FoundNext(ips, network, n);
    }

    method DetachOne(ip: string, network: string, def: string) returns (r: DetachResult)
      requires Valid()
      modifies this
      ensures Valid() && (states == old(states) || states == old(states) + [groups])
      ensures groups == old(groups)
              || ((network, ip) in portOf && def in old(groups)[portOf[(network, ip)]]
                  && Without(old(groups)[portOf[(network, ip)]], def) != []
                  && groups == old(groups)[portOf[(network, ip)] := Without(old(groups)[portOf[(network, ip)]], def)])
      ensures r == Detached && (network, ip) in portOf ==>
                groups[portOf[(network, ip)]] == Without(old(groups)[portOf[(network, ip)]], def)
      ensures r.Refused? ==> (network, ip) in portOf && r.port == portOf[(network, ip)] && def in groups[r.port]
                             && Without(groups[r.port], def) == [] && groups == old(groups)
      ensures reliable ==> r != ApiFailed
    {
      var ok := Answered(reliable);
      if !ok {
        return ApiFailed;
      }
      if (network, ip) !in portOf {
        return Detached;
      }
      var port := portOf[(network, ip)];
      var has := HasSG(groups[port], def);
      if !has {
        return Detached;
      }
      var rest := Without(groups[port], def);
      if |rest| == 0 {
        return Refused(port);
      }
      ok := UpdatePort(port, rest);
      return if ok then Detached else ApiFailed;
    }

    /**
     The sequence the Service reconciler runs. Once attaching succeeded the
     refusal cannot happen and no found port is ever without a group.
     */
    method IsolateWorkers(sg: string, ips: seq<string>, network: string)
      returns (r: DetachResult, ghost attachedAt: nat)
      requires Valid() && sg != "" && network != "" && defaultSG != Some(sg)
      modifies this
      ensures Valid() && groups.Keys == old(groups).Keys && !r.Refused?
      ensures forall p :: p in groups && p !in Found(ips, network) ==> groups[p] == old(groups)[p]
      ensures forall p :: p in groups && groups[p] != old(groups)[p] ==>
                exists ip :: ip in ips && (network, ip) in portOf && portOf[(network, ip)] == p
      ensures forall p :: p in groups ==> Regrouped(old(groups)[p], groups[p], sg, defaultSG)
      ensures forall k, p :: attachedAt <= k < |states| && p in Found(ips, network) ==>
                p in states[k] && states[k][p] != []
      ensures r == Detached ==> forall p :: p in Found(ips, network) ==>
                groups[p] == (if defaultSG.None? then WithGroup(old(groups)[p], sg)
                              else if sg in old(groups)[p] then Without(old(groups)[p], defaultSG.value)
                              else Without(old(groups)[p], defaultSG.value) + [sg])
      ensures r == ApiFailed ==> attachedAt == |states| || forall p :: p in Found(ips, network) ==> groups[p] != []
      ensures reliable ==> r == Detached
    {
      var attached := EnsureSGAttachedToWorkers(sg, ips, network);
      attachedAt := |states|;
      if !attached {
        return ApiFailed, attachedAt;
      }
      if defaultSG.Some? {
        AttachDetachAll(old(groups), groups, sg, defaultSG.value, Found(ips, network));
      }
      r := DetachDefaultSGFromWorkers(ips, network);
    }
  }
}
