/**
 NodePort rules of a security group shared by many Services
 (loadbalancer-controller/internal/openstack/securitygroup.go). The group is
 compared with the wanted port x CIDR grid by rule key; ownership is a
 description prefix.
 */
module SecurityGroups {
  import opened Ids
  import opened Listeners
  import opened Requests
  import opened Tags

  datatype Rule = Rule(description: string, ingress: bool, portMin: nat, portMax: nat, proto: string, cidr: string,
                       v6: bool, remoteIsSelf: bool)
  {
    function Key(): RuleKey { RuleKey(portMin, proto, cidr) }
  }

  type Rules = map<nat, Rule>

  predicate Owned(r: Rule, o: Owner) {
    o.RulePrefix() <= r.description && r.ingress && r.portMin != 0 && r.portMin == r.portMax
  }

  function RuleFor(o: Owner, k: RuleKey): Rule {
    Rule(RuleDescription(o, k), true, k.port, k.port, k.proto, k.cidr, ':' in k.cidr, false)
  }

  function Baseline(v6: bool): Rule {
    Rule(if v6 then "cozystack-lb baseline: intra-SG IPv6" else "cozystack-lb baseline: intra-SG IPv4",
         true, 0, 0, "", "", v6, true)
  }

  /** The grid: every allocated NodePort and protocol from every allowed CIDR. */
  function Desired(ports: seq<ServicePort>, cidrs: seq<string>): set<RuleKey> {
    set p, c | p in ports && c in cidrs && p.nodePort != 0 :: RuleKey(p.nodePort, p.protocol.Lower(), c)
  }

  /** The same, key by key. */
  predicate InGrid(ports: seq<ServicePort>, cidrs: seq<string>, k: RuleKey) {
    && k.port != 0 && k.cidr in cidrs
    && exists p :: p in ports && p.nodePort == k.port && p.protocol.Lower() == k.proto
  }

  lemma GridKeyByKey(ports: seq<ServicePort>, cidrs: seq<string>)
    ensures forall k :: k in Desired(ports, cidrs) <==> InGrid(ports, cidrs, k)
  {
    forall k | InGrid(ports, cidrs, k) ensures k in Desired(ports, cidrs) {
      var p :| p in ports && p.nodePort == k.port && p.protocol.Lower() == k.proto;
      assert k == RuleKey(p.nodePort, p.protocol.Lower(), k.cidr);
    }
  }

  ghost predicate HasKey(rs: Rules, o: Owner, k: RuleKey) {
    exists i :: i in rs && Owned(rs[i], o) && rs[i].Key() == k
  }

  /** Two rules of the Service share a key. */
  ghost predicate Twice(rs: Rules, o: Owner, k: RuleKey) {
    exists i, j :: i in rs && j in rs && i != j && Owned(rs[i], o) && Owned(rs[j], o) && rs[i].Key() == k
        && rs[j].Key() == k
  }

  /**
   A state a run may pass through: rules of others are as they were, wanted
   rules that existed are still there, and every new rule is a wanted one.
   */
  ghost predicate Between(start: Rules, now: Rules, o: Owner, wanted: set<RuleKey>) {
    && (forall i :: i in start && (!Owned(start[i], o) || start[i].Key() in wanted) ==> i in now && now[i] == start[i])
    && (forall i :: i in now ==> (i in start && now[i] == start[i])
                                 || (now[i].Key() in wanted && now[i] == RuleFor(o, now[i].Key()) && Owned(now[i], o)))
  }

  ghost predicate AllBetween(start: Rules, states: seq<Rules>, from: nat, o: Owner, wanted: set<RuleKey>) {
    forall n :: from <= n < |states| ==> Between(start, states[n], o, wanted)
  }

  /** The Service's keys are those of the start and the added ones. */
  ghost predicate KeysAre(start: Rules, now: Rules, o: Owner, added: set<RuleKey>) {
    forall k :: HasKey(now, o, k) <==> HasKey(start, o, k) || k in added
  }

  ghost predicate NoNewTwins(start: Rules, now: Rules, o: Owner) {
    forall k :: Twice(now, o, k) ==> Twice(start, o, k)
  }

  ghost predicate Listed(start: Rules, o: Owner, existing: set<RuleKey>, wanted: set<RuleKey>) {
    forall k :: k in wanted && HasKey(start, o, k) ==> k in existing
  }

  /** Nothing was removed, and every new rule is a wanted one. */
  ghost predicate Grown(start: Rules, now: Rules, o: Owner, wanted: set<RuleKey>) {
    && (forall i :: i in start ==> i in now && now[i] == start[i])
    && (forall i :: i in now && i !in start ==>
          now[i].Key() in wanted && now[i] == RuleFor(o, now[i].Key()) && Owned(now[i], o))
  }

  function RuleIds(existing: map<RuleKey, nat>, keys: set<RuleKey>): set<nat> {
    set k | k in existing && k in keys :: existing[k]
  }

  lemma RuleForOwned(o: Owner, k: RuleKey)
    ensures RuleFor(o, k).Key() == k && o.RulePrefix() <= RuleFor(o, k).description
    ensures RuleFor(o, k).portMax == k.port && (RuleFor(o, k).v6 <==> ':' in k.cidr) && !RuleFor(o, k).remoteIsSelf
    ensures k.port != 0 ==> Owned(RuleFor(o, k), o)
  {
  }

  /** Rules of another Service and the baseline rules are never taken for one's own. */
  lemma OthersNotOwned(o: Owner, p: Owner, k: RuleKey, v6: bool)
    requires o.Wf() && p.Wf() && o != p
    ensures !Owned(RuleFor(p, k), o) && !Owned(Baseline(v6), o)
  {
    RulePrefixIsIdentity(o, p, k);
  }

  /** All rules but those of one Service are the same. */
  ghost predicate RulesAside(a: Rules, b: Rules, o: Owner) {
    && (forall i :: i in a && !Owned(a[i], o) ==> i in b && b[i] == a[i])
    && (forall i :: i in b && !Owned(b[i], o) ==> i in a && a[i] == b[i])
  }

  lemma BetweenIsAside(start: Rules, now: Rules, o: Owner, wanted: set<RuleKey>)
    requires Between(start, now, o, wanted)
    ensures RulesAside(start, now, o)
  {
  }

  lemma RulesAsideTrans(a: Rules, b: Rules, c: Rules, o: Owner)
    requires RulesAside(a, b, o) && RulesAside(b, c, o)
    ensures RulesAside(a, c, o)
  {
  }

  /** Whatever a run for one Service does, all other Services' rules and the baseline stay. */
  lemma SharedGroupIsSafe(start: Rules, now: Rules, o: Owner, p: Owner, wanted: set<RuleKey>, i: nat, k: RuleKey)
    requires o.Wf() && p.Wf() && o != p && Between(start, now, o, wanted)
    requires i in start && (start[i] == RuleFor(p, k) || start[i] == Baseline(false) || start[i] == Baseline(true))
    ensures i in now && now[i] == start[i]
  {
    OthersNotOwned(o, p, k, false);
    OthersNotOwned(o, p, k, true);
  }

  class SecurityGroup {
    const reliable: bool
    var rules: Rules
    ghost var calls: nat
    ghost var states: seq<Rules>

    constructor (reliable: bool, rules: Rules)
      ensures this.reliable == reliable && this.rules == rules && calls == 0 && states == []
    {
      this.reliable, this.rules, calls, states := reliable, rules, 0, [];
    }

    /** A request that fails may still have been carried out. */
    method Send(change: Rules) returns (ok: bool)
      modifies this
      ensures calls == old(calls) + 1 && states == old(states) + [rules]
      ensures rules == change || (!ok && rules == old(rules))
      ensures reliable ==> ok
    {
      ok := Answered(reliable);
      var carriedOut: bool := *;
      if ok || carriedOut {
        rules := change;
      }
      calls, states := calls + 1, states + [rules];
    }

    /** Owned rules by key; of several with one key, whichever is listed last. */
    method ListOwned(o: Owner) returns (ok: bool, existing: map<RuleKey, nat>)
      ensures reliable ==> ok
      ensures ok ==> forall k :: k in existing <==> HasKey(rules, o, k)
      ensures forall k :: k in existing ==>
                existing[k] in rules && Owned(rules[existing[k]], o) && rules[existing[k]].Key() == k
      ensures ok ==> forall k :: k in existing <==>
                exists i :: && i in rules && o.RulePrefix() <= rules[i].description && rules[i].ingress
                            && rules[i].portMin == rules[i].portMax == k.port != 0
                            && rules[i].proto == k.proto && rules[i].cidr == k.cidr
    {
      existing := map[];
      ok := Answered(reliable);
      if !ok {
        return;
      }
      var todo := rules.Keys;
      while todo != {}
        invariant todo <= rules.Keys
        invariant forall k :: k in existing ==>
                  existing[k] in rules && Owned(rules[existing[k]], o) && rules[existing[k]].Key() == k
        invariant forall i :: i in rules && i !in todo && Owned(rules[i], o) ==> rules[i].Key() in existing
        decreases todo
      {
        var i :| i in todo;
        todo := todo - {i};
        if o.RulePrefix() <= rules[i].description && rules[i].ingress && rules[i].portMin != 0
            && rules[i].portMin == rules[i].portMax {
          existing := existing[rules[i].Key() := i];
        }
      }
      forall k ensures HasKey(rules, o, k) <==>
                exists i :: && i in rules && o.RulePrefix() <= rules[i].description && rules[i].ingress
                            && rules[i].portMin == rules[i].portMax == k.port != 0
                            && rules[i].proto == k.proto && rules[i].cidr == k.cidr
      {
      }
    }

    /** Deletes the listed rules whose key is not wanted, in any order. */
    method DeleteStale(o: Owner, existing: map<RuleKey, nat>, wanted: set<RuleKey>) returns (ok: bool)
      requires forall k :: k in existing <==> HasKey(rules, o, k)
      requires forall k :: k in existing ==>
                existing[k] in rules && Owned(rules[existing[k]], o) && rules[existing[k]].Key() == k
      modifies this
      ensures reliable ==> ok
      ensures old(states) <= states && AllBetween(old(rules), states, |old(states)|, o, wanted)
      ensures Between(old(rules), rules, o, wanted)
      ensures forall i :: i in rules ==> i in old(rules) && rules[i] == old(rules)[i]
      ensures ok ==> forall k :: HasKey(rules, o, k) <==> (k in existing && k in wanted) || Twice(old(rules), o, k)
      ensures existing.Keys <= wanted ==> ok && rules == old(rules) && calls == old(calls)
    {
      ok := DeleteKeys(o, existing, wanted);
      if ok {
        AfterDeletes(old(rules), rules, o, existing, wanted, RuleIds(existing, existing.Keys - wanted));
      }
    }

    method DeleteKeys(o: Owner, existing: map<RuleKey, nat>, wanted: set<RuleKey>) returns (ok: bool)
      requires forall k :: k in existing ==>
                existing[k] in rules && Owned(rules[existing[k]], o) && rules[existing[k]].Key() == k
      modifies this
      ensures reliable ==> ok
      ensures old(states) <= states && AllBetween(old(rules), states, |old(states)|, o, wanted)
      ensures Between(old(rules), rules, o, wanted)
      ensures forall i :: i in rules ==> i in old(rules) && rules[i] == old(rules)[i]
      ensures ok ==> rules == old(rules) - RuleIds(existing, existing.Keys - wanted)
      ensures existing.Keys <= wanted ==> ok && rules == old(rules) && calls == old(calls)
    {
      var todo := existing.Keys - wanted;
      while todo != {}
        invariant todo <= existing.Keys - wanted
        invariant rules == old(rules) - RuleIds(existing, existing.Keys - wanted - todo)
        invariant old(states) <= states && AllBetween(old(rules), states, |old(states)|, o, wanted)
        invariant Between(old(rules), rules, o, wanted)
        invariant existing.Keys <= wanted ==> rules == old(rules) && calls == old(calls)
        decreases todo
      {
        var k :| k in todo;
        todo := todo - {k};
        ok := DeleteOne(o, existing, wanted, old(rules), todo, k, |old(states)|);
        if !ok {
          return;
        }
      }
      ok := true;
    }

    method DeleteOne(o: Owner, existing: map<RuleKey, nat>, wanted: set<RuleKey>, ghost start: Rules,
                     ghost todo: set<RuleKey>, k: RuleKey,
                     ghost from: nat) returns (ok: bool)
      requires forall l :: l in existing ==>
                existing[l] in start && Owned(start[existing[l]], o) && start[existing[l]].Key() == l
      requires k in existing && k !in wanted && k !in todo && from <= |states|
      requires rules == start - RuleIds(existing, existing.Keys - wanted - (todo + {k}))
      requires AllBetween(start, states, from, o, wanted)
      modifies this
      ensures states == old(states) + [rules] && AllBetween(start, states, from, o, wanted)
                && Between(start, rules, o, wanted)
      ensures ok ==> rules == start - RuleIds(existing, existing.Keys - wanted - todo)
      ensures forall i :: i in rules ==> i in start && rules[i] == start[i]
      ensures reliable ==> ok
    {
      OneMoreGone(start, o, existing, wanted, todo, k);
      ok := Send(rules - {existing[k]});
    }

    lemma OneMoreGone(start: Rules, o: Owner, existing: map<RuleKey, nat>, wanted: set<RuleKey>, todo: set<RuleKey>,
                      k: RuleKey)
      requires forall l :: l in existing ==>
                existing[l] in start && Owned(start[existing[l]], o) && start[existing[l]].Key() == l
      requires k in existing && k !in wanted && k !in todo
      ensures var before, after := start - RuleIds(existing, existing.Keys - wanted - (todo + {k})),
                start - RuleIds(existing, existing.Keys - wanted - todo);
              before - {existing[k]} == after && Between(start, before, o, wanted) && Between(start, after, o, wanted)
    {
    }

    lemma AfterDeletes(start: Rules, now: Rules, o: Owner, existing: map<RuleKey, nat>, wanted: set<RuleKey>,
                       gone: set<nat>)
      requires forall k :: k in existing <==> HasKey(start, o, k)
      requires forall k :: k in existing ==>
                existing[k] in start && Owned(start[existing[k]], o) && start[existing[k]].Key() == k
      requires gone == RuleIds(existing, existing.Keys - wanted) && now == start - gone
      ensures forall k :: HasKey(now, o, k) <==> (k in existing && k in wanted) || Twice(start, o, k)
    {
      forall k ensures HasKey(now, o, k) <==> (k in existing && k in wanted) || Twice(start, o, k) {
        if HasKey(now, o, k) {
          var i :| i in now && Owned(now[i], o) && now[i].Key() == k;
          assert HasKey(start, o, k);
          if k !in wanted {
            assert existing[k] in gone && i != existing[k];
          }
        }
        if k in existing && k in wanted {
          assert existing[k] in now;
        }
        if Twice(start, o, k) {
          var i, j :| i in start && j in start && i != j && Owned(start[i], o) && Owned(start[j], o)
              && start[i].Key() == k && start[j].Key() == k;
          assert forall g :: g in gone && start[g].Key() == k ==> g == existing[k];
          assert i in now || j in now;
        }
      }
    }

    /** Creates the wanted rules that were not listed, in any order. */
    method CreateMissing(o: Owner, existing: map<RuleKey, nat>, wanted: set<RuleKey>) returns (ok: bool)
      requires forall k :: k in wanted ==> k.port != 0
      modifies this
      ensures reliable ==> ok
      ensures old(states) <= states && forall n :: |old(states)| <= n < |states| ==>
                Grown(old(rules), states[n], o, wanted)
      ensures Grown(old(rules), rules, o, wanted)
      ensures ok ==> KeysAre(old(rules), rules, o, wanted - existing.Keys)
      ensures wanted <= existing.Keys ==> ok && rules == old(rules) && calls == old(calls)
      ensures Listed(old(rules), o, existing.Keys, wanted) ==> NoNewTwins(old(rules), rules, o)
    {
      var todo := wanted - existing.Keys;
      while todo != {}
        invariant todo <= wanted - existing.Keys
        invariant Grown(old(rules), rules, o, wanted) && KeysAre(old(rules), rules, o, wanted - existing.Keys - todo)
        invariant old(states) <= states && forall n :: |old(states)| <= n < |states| ==>
                  Grown(old(rules), states[n], o, wanted)
        invariant wanted <= existing.Keys ==> rules == old(rules) && calls == old(calls)
        invariant Listed(old(rules), o, existing.Keys, wanted) ==> NoNewTwins(old(rules), rules, o)
        decreases todo
      {
        var k :| k in todo;
        ghost var before := rules;
        ok := CreateOne(o, k);
        GrownOn(old(rules), before, rules, o, wanted, k);
        if Listed(old(rules), o, existing.Keys, wanted) {
          TwinsOn(old(rules), before, rules, o, wanted - existing.Keys - todo, k);
        }
        todo := todo - {k};
        if !ok {
          return;
        }
        assert wanted - existing.Keys - todo == (wanted - existing.Keys - (todo + {k})) + {k};
      }
      ok := true;
    }

    lemma GrownOn(start: Rules, mid: Rules, now: Rules, o: Owner, wanted: set<RuleKey>, k: RuleKey)
      requires Grown(start, mid, o, wanted) && Grown(mid, now, o, {k}) && k in wanted
      ensures Grown(start, now, o, wanted)
    {
    }

    lemma TwinsOn(start: Rules, mid: Rules, now: Rules, o: Owner, added: set<RuleKey>, k: RuleKey)
      requires KeysAre(start, mid, o, added) && NoNewTwins(start, mid, o) && k !in added && !HasKey(start, o, k)
      requires !HasKey(mid, o, k) ==> NoNewTwins(mid, now, o)
      ensures NoNewTwins(start, now, o)
    {
    }

    method CreateOne(o: Owner, k: RuleKey) returns (ok: bool)
      requires k.port != 0
      modifies this
      ensures reliable ==> ok
      ensures calls == old(calls) + 1 && states == old(states) + [rules]
      ensures Grown(old(rules), rules, o, {k})
      ensures ok ==> KeysAre(old(rules), rules, o, {k})
      ensures !HasKey(old(rules), o, k) ==> NoNewTwins(old(rules), rules, o)
    {
      ghost var free := FreshId(rules.Keys);
      assert free !in rules;
      var id: nat :| id !in rules;
      RuleForOwned(o, k);
      OneMore(rules, o, id, k);
      ok := Send(rules[id := RuleFor(o, k)]);
    }

    lemma OneMore(before: Rules, o: Owner, id: nat, k: RuleKey)
      requires id !in before && k.port != 0
      ensures var after := before[id := RuleFor(o, k)];
              && (forall l :: HasKey(after, o, l) <==> HasKey(before, o, l) || l == k)
              && (!HasKey(before, o, k) ==> forall l :: Twice(after, o, l) <==> Twice(before, o, l))
    {
      var after := before[id := RuleFor(o, k)];
      RuleForOwned(o, k);
      forall l ensures HasKey(after, o, l) <==> HasKey(before, o, l) || l == k {
        if l == k {
          assert after[id].Key() == k;
        }
        if i :| i in before && Owned(before[i], o) && before[i].Key() == l {
          assert after[i] == before[i];
        }
      }
      if !HasKey(before, o, k) {
        forall l ensures Twice(after, o, l) <==> Twice(before, o, l) {
          if Twice(before, o, l) {
            var i, j :| i in before && j in before && i != j && Owned(before[i], o) && Owned(before[j], o)
                && before[i].Key() == l && before[j].Key() == l;
            assert after[i] == before[i] && after[j] == before[j];
          }
        }
      }
    }

    /**
     Makes the Service's rule keys the wanted ones. On success a key outside
     the grid survives only where two rules of the Service shared it.
     */
    method EnsureNodePortRules(o: Owner, ports: seq<ServicePort>, cidrs: seq<string>) returns (ok: bool)
      modifies this
      ensures cidrs == [] ==> !ok && rules == old(rules) && calls == old(calls)
      ensures reliable && cidrs != [] ==> ok
      ensures old(states) <= states
      ensures forall n :: |old(states)| <= n < |states| ==> Between(old(rules), states[n], o, Desired(ports, cidrs))
      ensures Between(old(rules), rules, o, Desired(ports, cidrs))
      ensures ok ==> forall k :: HasKey(rules, o, k) <==> k in Desired(ports, cidrs) || Twice(old(rules), o, k)
      ensures ok ==> forall k :: HasKey(rules, o, k) <==> InGrid(ports, cidrs, k) || Twice(old(rules), o, k)
      ensures (forall k :: !Twice(old(rules), o, k)) ==> forall k :: !Twice(rules, o, k)
      ensures (forall k :: HasKey(old(rules), o, k) <==> k in Desired(ports, cidrs)) ==>
                rules == old(rules) && calls == old(calls)
      ensures forall i :: i in old(rules) && (i !in rules || rules[i] != old(rules)[i]) ==>
                var was := old(rules)[i];
                o.RulePrefix() <= was.description && was.ingress && was.portMin == was.portMax != 0
    {
      if cidrs == [] {
        return false;
      }
      var existing;
      ok, existing := ListOwned(o);
      if !ok {
        return;
      }
      var wanted := Desired(ports, cidrs);
      GridKeyByKey(ports, cidrs);
      ok := DeleteStale(o, existing, wanted);
      SubsetKeepsSingle(old(rules), rules, o);
      if !ok {
        return;
      }
      ghost var mid, midStates := rules, states;
      ok := CreateMissing(o, existing, wanted);
      forall n | |midStates| <= n < |states| ensures Between(old(rules), states[n], o, wanted) {
        ShrunkThenGrown(old(rules), mid, states[n], o, wanted);
      }
      ShrunkThenGrown(old(rules), mid, rules, o, wanted);
    }

    lemma ShrunkThenGrown(start: Rules, mid: Rules, now: Rules, o: Owner, wanted: set<RuleKey>)
      requires Between(start, mid, o, wanted) && Grown(mid, now, o, wanted)
      ensures Between(start, now, o, wanted)
    {
    }

    lemma SubsetKeepsSingle(a: Rules, b: Rules, o: Owner)
      requires forall i :: i in b ==> i in a && b[i] == a[i]
      ensures forall k :: Twice(b, o, k) ==> Twice(a, o, k)
    {
    }

    /** Removes the Service's rules; one of several with the same key, as listed. */
    method DeleteNodePortRules(o: Owner) returns (ok: bool)
      modifies this
      ensures reliable ==> ok
      ensures Between(old(rules), rules, o, {})
      ensures forall i :: i in rules ==> i in old(rules) && rules[i] == old(rules)[i]
      ensures ok ==> forall k :: HasKey(rules, o, k) <==> Twice(old(rules), o, k)
      ensures forall i :: i in old(rules) && (i !in rules || rules[i] != old(rules)[i]) ==>
                var was := old(rules)[i];
                o.RulePrefix() <= was.description && was.ingress && was.portMin == was.portMax != 0
    {
      var existing;
      ok, existing := ListOwned(o);
      if ok {
        ok := DeleteStale(o, existing, {});
      }
    }
  }
}
