/**
 Names that tie OpenStack resources to Services (ServiceLBName in loadbalancer.go,
 the parsers in sweep.go, the rule descriptions in securitygroup.go, all under
 loadbalancer-controller/internal/openstack). Printers and parsers undo each
 other, and no Service's prefix matches another Service's tag.
 */
module Tags {
  import opened Text

  const MANAGED := "cozystack:"
  const CLUSTER_SG := "cozystack-lb-"

  /** The Service a resource belongs to: cluster, namespace and name. */
  datatype Owner = Owner(cluster: string, namespace: string, name: string) {
    predicate Wf() {
      && cluster != "" && '/' !in cluster
      && namespace != "" && '/' !in namespace
      && name != "" && ':' !in name
    }

    function Tag(): string { MANAGED + cluster + "/" + namespace + "/" + name }
    function CacheKey(): string { cluster + "/" + namespace + "/" + name }
    function RulePrefix(): string { Tag() + ":" }
  }

  function ClusterPrefix(cluster: string): string { MANAGED + cluster + "/" }
  function ClusterSGName(cluster: string): string { CLUSTER_SG + cluster }

  /** The cluster token: up to the first slash, which must not come first. */
  function ParseCluster(tag: string): Option<string> {
    if !(MANAGED <= tag) then None else
      var parts := Cut(tag[|MANAGED|..], '/');
      if parts.None? || parts.value.0 == "" then None else Some(parts.value.0)
  }

  /** Cut at the first two slashes; the third part keeps any further slash. */
  function ParseService(tag: string): Option<Owner> {
    if !(MANAGED <= tag) then None else
      var first := Cut(tag[|MANAGED|..], '/');
      if first.None? then None else
        var second := Cut(first.value.1, '/');
        if second.None? then None else
          var o := Owner(first.value.0, second.value.0, second.value.1);
          if o.cluster == "" || o.namespace == "" || o.name == "" || ':' in o.name then None else Some(o)
  }

  lemma TagShape(o: Owner)
    ensures MANAGED <= o.Tag()
    ensures o.Tag()[|MANAGED|..] == o.cluster + ['/'] + (o.namespace + ['/'] + o.name)
    ensures o.CacheKey() == o.cluster + ['/'] + (o.namespace + ['/'] + o.name)
  {
  }

  lemma PrintedParses(o: Owner)
    requires o.Wf()
    ensures ParseService(o.Tag()) == Some(o)
  {
    TagShape(o);
    CutAt(o.cluster, '/', o.namespace + ['/'] + o.name);
    CutAt(o.namespace, '/', o.name);
  }

  lemma ParsedPrints(tag: string)
    requires ParseService(tag).Some?
    ensures ParseService(tag).value.Wf() && tag == ParseService(tag).value.Tag()
  {
    var o, rest := ParseService(tag).value, tag[|MANAGED|..];
    TagShape(o);
    assert rest == o.cluster + ['/'] + (o.namespace + ['/'] + o.name);
    assert tag == MANAGED + rest && o.Tag() == MANAGED + o.Tag()[|MANAGED|..];
  }

  /** Parsing accepts exactly the printed tags of well-formed owners, and gives the owner back. */
  lemma ParseIffPrinted(tag: string, o: Owner)
    ensures ParseService(tag) == Some(o) <==> o.Wf() && tag == o.Tag()
  {
    if o.Wf() {
      PrintedParses(o);
    }
    if ParseService(tag).Some? {
      ParsedPrints(tag);
    }
  }

  lemma TagInjective(o: Owner, p: Owner)
    requires o.Wf() && p.Wf() && o.Tag() == p.Tag()
    ensures o == p
  {
    ParseIffPrinted(o.Tag(), o);
    ParseIffPrinted(p.Tag(), p);
  }

  /** The cache key of the sweep separates different Services. */
  lemma CacheKeyInjective(o: Owner, p: Owner)
    requires o.Wf() && p.Wf() && o.CacheKey() == p.CacheKey()
    ensures o == p
  {
    assert o.Tag() == MANAGED + o.CacheKey() && p.Tag() == MANAGED + p.CacheKey();
    TagInjective(o, p);
  }

  /** Both parsers name the same cluster. */
  lemma ParsersAgree(tag: string)
    requires ParseService(tag).Some?
    ensures ParseCluster(tag) == Some(ParseService(tag).value.cluster)
  {
  }

  /** The prefix of the cluster sweep selects exactly the tags of that cluster. */
  lemma ClusterPrefixIff(cluster: string, tag: string)
    requires cluster != "" && '/' !in cluster
    ensures ClusterPrefix(cluster) <= tag <==> ParseCluster(tag) == Some(cluster)
  {
    var prefix := MANAGED + (cluster + ['/']);
    assert ClusterPrefix(cluster) == prefix;
    if prefix <= tag {
      var after := tag[|prefix|..];
      assert tag == prefix + after;
      assert tag[|MANAGED|..] == cluster + ['/'] + after;
      assert tag[..|MANAGED|] == MANAGED;
      CutAt(cluster, '/', after);
    }
    if ParseCluster(tag) == Some(cluster) {
      var after := Cut(tag[|MANAGED|..], '/').value.1;
      assert tag == MANAGED + tag[|MANAGED|..];
      assert tag == prefix + after;
    }
  }

  // ---------------------------------------------------------------- rule descriptions

  datatype RuleKey = RuleKey(port: nat, proto: string, cidr: string) {
    function Text(): string { Decimal(port) + "/" + proto + ":" + cidr }
  }

  function RuleDescription(o: Owner, k: RuleKey): string {
    o.Tag() + ":" + k.Text()
  }

  /** The formats, spelled out. */
  lemma Formats(o: Owner, k: RuleKey)
    ensures o.Tag() == "cozystack:" + o.cluster + "/" + o.namespace + "/" + o.name
    ensures RuleDescription(o, k) == o.Tag() + ":" + Decimal(k.port) + "/" + k.proto + ":" + k.cidr
    ensures ClusterPrefix(o.cluster) == "cozystack:" + o.cluster + "/"
    ensures ClusterSGName(o.cluster) == "cozystack-lb-" + o.cluster
  {
    assert o.Tag() + ":" + k.Text() == o.Tag() + ":" + Decimal(k.port) + "/" + k.proto + ":" + k.cidr;
  }

  /** A Service's description prefix matches no other Service's rule. */
  lemma RulePrefixIsIdentity(o: Owner, p: Owner, k: RuleKey)
    requires o.Wf() && p.Wf()
    ensures o.RulePrefix() <= RuleDescription(p, k) <==> o == p
  {
    if o == p {
      assert RuleDescription(p, k) == o.RulePrefix() + k.Text();
    }
    if o.RulePrefix() <= RuleDescription(p, k) {
      PrefixFindsOwner(o, p, k);
    }
  }

  lemma PrefixFindsOwner(o: Owner, p: Owner, k: RuleKey)
    requires o.Wf() && p.Wf() && o.RulePrefix() <= RuleDescription(p, k)
    ensures o == p
  {
    var d := RuleDescription(p, k);
    var extra := d[|o.RulePrefix()|..];
    TagShape(o);
    TagShape(p);
    var mine, theirs := o.name + [':'] + extra, p.name + [':'] + k.Text();
    assert d[|MANAGED|..] == o.cluster + ['/'] + (o.namespace + ['/'] + mine);
    assert d[|MANAGED|..] == p.cluster + ['/'] + (p.namespace + ['/'] + theirs);
    CutUnique(o.cluster, o.namespace + ['/'] + mine, p.cluster, p.namespace + ['/'] + theirs, '/');
    CutUnique(o.namespace, mine, p.namespace, theirs, '/');
    CutUnique(o.name, extra, p.name, k.Text(), ':');
  }

  lemma CutBefore(a: string, b: string, c: char)
    requires c in a
    ensures Cut(a, c).Some? && Cut(a + b, c) == Some((Cut(a, c).value.0, Cut(a, c).value.1 + b))
  {
    var parts := Cut(a, c).value;
    assert a + b == parts.0 + [c] + (parts.1 + b);
    CutAt(parts.0, c, parts.1 + b);
  }

  /** No rule description passes for a Service tag, whatever the parts contain. */
  lemma RuleDescriptionRejected(o: Owner, k: RuleKey)
    ensures ParseService(RuleDescription(o, k)) == None
  {
    var rest := RuleDescription(o, k)[|MANAGED|..];
    var suffix := o.name + [':'] + k.Text();
    var head := o.cluster + ['/'] + (o.namespace + ['/']);
    assert rest == head + suffix;
    assert head[|o.cluster|] == '/';
    CutBefore(head, suffix, '/');
    var tail := Cut(head, '/').value.1;
    assert tail[|tail| - 1] == head[|head| - 1] == '/' by {
      TwoSlashes(o.cluster, o.namespace);
    }
    CutBefore(tail, suffix, '/');
    assert suffix[|o.name|] == ':';
  }

  lemma TwoSlashes(a: string, b: string)
    ensures var head := a + ['/'] + (b + ['/']);
            Cut(head, '/').Some? && |Cut(head, '/').value.1| > |b|
            && Cut(head, '/').value.1[|Cut(head, '/').value.1| - 1] == '/'
  {
    var head := a + ['/'] + (b + ['/']);
    assert head[|a|] == '/';
    var parts := Cut(head, '/').value;
    assert head == parts.0 + ['/'] + parts.1;
    assert |parts.0| <= |a| by {
      assert forall k :: 0 <= k < |parts.0| ==> head[k] == parts.0[k];
    }
    assert head[|head| - 1] == '/';
  }
}
