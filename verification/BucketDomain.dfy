/** The pure rules of the bucket service: which cluster serves a region, what
    the bucket is called, and what a claim's state means for the request. */
module BucketDomain {
  import opened Options
  import opened Text

  datatype Request = Request(name: string, namespace: string, region: string, tenant: string)

  /** A ClusterProfile reduced to its name and labels. */
  datatype Profile = Profile(name: string, labels: map<string, string>)

  /** What the spoke reports about a claim; the empty claim does not exist yet. */
  datatype Claim = Claim(phase: string, host: string, port: string)

  datatype Phase = Pending | Ready | Unschedulable

  datatype Message = NoMessage | NoStorage(region: string) | MissingTenantLabel

  datatype Status = Status(region: string, phase: Phase, bucketName: string, endpoint: string, message: Message)

  const BOUND := "Bound"
  const NO_CLAIM := Claim("", "", "")

  function UnschedulableStatus(region: string): Status { Status(region, Unschedulable, "", "", NoStorage(region)) }

  function MissingTenantStatus(region: string): Status { Status(region, Unschedulable, "", "", MissingTenantLabel) }

  function Endpoint(c: Claim): string {
    if c.port == "" then "http://" + c.host else "http://" + c.host + ":" + c.port
  }

  method ReadyStatus(r: Request, c: Claim) returns (s: Status)
    ensures s == StatusOf(r, c)
  {
    s := Status(r.region, Pending, BucketName(r.tenant, r.name), "", NoMessage);
    if c.phase == BOUND && c.host != "" {
      s := s.(phase := Ready);
      s := s.(endpoint := Endpoint(c));
    }
  }

  function StatusOf(r: Request, c: Claim): Status {
    if c.phase == BOUND && c.host != ""
    then Status(r.region, Ready, BucketName(r.tenant, r.name), Endpoint(c), NoMessage)
    else Status(r.region, Pending, BucketName(r.tenant, r.name), "", NoMessage)
  }

  /** In plain terms: Ready needs a Bound claim and a host, and shows it. */
  lemma StatusOfMeans(r: Request, c: Claim)
    ensures var s := StatusOf(r, c);
            && s.region == r.region && s.bucketName == r.tenant + "-" + r.name && s.message == NoMessage
            && (c.phase == "Bound" && c.host != "" ==>
                  s.phase == Ready && s.endpoint == "http://" + c.host + if c.port == "" then "" else ":" + c.port)
            && (c.phase != "Bound" || c.host == "" ==> s.phase == Pending && s.endpoint == "")
  {
    assert "http://" + c.host + "" == "http://" + c.host;
    assert "http://" + c.host + (":" + c.port) == "http://" + c.host + ":" + c.port;
  }

  // ---------- Bucket names ----------

  function BucketName(tenant: string, name: string): string { tenant + "-" + name }

  predicate CheckBucketName(name: string) { 3 <= |name| <= 63 }

  /** S3's limits, on the name as it is put together. */
  lemma BucketNameMeans(tenant: string, name: string)
    ensures var b := BucketName(tenant, name);
            && |b| == |tenant| + 1 + |name| && b[..|tenant|] == tenant && b[|tenant|] == '-'
               && b[|tenant| + 1..] == name
            && (CheckBucketName(b) <==> 3 <= |tenant| + 1 + |name| <= 63)
  {
  }

  /** No tenant followed by a dash begins another tenant. */
  ghost predicate DashFree(tenants: iset<string>) {
    forall t, u :: t in tenants && u in tenants && t != u ==> !(t + "-" <= u)
  }

  ghost predicate InjectiveOver(tenants: iset<string>) {
    forall t, u, m, n :: t in tenants && u in tenants && BucketName(t, m) == BucketName(u, n) ==> t == u && m == n
  }

  /** Bucket names are unique across a set of tenants exactly when none of
      them, followed by a dash, begins another. */
  lemma BucketNamesUnique(tenants: iset<string>)
    ensures InjectiveOver(tenants) <==> DashFree(tenants)
  {
    if InjectiveOver(tenants) {
      forall t, u | t in tenants && u in tenants && t != u ensures !(t + "-" <= u) {
        if t + "-" <= u { SharedName(t, u, "x"); }
      }
    }
    if DashFree(tenants) {
      forall t, u, m, n | t in tenants && u in tenants && BucketName(t, m) == BucketName(u, n)
        ensures t == u && m == n
      {
        ShorterTenantBegins(t, m, u, n);
        ShorterTenantBegins(u, n, t, m);
        assert BucketName(t, m)[|t| + 1..] == m && BucketName(u, n)[|u| + 1..] == n;
      }
    }
  }

  /** Two tenants, one name: t's bucket (u minus t-)-n is u's bucket n. */
  lemma SharedName(t: string, u: string, n: string)
    requires t + "-" <= u
    ensures BucketName(t, u[|t| + 1..] + "-" + n) == BucketName(u, n)
  {
    assert u == t + "-" + u[|t| + 1..];
    assert BucketName(t, u[|t| + 1..] + "-" + n) == (t + "-" + u[|t| + 1..]) + "-" + n;
  }

  lemma ShorterTenantBegins(t: string, m: string, u: string, n: string)
    requires BucketName(t, m) == BucketName(u, n)
    ensures |t| < |u| ==> t + "-" <= u
    ensures |t| == |u| ==> t == u
  {
    var name := BucketName(t, m);
    assert name[..|t|] == t && name[..|u|] == u && name[|t|] == '-';
    assert |t| < |u| ==> name[..|t| + 1] == t + "-" && name[..|u|][..|t| + 1] == name[..|t| + 1];
  }

  /** The collision passes the length check: tenants acme and acme-eu share a bucket. */
  lemma BucketNamesCollide()
    ensures BucketName("acme", "eu-logs") == BucketName("acme-eu", "logs")
            && CheckBucketName(BucketName("acme", "eu-logs"))
  {
  }

  // ---------- Placement ----------

  /** The least string of a set, in Go's order. */
  predicate IsLeast(name: string, names: set<string>) {
    name in names && forall other :: other in names ==> other == name || Less(name, other)
  }

  lemma LeastUnique(a: string, b: string, names: set<string>)
    requires IsLeast(a, names) && IsLeast(b, names)
    ensures a == b
  {
    if Less(a, b) && Less(b, a) { LessTransitive(a, b, a); }
    LessIrreflexive(a);
  }

  lemma {:induction false} LeastExists(names: set<string>) returns (least: string)
    requires names != {}
    ensures IsLeast(least, names)
  {
    var x :| x in names;
    if names == {x} {
      least := x;
    } else {
      var rest := LeastExists(names - {x});
      LessTotal(x, rest);
      least := if Less(x, rest) then x else rest;
      forall other | other in names ensures other == least || Less(least, other) {
        if other != x && Less(x, rest) && other != rest { LessTransitive(x, rest, other); }
      }
    }
  }

  /** The label a missing key reads as. */
  function Label(p: Profile, key: string): string { if key in p.labels then p.labels[key] else "" }

  ghost function Serving(region: string, regionLabel: string, profiles: seq<Profile>): set<string> {
    set p | p in profiles && Label(p, regionLabel) == region :: p.name
  }

  /** What any run of ResolveCluster returns. */
  ghost predicate Resolves(region: string, regionLabel: string, profiles: seq<Profile>, result: Option<string>) {
    var names := Serving(region, regionLabel, profiles);
    if names == {} then result == None else result.Some? && IsLeast(result.value, names)
  }

  /** In plain terms: the result is the name of a profile whose label reads as
      the region, and against any other such name, at the first difference, it
      ends or has the smaller character. Without such a profile there is none. */
  lemma ResolvesMeans(region: string, regionLabel: string, profiles: seq<Profile>, result: Option<string>)
    requires Resolves(region, regionLabel, profiles, result)
    ensures result.None? <==>
            forall p :: p in profiles ==> (if regionLabel in p.labels then p.labels[regionLabel] else "") != region
    ensures result.Some? ==>
              exists p :: p in profiles && p.name == result.value &&
                          (if regionLabel in p.labels then p.labels[regionLabel] else "") == region
    ensures result.Some? ==>
              forall p :: p in profiles && (if regionLabel in p.labels then p.labels[regionLabel] else "") == region ==>
                var a, b := result.value, p.name;
                a == b || exists k :: 0 <= k <= |a| && k <= |b| && a[..k] == b[..k] &&
                                      ((k == |a| && k < |b|) || (k < |a| && k < |b| && a[k] < b[k]))
  {
    var names := Serving(region, regionLabel, profiles);
    forall p | p in profiles
      ensures (if regionLabel in p.labels then p.labels[regionLabel] else "") == region
              <==> Label(p, regionLabel) == region
    {
    }
    assert forall p :: p in profiles && Label(p, regionLabel) == region ==> p.name in names;
    if result.Some? {
      forall p | p in profiles && Label(p, regionLabel) == region
        ensures p.name == result.value || Less(result.value, p.name)
      {
        assert p.name in names;
      }
      forall p | p in profiles && (if regionLabel in p.labels then p.labels[regionLabel] else "") == region
        ensures var a, b := result.value, p.name;
                a == b || exists k :: 0 <= k <= |a| && k <= |b| && a[..k] == b[..k] &&
                                      ((k == |a| && k < |b|) || (k < |a| && k < |b| && a[k] < b[k]))
      {
        LessIs(result.value, p.name);
      }
    }
  }

  method ResolveCluster(region: string, regionLabel: string, profiles: seq<Profile>) returns (result: Option<string>)
    ensures Resolves(region, regionLabel, profiles, result)
    ensures result.None? <==>
            forall p :: p in profiles ==> (if regionLabel in p.labels then p.labels[regionLabel] else "") != region
    ensures result.Some? ==>
              exists p :: p in profiles && p.name == result.value &&
                          (if regionLabel in p.labels then p.labels[regionLabel] else "") == region
    ensures result.Some? ==>
              forall p :: p in profiles && (if regionLabel in p.labels then p.labels[regionLabel] else "") == region ==>
                var a, b := result.value, p.name;
                a == b || exists k :: 0 <= k <= |a| && k <= |b| && a[..k] == b[..k] &&
                                      ((k == |a| && k < |b|) || (k < |a| && k < |b| && a[k] < b[k]))
  {
    var names := [];
    for i := 0 to |profiles|
      invariant (set n | n in names) == Serving(region, regionLabel, profiles[..i])
    {
      ServingNext(region, regionLabel, profiles, i);
      if Label(profiles[i], regionLabel) == region { names := names + [profiles[i].name]; }
    }
    assert profiles[..|profiles|] == profiles;
    if |names| == 0 {
      ResolvesMeans(region, regionLabel, profiles, None);
      return None;
    }
    var sorted := SortStrings(names);
    FirstIsLeast(names, sorted);
    result := Some(sorted[0]);
    ResolvesMeans(region, regionLabel, profiles, result);
  }

  lemma FirstIsLeast(names: seq<string>, sorted: seq<string>)
    requires names != [] && multiset(sorted) == multiset(names) && |sorted| == |names|
    requires forall i, j :: 0 <= i < j < |sorted| ==> !Less(sorted[j], sorted[i])
    ensures IsLeast(sorted[0], set n | n in names)
  {
    assert sorted[0] in multiset(sorted);
    forall other | other in names ensures other == sorted[0] || Less(sorted[0], other) {
      assert other in multiset(names);
      var j :| 0 <= j < |sorted| && sorted[j] == other;
      LessTotal(sorted[0], other);
    }
  }

  lemma ServingNext(region: string, regionLabel: string, profiles: seq<Profile>, i: nat)
    requires i < |profiles|
    ensures var p := profiles[i];
            Serving(region, regionLabel, profiles[..i + 1])
            == Serving(region, regionLabel, profiles[..i]) + if Label(p, regionLabel) == region then {p.name} else {}
  {
    assert profiles[..i + 1] == profiles[..i] + [profiles[i]];
  }

  /** sort.Strings. */
  method SortStrings(names: seq<string>) returns (sorted: seq<string>)
    ensures multiset(sorted) == multiset(names) && |sorted| == |names|
    ensures forall i, j :: 0 <= i < j < |sorted| ==> !Less(sorted[j], sorted[i])
    ensures forall i, j :: 0 <= i < j < |sorted| ==> sorted[i] == sorted[j] || ComesFirst(sorted[i], sorted[j])
  {
    sorted := [];
    for i := 0 to |names|
      invariant multiset(sorted) == multiset(names[..i]) && |sorted| == i
      invariant forall a, b :: 0 <= a < b < |sorted| ==> !Less(sorted[b], sorted[a])
    {
      var k := 0;
      while k < |sorted| && !Less(names[i], sorted[k])
        invariant 0 <= k <= |sorted|
        invariant forall a :: 0 <= a < k ==> !Less(names[i], sorted[a])
      {
        k := k + 1;
      }
      InsertSorted(sorted, k, names[i]);
      assert sorted == sorted[..k] + sorted[k..];
      sorted := sorted[..k] + [names[i]] + sorted[k..];
      assert names[..i + 1] == names[..i] + [names[i]];
    }
    assert names[..|names|] == names;
    forall i, j | 0 <= i < j < |sorted| ensures sorted[i] == sorted[j] || ComesFirst(sorted[i], sorted[j]) {
      LessTotal(sorted[i], sorted[j]);
      LessIs(sorted[i], sorted[j]);
    }
  }

  lemma InsertSorted(s: seq<string>, k: nat, x: string)
    requires k <= |s| && forall a, b :: 0 <= a < b < |s| ==> !Less(s[b], s[a])
    requires forall a :: 0 <= a < k ==> !Less(x, s[a])
    requires k < |s| ==> Less(x, s[k])
    ensures var t := s[..k] + [x] + s[k..]; forall a, b :: 0 <= a < b < |t| ==> !Less(t[b], t[a])
  {
    forall a | k <= a < |s| ensures !Less(s[a], x) {
      if Less(s[a], x) {
        LessTransitive(s[a], x, s[k]);
        LessIrreflexive(s[a]);
      }
    }
  }

  /** A request that names a region goes to a profile carrying that label, the
      least such name, whatever the order and repetitions of the list. */
  lemma PlacementDetermined(region: string, regionLabel: string, p: seq<Profile>, q: seq<Profile>,
                            a: Option<string>, b: Option<string>)
    requires region != "" && (forall x :: x in p <==> x in q)
    requires Resolves(region, regionLabel, p, a) && Resolves(region, regionLabel, q, b)
    ensures a == b
    ensures a.Some? ==>
              exists x :: x in p && x.name == a.value && regionLabel in x.labels && x.labels[regionLabel] == region
    ensures a.None? ==> forall x :: x in p ==> regionLabel !in x.labels || x.labels[regionLabel] != region
    ensures a.Some? ==>
              forall x :: x in p && regionLabel in x.labels && x.labels[regionLabel] == region ==>
                a.value == x.name || ComesFirst(a.value, x.name)
  {
    if a.Some? {
      forall x | x in p && regionLabel in x.labels && x.labels[regionLabel] == region
        ensures a.value == x.name || ComesFirst(a.value, x.name)
      {
        assert x.name in Serving(region, regionLabel, p);
        LessIs(a.value, x.name);
      }
    }
    assert Serving(region, regionLabel, p) == Serving(region, regionLabel, q);
    if a.Some? {
      LeastUnique(a.value, b.value, Serving(region, regionLabel, p));
    } else {
      forall x | x in p ensures regionLabel !in x.labels || x.labels[regionLabel] != region {
        assert Label(x, regionLabel) == region ==> x.name in Serving(region, regionLabel, p);
      }
    }
  }

  /** Adding a larger name, or taking away a profile that was not chosen, moves nobody. */
  lemma PlacementStable(region: string, regionLabel: string, p: seq<Profile>, x: Profile,
                        a: Option<string>, b: Option<string>)
    requires Resolves(region, regionLabel, p, a) && Resolves(region, regionLabel, p + [x], b)
    ensures a.Some? && ComesFirst(a.value, x.name) ==> b == a
    ensures b.Some? && b.value != x.name ==> a == b
  {
    ServingNext(region, regionLabel, p + [x], |p|);
    assert (p + [x])[..|p|] == p && (p + [x])[..|p| + 1] == p + [x];
    var names, more := Serving(region, regionLabel, p), Serving(region, regionLabel, p + [x]);
    if a.Some? && ComesFirst(a.value, x.name) {
      LessIs(a.value, x.name);
      assert IsLeast(a.value, more);
      LeastUnique(a.value, b.value, more);
    }
    if b.Some? && b.value != x.name {
      assert IsLeast(b.value, names);
      LeastUnique(a.value, b.value, names);
    }
  }
}
