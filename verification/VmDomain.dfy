/** The pure rules of the VM service: names, desired state, the plan and the phase. */
module VmDomain {
  import opened Options
  import opened Text

  /** The part of a RegionalVmSetRequest that planning reads. */
  datatype Request = Request(name: string, namespace: string, region: string, tenant: string,
                             replicas: nat, cloudInitSecret: string)

  datatype Phase = Pending | Ready | Unschedulable

  datatype Message = NoMessage | NoVms(region: string) | MissingTenantLabel

  datatype Status = Status(region: string, phase: Phase, readyReplicas: nat, message: Message)

  datatype Plan = Plan(create: seq<string>, delete: seq<string>)

  function UnschedulableStatus(region: string): Status { Status(region, Unschedulable, 0, NoVms(region)) }

  function MissingTenantStatus(region: string): Status { Status(region, Unschedulable, 0, MissingTenantLabel) }

  // ---------- Names ----------

  function VMName(request: string, index: nat): string { request + "-" + Itoa(index) }

  function CutPrefix(s: string, prefix: string): Option<string> {
    if prefix <= s then Some(s[|prefix|..]) else None
  }

  function VmIndex(request: string, name: string): Option<int> {
    match CutPrefix(name, request + "-")
    case None => None
    case Some(suffix) => Atoi(suffix)
  }

  /** In plain terms: the request's name, a dash, and the decimal digits of the index without a leading zero. */
  lemma VMNameMeans(request: string, i: nat)
    ensures var name, n := VMName(request, i), |request|;
            && |name| > n + 1 && name[..n] == request && name[n] == '-'
            && (forall x :: n < x < |name| ==> '0' <= name[x] <= '9')
            && AllDigits(name[n + 1..]) && Value(name[n + 1..]) == i && (name[n + 1] == '0' ==> |name| == n + 2)
  {
    var name, n := VMName(request, i), |request|;
    ItoaIs(i);
    assert name[n + 1..] == Itoa(i);
    forall x | n < x < |name| ensures '0' <= name[x] <= '9' { assert name[x] == Itoa(i)[x - n - 1]; }
  }

  /** The index is what strconv.Atoi makes of everything behind the request's name and a dash. */
  lemma VmIndexMeans(request: string, name: string, v: int)
    ensures VmIndex(request, name) == Some(v) <==>
            exists suffix: string :: name == request + "-" + suffix && Atoi(suffix) == Some(v)
  {
    var prefix := request + "-";
    if prefix <= name {
      assert name == request + "-" + name[|prefix|..];
    }
    forall suffix: string | name == request + "-" + suffix ensures prefix <= name && name[|prefix|..] == suffix {
      assert name == prefix + suffix;
    }
  }

  /** A generated name parses back to its index, up to the largest int64. */
  lemma VmIndexOfVMName(request: string, i: nat)
    ensures VmIndex(request, VMName(request, i)) == (if i <= MAX_INT then Some(i) else None)
  {
    var name := VMName(request, i);
    assert name == (request + "-") + Itoa(i);
    assert name[|request + "-"|..] == Itoa(i);
    AtoiOfItoa(i);
  }

  /** No two (request, index) pairs share a VM name, whatever dashes and digits the requests hold. */
  lemma VMNameInjective(r1: string, i: nat, r2: string, j: nat)
    requires VMName(r1, i) == VMName(r2, j)
    ensures r1 == r2 && i == j
  {
    var name := VMName(r1, i);
    var d1, d2 := Itoa(i), Itoa(j);
    // The last dash separates the request from the index: digits hold none.
    assert name[|r1|] == name[|r2|] == '-';
    assert forall p :: |r1| < p < |name| ==> IsDigit(name[p]) by {
      assert forall p :: |r1| < p < |name| ==> name[p] == d1[p - |r1| - 1];
    }
    assert forall p :: |r2| < p < |name| ==> IsDigit(name[p]) by {
      assert forall p :: |r2| < p < |name| ==> name[p] == d2[p - |r2| - 1];
    }
    assert r1 == name[..|r1|] == r2;
    assert d1 == name[|r1| + 1..] == d2;
    ValueOfItoa(i);
    ValueOfItoa(j);
  }

  // ---------- Desired state ----------

  /** VMName(name, lo), ..., VMName(name, hi - 1). */
  function NameRange(request: string, lo: nat, hi: nat): (names: seq<string>)
    ensures |names| == if lo <= hi then hi - lo else 0
    ensures forall x :: 0 <= x < |names| ==> names[x] == VMName(request, lo + x)
  {
    if lo <= hi then seq(hi - lo, x requires 0 <= x => VMName(request, lo + x)) else []
  }

  function DesiredNames(r: Request): set<string> {
    set i | 0 <= i < r.replicas :: VMName(r.name, i)
  }

  method DesiredVMNames(r: Request) returns (names: seq<string>)
    ensures names == NameRange(r.name, 0, r.replicas)
  {
    names := [];
    for i := 0 to r.replicas
      invariant names == NameRange(r.name, 0, i)
    {
      names := names + [VMName(r.name, i)];
    }
  }

  function Elements(s: seq<string>): (e: set<string>)
    ensures forall x :: x in e <==> x in s
  {
    set x | x in s
  }

  predicate Distinct(s: seq<string>) { forall i, j :: 0 <= i < j < |s| ==> s[i] != s[j] }

  lemma DesiredNamesAre(r: Request)
    ensures Elements(NameRange(r.name, 0, r.replicas)) == DesiredNames(r)
    ensures Distinct(NameRange(r.name, 0, r.replicas))
    ensures |DesiredNames(r)| == r.replicas
  {
    var names := NameRange(r.name, 0, r.replicas);
    forall i, j | 0 <= i < j < |names| ensures names[i] != names[j] {
      if names[i] == names[j] { VMNameInjective(r.name, i, r.name, j); }
    }
    forall n | n in DesiredNames(r) ensures n in names {
      var i :| 0 <= i < r.replicas && n == VMName(r.name, i);
      assert names[i] == n;
    }
    forall n | n in names ensures n in DesiredNames(r) {
      var x :| 0 <= x < |names| && names[x] == n;
      assert n == VMName(r.name, x);
    }
    assert Elements(names) == DesiredNames(r);
    DistinctSize(names);
  }

  lemma {:induction false} DistinctSize(s: seq<string>)
    requires Distinct(s)
    ensures |Elements(s)| == |s|
  {
    if s != [] {
      var n := |s| - 1;
      DistinctSize(s[..n]);
      assert s == s[..n] + [s[n]];
      assert Elements(s) == Elements(s[..n]) + {s[n]};
      assert s[n] !in Elements(s[..n]);
    } else {
      assert Elements(s) == {};
    }
  }

  // ---------- The deletion order ----------

  /** The comparator PlanVMs passes to sort.Slice: parsed indices first and
      descending, then the names that do not parse, ascending. */
  predicate Before(request: string, a: string, b: string) {
    var i, j := VmIndex(request, a), VmIndex(request, b);
    if i.Some? && j.Some? then i.value > j.value
    else if i.Some? != j.Some? then i.Some?
    else Less(a, b)
  }

  predicate Tied(request: string, a: string, b: string) {
    !Before(request, a, b) && !Before(request, b, a)
  }

  /** Before is a strict weak order, and it ties two names exactly when they
      are equal or parse to one index (`vm-7`, `vm-07` and `vm-+7` do). */
  lemma BeforeIsStrictWeakOrder(request: string, a: string, b: string, c: string)
    ensures !Before(request, a, a)
    ensures Before(request, a, b) && Before(request, b, c) ==> Before(request, a, c)
    ensures Tied(request, a, b) && Tied(request, b, c) ==> Tied(request, a, c)
    ensures Tied(request, a, b) <==>
            a == b || (VmIndex(request, a).Some? && VmIndex(request, a) == VmIndex(request, b))
    ensures VmIndex(request, a).Some? && VmIndex(request, b).None? ==> Before(request, a, b)
    ensures VmIndex(request, a).Some? && VmIndex(request, b).Some? ==>
              (Before(request, a, b) <==> VmIndex(request, a).value > VmIndex(request, b).value)
    ensures VmIndex(request, a).None? && VmIndex(request, b).None? ==> (Before(request, a, b) <==> Less(a, b))
  {
    LessIrreflexive(a);
    LessTotal(a, b);
    LessTotal(b, c);
    if Less(a, b) && Less(b, c) { LessTransitive(a, b, c); }
    if Less(a, b) && Less(b, a) { LessTransitive(a, b, a); }
    if Less(c, b) && Less(b, a) { LessTransitive(c, b, a); }
    if Less(c, b) && Less(b, c) { LessTransitive(c, b, c); LessIrreflexive(c); }
  }

  /** Sorted in sort.Slice's sense: nothing stands after a name it should precede. */
  predicate SortedDeletes(request: string, s: seq<string>) {
    forall i, j :: 0 <= i < j < |s| ==> !Before(request, s[j], s[i])
  }

  /** Where insertion puts x into a sorted sequence. */
  function InsertDelete(request: string, s: seq<string>, x: string): seq<string> {
    if s == [] then [x]
    else if Before(request, x, s[0]) then [x] + s
    else [s[0]] + InsertDelete(request, s[1..], x)
  }

  lemma {:induction false} InsertDeleteSorts(request: string, s: seq<string>, x: string)
    requires SortedDeletes(request, s) && Distinct(s) && x !in s
    ensures var t := InsertDelete(request, s, x);
            SortedDeletes(request, t) && Distinct(t) && Elements(t) == Elements(s) + {x}
  {
    if s == [] {
      assert Elements([x]) == {x};
    } else if Before(request, x, s[0]) {
      forall y | y in s ensures y != x && !Before(request, y, x) {
        BeforeIsStrictWeakOrder(request, y, x, s[0]);
        HeadFirst(request, s, y);
      }
      ConsSorted(request, x, s);
    } else {
      var rest := InsertDelete(request, s[1..], x);
      InsertDeleteSorts(request, s[1..], x);
      forall y | y in rest ensures y != s[0] && !Before(request, y, s[0]) {
        assert y in Elements(rest);
        if y != x { AfterHead(request, s, y); }
      }
      ConsSorted(request, s[0], rest);
      assert Elements(s) == Elements(s[1..]) + {s[0]};
    }
  }

  lemma ConsSorted(request: string, x: string, rest: seq<string>)
    requires SortedDeletes(request, rest) && Distinct(rest)
    requires forall y :: y in rest ==> y != x && !Before(request, y, x)
    ensures var t := [x] + rest; SortedDeletes(request, t) && Distinct(t) && Elements(t) == Elements(rest) + {x}
  {
  }

  lemma HeadFirst(request: string, s: seq<string>, x: string)
    requires s != [] && SortedDeletes(request, s) && x in s
    ensures !Before(request, x, s[0])
  {
    var i :| 0 <= i < |s| && s[i] == x;
    BeforeIsStrictWeakOrder(request, x, x, x);
  }

  lemma AfterHead(request: string, s: seq<string>, x: string)
    requires s != [] && SortedDeletes(request, s) && Distinct(s) && x in s[1..]
    ensures x != s[0] && !Before(request, x, s[0])
  {
    var k :| 0 <= k < |s[1..]| && s[1..][k] == x;
    assert s[k + 1] == x;
  }

  // ---------- PlanVMs ----------

  /** What any run of PlanVMs returns for a set of existing names: the missing
      desired names in index order, and the surplus in deletion order. */
  predicate IsPlan(r: Request, existing: set<string>, p: Plan) {
    && p.create == Missing(NameRange(r.name, 0, r.replicas), existing)
    && Distinct(p.delete)
    && Elements(p.delete) == existing - DesiredNames(r)
    && SortedDeletes(r.name, p.delete)
  }

  function Missing(names: seq<string>, have: set<string>): seq<string> {
    if names == [] then []
    else
      var k := |names| - 1;
      Missing(names[..k], have) + if names[k] in have then [] else [names[k]]
  }

  lemma {:induction false} MissingAre(names: seq<string>, have: set<string>)
    requires Distinct(names)
    ensures var m := Missing(names, have);
            Distinct(m) && Elements(m) == Elements(names) - have
  {
    if names != [] {
      var k := |names| - 1;
      MissingAre(names[..k], have);
      var front := Missing(names[..k], have);
      assert Elements(names) == Elements(names[..k]) + {names[k]};
      assert names[k] !in Elements(names[..k]);
      forall x | 0 <= x < |front| ensures front[x] != names[k] {
        assert front[x] in Elements(front);
      }
    }
  }

  method ToSet(names: seq<string>) returns (s: set<string>)
    ensures s == Elements(names)
  {
    s := {};
    for i := 0 to |names|
      invariant s == Elements(names[..i])
    {
      s := s + {names[i]};
      assert names[..i + 1] == names[..i] + [names[i]];
    }
    assert names[..|names|] == names;
  }

  /** What the deletion order comes to. */
  lemma OrderOfDeletes(request: string, s: seq<string>)
    requires SortedDeletes(request, s) && Distinct(s)
    ensures forall x, y :: 0 <= x < y < |s| && VmIndex(request, s[y]).Some? ==>
              VmIndex(request, s[x]).Some? && VmIndex(request, s[x]).value >= VmIndex(request, s[y]).value
    ensures forall x, y :: 0 <= x < y < |s| && VmIndex(request, s[x]).None? && VmIndex(request, s[y]).None? ==>
              Less(s[x], s[y])
  {
    forall x, y | 0 <= x < y < |s| && VmIndex(request, s[x]).None? && VmIndex(request, s[y]).None?
      ensures Less(s[x], s[y])
    {
      LessTotal(s[x], s[y]);
    }
  }

  /** sort.Slice on the deletions; which sort it is does not matter to callers. */
  method SortDeletes(request: string, names: seq<string>) returns (sorted: seq<string>)
    requires Distinct(names)
    ensures SortedDeletes(request, sorted) && Distinct(sorted) && Elements(sorted) == Elements(names)
    ensures forall x, y :: 0 <= x < y < |sorted| && VmIndex(request, sorted[y]).Some? ==>
              && VmIndex(request, sorted[x]).Some?
              && VmIndex(request, sorted[x]).value >= VmIndex(request, sorted[y]).value
    ensures forall x, y :: 0 <= x < y < |sorted| && VmIndex(request, sorted[x]).None? &&
                           VmIndex(request, sorted[y]).None? ==>
              Less(sorted[x], sorted[y])
  {
    sorted := [];
    for i := 0 to |names|
      invariant SortedDeletes(request, sorted) && Distinct(sorted)
      invariant Elements(sorted) == Elements(names[..i])
    {
      assert names[i] !in Elements(names[..i]);
      InsertDeleteSorts(request, sorted, names[i]);
      sorted := InsertDelete(request, sorted, names[i]);
      assert names[..i + 1] == names[..i] + [names[i]];
    }
    assert names[..|names|] == names;
    OrderOfDeletes(request, sorted);
  }

  /** The order of every plan, in plain terms. To create: exactly the missing
      desired names, by rising index. To delete: exactly the surplus names, once
      each; a name without an index stands behind all that have one, higher
      indices stand first, and names without an index rise in Go's string order. */
  lemma PlanOrder(r: Request, existing: set<string>, p: Plan)
    requires IsPlan(r, existing, p)
    ensures forall i :: 0 <= i < r.replicas && VMName(r.name, i) !in existing ==> VMName(r.name, i) in p.create
    ensures forall name :: name in p.create ==>
              name !in existing && exists i :: 0 <= i < r.replicas && name == VMName(r.name, i)
    ensures forall x, y, i: nat, j: nat ::
              0 <= x < y < |p.create| && p.create[x] == VMName(r.name, i) && p.create[y] == VMName(r.name, j) ==> i < j
    ensures forall name :: name in p.delete <==>
              name in existing && forall i :: 0 <= i < r.replicas ==> name != VMName(r.name, i)
    ensures forall x, y :: 0 <= x < y < |p.delete| ==> p.delete[x] != p.delete[y]
    ensures forall x, y :: 0 <= x < y < |p.delete| && VmIndex(r.name, p.delete[y]).Some? ==>
              && VmIndex(r.name, p.delete[x]).Some?
              && VmIndex(r.name, p.delete[x]).value >= VmIndex(r.name, p.delete[y]).value
    ensures forall x, y ::
              0 <= x < y < |p.delete| && VmIndex(r.name, p.delete[x]).None? && VmIndex(r.name, p.delete[y]).None? ==>
              Less(p.delete[x], p.delete[y])
  {
    var names := NameRange(r.name, 0, r.replicas);
    DesiredNamesAre(r);
    MissingAre(names, existing);
    assert forall name :: name in p.create <==> name in Elements(p.create);
    assert forall name :: name in p.delete <==> name in Elements(p.delete);
    CreateRises(r.name, r.replicas, existing);
    assert Rises(r.name, r.replicas, p.create);
    OrderOfDeletes(r.name, p.delete);
  }

  lemma {:induction false} CreateRises(request: string, n: nat, have: set<string>)
    ensures Rises(request, n, Missing(NameRange(request, 0, n), have))
  {
    if n > 0 {
      var names := NameRange(request, 0, n);
      CreateRises(request, n - 1, have);
      assert names[..n - 1] == NameRange(request, 0, n - 1);
      if names[n - 1] !in have { RisesOn(request, n - 1, Missing(names[..n - 1], have)); }
    }
  }

  /** Names of indices below n, by rising index. */
  ghost predicate Rises(request: string, n: nat, m: seq<string>) {
    && (forall x :: 0 <= x < |m| ==> exists i :: 0 <= i < n && m[x] == VMName(request, i))
    && (forall x, y, i: nat, j: nat ::
          0 <= x < y < |m| && m[x] == VMName(request, i) && m[y] == VMName(request, j) ==> i < j)
  }

  lemma RisesOn(request: string, n: nat, m: seq<string>)
    requires Rises(request, n, m)
    ensures Rises(request, n + 1, m + [VMName(request, n)])
  {
    var t := m + [VMName(request, n)];
    forall x | 0 <= x < |t| ensures exists i :: 0 <= i < n + 1 && t[x] == VMName(request, i) {
      if x < |m| { assert t[x] == m[x]; } else { assert t[x] == VMName(request, n); }
    }
    forall x, y, i: nat, j: nat
      | 0 <= x < y < |t| && t[x] == VMName(request, i) && t[y] == VMName(request, j)
      ensures i < j
    {
      assert t[x] == m[x];
      if y == |m| {
        var h :| 0 <= h < n && m[x] == VMName(request, h);
        VMNameInjective(request, i, request, h);
        VMNameInjective(request, j, request, n);
      } else {
        assert t[y] == m[y];
      }
    }
  }

  method PlanVMs(r: Request, existing: seq<string>) returns (plan: Plan)
    ensures IsPlan(r, Elements(existing), plan)
    ensures forall x, y :: 0 <= x < y < |plan.delete| && VmIndex(r.name, plan.delete[y]).Some? ==>
              && VmIndex(r.name, plan.delete[x]).Some?
              && VmIndex(r.name, plan.delete[x]).value >= VmIndex(r.name, plan.delete[y]).value
    ensures forall x, y :: 0 <= x < y < |plan.delete| && VmIndex(r.name, plan.delete[x]).None? &&
                           VmIndex(r.name, plan.delete[y]).None? ==>
              Less(plan.delete[x], plan.delete[y])
  {
    var have := ToSet(existing);
    var desired := DesiredVMNames(r);
    var want := ToSet(desired);
    DesiredNamesAre(r);

    var create := [];
    for i := 0 to |desired|
      invariant create == Missing(desired[..i], have)
    {
      if desired[i] !in have { create := create + [desired[i]]; }
      assert desired[..i + 1][..i] == desired[..i];
    }
    assert desired[..|desired|] == desired;

    var surplus := Surplus(have, want);
    var delete := SortDeletes(r.name, surplus);
    plan := Plan(create, delete);
    PlanOrder(r, Elements(existing), plan);
  }

  /** PlanVMs' second loop. */
  method Surplus(have: set<string>, want: set<string>) returns (surplus: seq<string>)
    ensures Distinct(surplus) && Elements(surplus) == have - want
  {
    surplus := [];
    var rest := have;
    while rest != {}
      invariant rest <= have && Distinct(surplus)
      invariant Elements(surplus) == have - rest - want
    {
      // Go ranges over a map: the order is arbitrary.
      var name :| name in rest;
      rest := rest - {name};
      if name !in want {
        assert name !in Elements(surplus);
        surplus := surplus + [name];
      }
    }
  }

  /** The plan's effect, whatever the order: creating and deleting leaves exactly the desired names. */
  lemma PlanConverges(r: Request, existing: set<string>, p: Plan)
    requires IsPlan(r, existing, p)
    ensures Distinct(p.create) && Distinct(p.delete)
    ensures Elements(p.create) == DesiredNames(r) - existing
    ensures existing + Elements(p.create) - Elements(p.delete) == DesiredNames(r)
    ensures p == Plan([], []) <==> existing == DesiredNames(r)
  {
    var names := NameRange(r.name, 0, r.replicas);
    DesiredNamesAre(r);
    MissingAre(names, existing);
    if existing == DesiredNames(r) {
      DistinctSize(p.create);
      DistinctSize(p.delete);
      assert Elements(p.create) == {} && Elements(p.delete) == {};
    }
    if p == Plan([], []) {
      assert Elements(p.create) == {} && Elements(p.delete) == {};
    }
  }

  /** No two surplus names parse to the same index. */
  ghost predicate Unambiguous(r: Request, existing: set<string>) {
    forall a, b :: a in existing - DesiredNames(r) && b in existing - DesiredNames(r) && a != b
      ==> !Tied(r.name, a, b)
  }

  /** Without ties the plan is a function of the set of existing names. */
  lemma PlanDetermined(r: Request, existing: set<string>, p: Plan, q: Plan)
    requires IsPlan(r, existing, p) && IsPlan(r, existing, q) && Unambiguous(r, existing)
    ensures p == q
  {
    SortedUnique(r.name, p.delete, q.delete);
  }

  lemma {:induction false} SortedUnique(request: string, s: seq<string>, t: seq<string>)
    requires Distinct(s) && Distinct(t) && Elements(s) == Elements(t)
    requires SortedDeletes(request, s) && SortedDeletes(request, t)
    requires forall a, b :: a in Elements(s) && b in Elements(s) && a != b ==> !Tied(request, a, b)
    ensures s == t
  {
    DistinctSize(s);
    DistinctSize(t);
    if s != [] {
      SameHead(request, s, t);
      TailElements(s);
      TailElements(t);
      SortedUnique(request, s[1..], t[1..]);
      assert s == [s[0]] + s[1..] && t == [t[0]] + t[1..];
    }
  }

  lemma SameHead(request: string, s: seq<string>, t: seq<string>)
    requires s != [] && t != [] && Elements(s) == Elements(t)
    requires SortedDeletes(request, s) && SortedDeletes(request, t)
    requires forall a, b :: a in Elements(s) && b in Elements(s) && a != b ==> !Tied(request, a, b)
    ensures s[0] == t[0]
  {
    assert s[0] in Elements(t) && t[0] in Elements(s);
    HeadFirst(request, s, t[0]);
    HeadFirst(request, t, s[0]);
  }

  lemma TailElements(s: seq<string>)
    requires s != [] && Distinct(s)
    ensures Distinct(s[1..]) && Elements(s[1..]) == Elements(s) - {s[0]}
  {
    assert s == [s[0]] + s[1..];
    assert s[0] !in s[1..];
  }

  /** With a tie there are two plans, so the order Go's sort picks is not determined.
      With PlanDetermined: the plan is unique exactly when Unambiguous holds. */
  lemma PlanUndetermined(r: Request, existing: set<string>) returns (p: Plan, q: Plan)
    requires !Unambiguous(r, existing)
    ensures IsPlan(r, existing, p) && IsPlan(r, existing, q) && p != q
  {
    p := SomePlan(r, existing);
    var a, b :| a in existing - DesiredNames(r) && b in existing - DesiredNames(r) && a != b && Tied(r.name, a, b);
    assert a in Elements(p.delete) && b in Elements(p.delete);
    var t := OtherOrder(r.name, p.delete, a, b);
    q := p.(delete := t);
    assert Elements(t) == Elements(p.delete);
  }

  lemma OtherOrder(request: string, s: seq<string>, a: string, b: string) returns (t: seq<string>)
    requires SortedDeletes(request, s) && Distinct(s) && a in s && b in s && a != b && Tied(request, a, b)
    ensures SortedDeletes(request, t) && Distinct(t) && t != s && forall x :: x in t <==> x in s
  {
    var i :| 0 <= i < |s| && s[i] == a;
    var j :| 0 <= j < |s| && s[j] == b;
    var lo, hi := if i < j then i else j, if i < j then j else i;
    NeighboursTied(request, s, lo, hi);
    var less := (x, y) => Before(request, x, y);
    t := SwapNeighbours(less, s, lo);
    assert forall x, y :: Before(request, x, y) == less(x, y);
  }

  /** Everything between two tied names of a sorted sequence is tied with them. */
  lemma NeighboursTied(request: string, s: seq<string>, lo: nat, hi: nat)
    requires lo < hi < |s| && SortedDeletes(request, s) && Tied(request, s[lo], s[hi])
    ensures Tied(request, s[lo], s[lo + 1])
  {
    var x, y, z := s[lo], s[lo + 1], s[hi];
    assert !Before(request, y, x) && (lo + 1 == hi || !Before(request, z, y));
    BeforeIsStrictWeakOrder(request, x, y, z);
    BeforeIsStrictWeakOrder(request, z, x, y);
    BeforeIsStrictWeakOrder(request, x, z, y);
  }

  lemma SwapNeighbours(less: (string, string) -> bool, s: seq<string>, lo: nat) returns (t: seq<string>)
    requires lo + 1 < |s| && Distinct(s) && !less(s[lo], s[lo + 1])
    requires forall i, j :: 0 <= i < j < |s| ==> !less(s[j], s[i])
    ensures t != s && Distinct(t) && forall x :: x in t <==> x in s
    ensures forall i, j :: 0 <= i < j < |t| ==> !less(t[j], t[i])
  {
    t := s[lo := s[lo + 1]][lo + 1 := s[lo]];
    assert t[lo] != s[lo];
    forall i, j | 0 <= i < j < |t| ensures t[i] != t[j] && !less(t[j], t[i]) {
      assert t[i] == s[Swapped(lo, i)] && t[j] == s[Swapped(lo, j)];
    }
    assert t[lo] == s[lo + 1] && t[lo + 1] == s[lo];
    assert forall k :: 0 <= k < |s| && k != lo && k != lo + 1 ==> t[k] == s[k];
  }

  function Swapped(lo: nat, k: nat): nat { if k == lo then lo + 1 else if k == lo + 1 then lo else k }

  lemma SomePlan(r: Request, existing: set<string>) returns (p: Plan)
    ensures IsPlan(r, existing, p)
  {
    var delete := SomeOrder(r.name, existing - DesiredNames(r));
    p := Plan(Missing(NameRange(r.name, 0, r.replicas), existing), delete);
  }

  lemma {:induction false} SomeOrder(request: string, names: set<string>) returns (s: seq<string>)
    ensures SortedDeletes(request, s) && Distinct(s) && Elements(s) == names
  {
    if names == {} {
      s := [];
    } else {
      var x :| x in names;
      var t := SomeOrder(request, names - {x});
      InsertDeleteSorts(request, t, x);
      s := InsertDelete(request, t, x);
    }
  }

  /** Names that strconv.Atoi cannot tell apart. */
  lemma LeadingZeroTies()
    ensures VmIndex("vm", "vm-7") == VmIndex("vm", "vm-07") == VmIndex("vm", "vm-+7") == Some(7)
    ensures Tied("vm", "vm-7", "vm-07") && "vm-7" != "vm-07"
  {
    assert "vm-7"[3..] == "7" && "vm-07"[3..] == "07" && "vm-+7"[3..] == "+7" && "vm" + "-" == "vm-";
    assert "+7"[1..] == "7" && "07"[..1] == "0" && "7"[..0] == "" && "0"[..0] == "";
    assert Value("0") == 0 && Value("7") == 7;
    assert Value("07") == 7;
  }

  // ---------- Scaling down to nothing in between ----------

  /** When the owned VMs are exactly indices 0..k-1, the plan only adds indices
      k, k+1, ... upwards or only removes k-1, k-2, ... downwards. */
  lemma PlanOfContiguous(r: Request, k: nat, p: Plan)
    requires k <= MAX_INT + 1
    requires IsPlan(r, DesiredNames(r.(replicas := k)), p)
    ensures p.create == NameRange(r.name, k, r.replicas)
    ensures |p.delete| == if r.replicas < k then k - r.replicas else 0
    ensures forall x :: 0 <= x < |p.delete| ==> p.delete[x] == VMName(r.name, k - 1 - x)
  {
    var have := DesiredNames(r.(replicas := k));
    MissingAfter(r, k, r.replicas);
    var n := if r.replicas < k then k - r.replicas else 0;
    var down := Downwards(r.name, k, n);
    DownwardsAre(r, k);
    DownwardsOrder(r, k, n);
    SortedUnique(r.name, p.delete, down);
  }

  /** VMName(request, k - 1), VMName(request, k - 2), ..., n names in all. */
  function Downwards(request: string, k: nat, n: nat): (names: seq<string>)
    requires n <= k
    ensures |names| == n && forall x :: 0 <= x < n ==> names[x] == VMName(request, k - 1 - x)
  {
    seq(n, x requires 0 <= x < n => VMName(request, k - 1 - x))
  }

  lemma DownwardsAre(r: Request, k: nat)
    ensures var n := if r.replicas < k then k - r.replicas else 0;
            Elements(Downwards(r.name, k, n)) == DesiredNames(r.(replicas := k)) - DesiredNames(r)
  {
    var have := DesiredNames(r.(replicas := k));
    var n := if r.replicas < k then k - r.replicas else 0;
    var down := Downwards(r.name, k, n);
    forall name | name in have - DesiredNames(r) ensures name in down {
      var i :| 0 <= i < k && name == VMName(r.name, i);
      assert down[k - 1 - i] == name;
    }
    forall name | name in down ensures name in have - DesiredNames(r) {
      var x :| 0 <= x < n && down[x] == name;
      forall i | 0 <= i < r.replicas ensures name != VMName(r.name, i) {
        if name == VMName(r.name, i) { VMNameInjective(r.name, i, r.name, k - 1 - x); }
      }
    }
  }

  lemma DownwardsOrder(r: Request, k: nat, n: nat)
    requires n <= k <= MAX_INT + 1
    ensures var down := Downwards(r.name, k, n);
            && Distinct(down) && SortedDeletes(r.name, down)
            && forall a, b :: a in Elements(down) && b in Elements(down) && a != b ==> !Tied(r.name, a, b)
  {
    var down := Downwards(r.name, k, n);
    forall x | 0 <= x < n ensures VmIndex(r.name, down[x]) == Some(k - 1 - x) {
      VmIndexOfVMName(r.name, k - 1 - x);
    }
  }

  lemma {:induction false} MissingAfter(r: Request, k: nat, m: nat)
    ensures Missing(NameRange(r.name, 0, m), DesiredNames(r.(replicas := k))) == NameRange(r.name, k, m)
  {
    if m > 0 {
      var names, have := NameRange(r.name, 0, m), DesiredNames(r.(replicas := k));
      MissingAfter(r, k, m - 1);
      assert names[..m - 1] == NameRange(r.name, 0, m - 1);
      if m - 1 < k {
        assert names[m - 1] in have;
      } else {
        if names[m - 1] in have {
          var i :| 0 <= i < k && names[m - 1] == VMName(r.name, i);
          VMNameInjective(r.name, i, r.name, m - 1);
        }
        assert NameRange(r.name, k, m) == NameRange(r.name, k, m - 1) + [names[m - 1]];
      }
    }
  }

  // ---------- ReadyStatus ----------

  /** The status a request deserves when exactly these of its VMs are ready. */
  function StatusOf(r: Request, ready: set<string>): Status {
    var n := |DesiredNames(r) * ready|;
    Status(r.region, if n == r.replicas then Ready else Pending, n, NoMessage)
  }

  method ReadyStatus(r: Request, readyNames: seq<string>) returns (s: Status)
    ensures s == StatusOf(r, Elements(readyNames))
  {
    var ready := ToSet(readyNames);
    var desired := DesiredVMNames(r);
    DesiredNamesAre(r);
    var count := 0;
    for i := 0 to |desired|
      invariant count == |Elements(desired[..i]) * ready|
    {
      CountNext(desired, i, ready);
      if desired[i] in ready {
        count := count + 1;
      }
    }
    assert desired[..|desired|] == desired;
    var phase := Pending;
    if count == r.replicas { phase := Ready; }
    s := Status(r.region, phase, count, NoMessage);
  }

  lemma CountNext(names: seq<string>, i: nat, ready: set<string>)
    requires i < |names| && Distinct(names)
    ensures |Elements(names[..i + 1]) * ready| == |Elements(names[..i]) * ready| + if names[i] in ready then 1 else 0
  {
    var front := Elements(names[..i]);
    assert names[..i + 1] == names[..i] + [names[i]];
    assert Elements(names[..i + 1]) == front + {names[i]} && names[i] !in front;
    if names[i] in ready {
      assert Elements(names[..i + 1]) * ready == front * ready + {names[i]};
    } else {
      assert Elements(names[..i + 1]) * ready == front * ready;
    }
  }

  /** In plain terms: the count is the number of indices whose VM is ready, the
      phase Ready exactly if that is so of all of them and Pending otherwise. */
  lemma StatusOfMeans(r: Request, ready: set<string>)
    ensures var s := StatusOf(r, ready);
            && s.region == r.region && s.message == NoMessage
            && s.readyReplicas == |set i | 0 <= i < r.replicas && VMName(r.name, i) in ready|
            && s.phase == if forall i :: 0 <= i < r.replicas ==> VMName(r.name, i) in ready then Ready else Pending
  {
    CountByIndex(r, ready);
    assert ReadyIndices(r.name, r.replicas, ready) == set i | 0 <= i < r.replicas && VMName(r.name, i) in ready;
    StatusMeaning(r, ready, ready);
    if DesiredNames(r) <= ready {
      assert forall i :: 0 <= i < r.replicas ==> VMName(r.name, i) in DesiredNames(r);
    }
  }

  function ReadyIndices(request: string, n: nat, ready: set<string>): set<int> {
    set i | 0 <= i < n && VMName(request, i) in ready
  }

  lemma {:induction false} CountByIndex(r: Request, ready: set<string>)
    ensures |ReadyIndices(r.name, r.replicas, ready)| == |DesiredNames(r) * ready|
    decreases r.replicas
  {
    if r.replicas == 0 {
      assert ReadyIndices(r.name, 0, ready) == {};
      assert DesiredNames(r) == {};
    } else {
      var n := r.replicas - 1;
      CountByIndex(r.(replicas := n), ready);
      OneMoreIndex(r.name, n, ready);
      OneMoreName(r.(replicas := n), ready);
      assert r == r.(replicas := n).(replicas := n + 1);
    }
  }

  lemma OneMoreIndex(request: string, n: nat, ready: set<string>)
    ensures |ReadyIndices(request, n + 1, ready)|
            == |ReadyIndices(request, n, ready)| + if VMName(request, n) in ready then 1 else 0
  {
    assert ReadyIndices(request, n + 1, ready)
           == ReadyIndices(request, n, ready) + if VMName(request, n) in ready then {n} else {};
  }

  lemma OneMoreName(r: Request, ready: set<string>)
    ensures |DesiredNames(r.(replicas := r.replicas + 1)) * ready|
            == |DesiredNames(r) * ready| + if VMName(r.name, r.replicas) in ready then 1 else 0
  {
    var name := VMName(r.name, r.replicas);
    NextName(r);
    AddOne(DesiredNames(r), ready, name);
  }

  lemma NextName(r: Request)
    ensures VMName(r.name, r.replicas) !in DesiredNames(r)
    ensures DesiredNames(r.(replicas := r.replicas + 1)) == DesiredNames(r) + {VMName(r.name, r.replicas)}
  {
    forall i | 0 <= i < r.replicas ensures VMName(r.name, i) != VMName(r.name, r.replicas) {
      if VMName(r.name, i) == VMName(r.name, r.replicas) { VMNameInjective(r.name, i, r.name, r.replicas); }
    }
  }

  lemma AddOne<T>(a: set<T>, b: set<T>, x: T)
    requires x !in a
    ensures |(a + {x}) * b| == |a * b| + if x in b then 1 else 0
  {
    assert (a + {x}) * b == a * b + if x in b then {x} else {};
  }

  /** Ready means every desired VM is ready; leftovers never count; more ready VMs never lower the count. */
  lemma StatusMeaning(r: Request, ready: set<string>, more: set<string>)
    requires ready <= more
    ensures StatusOf(r, ready).phase == Ready <==> DesiredNames(r) <= ready
    ensures StatusOf(r, ready) == StatusOf(r, ready * DesiredNames(r))
    ensures StatusOf(r, ready).readyReplicas <= StatusOf(r, more).readyReplicas <= r.replicas
    ensures StatusOf(r, ready).phase == Ready ==> StatusOf(r, more).phase == Ready
  {
    var want := DesiredNames(r);
    DesiredNamesAre(r);
    SubsetSize(want * ready, want);
    SubsetSize(want * ready, want * more);
    SubsetSize(want * more, want);
    assert want * (ready * want) == want * ready;
    if want <= ready {
      assert want * ready == want;
    }
  }

  lemma {:induction false} SubsetSize<T>(a: set<T>, b: set<T>)
    requires a <= b
    ensures |a| <= |b| && (|a| == |b| ==> a == b)
  {
    if a != {} {
      var x :| x in a;
      SubsetSize(a - {x}, b - {x});
      assert a == a - {x} + {x} && b == b - {x} + {x};
    }
  }
}
