/** The cluster provider: what one poll does to the fleet, and the class whose
    methods do it under a lock while IndexField calls run beside it. */
module FleetProvider {
  import opened Options
  import opened FleetIndex
  import Runs

  // ---------- What a poll means ----------

  /** One listed ClusterProfile, with the answers the poll gets for it: the key
      computed from its Secret if that could be read, whether building a
      cluster from its Secret succeeds, and whether the manager engages it. */
  datatype Profile = Profile(name: string, namespace: string, key: Option<string>, builds: bool, engages: bool)

  datatype Slot = Slot(instance: nat, key: string)

  /** The fleet as names with their instance and key; built counts instances. */
  datatype Fleet = Fleet(slots: map<string, Slot>, built: nat)

  /** The profile's cluster stays as it is. */
  predicate Keeps(slot: Slot, p: Profile) { p.key.None? || p.key.value == slot.key }

  function KeyOr(key: Option<string>): string { match key case None => "" case Some(k) => k }

  function PollOne(f: Fleet, p: Profile): Fleet {
    if p.name in f.slots && Keeps(f.slots[p.name], p) then f
    else if !p.builds then f.(slots := f.slots - {p.name})
    else if !p.engages then Fleet(f.slots - {p.name}, f.built + 1)
    else Fleet(f.slots[p.name := Slot(f.built, KeyOr(p.key))], f.built + 1)
  }

  function PollAll(f: Fleet, ps: seq<Profile>): Fleet {
    if ps == [] then f else PollOne(PollAll(f, ps[..|ps| - 1]), ps[|ps| - 1])
  }

  function NamesOf(ps: seq<Profile>): set<string> { set p | p in ps :: p.name }

  function Sweep(f: Fleet, listed: set<string>): Fleet {
    f.(slots := map n | n in f.slots && n in listed :: f.slots[n])
  }

  /** A poll; the list is missing when List fails. */
  function Poll(f: Fleet, list: Option<seq<Profile>>): Fleet {
    match list
    case None => f
    case Some(ps) => Sweep(PollAll(f, ps), NamesOf(ps))
  }

  predicate DistinctNames(ps: seq<Profile>) { forall i, j :: 0 <= i < j < |ps| ==> ps[i].name != ps[j].name }

  /** What becomes of a listed name: kept, replaced by a new instance, or gone. */
  predicate Treated(before: Fleet, p: Profile, after: Fleet) {
    if p.name in before.slots && Keeps(before.slots[p.name], p) then
      p.name in after.slots && after.slots[p.name] == before.slots[p.name]
    else if p.builds && p.engages then
      p.name in after.slots && after.slots[p.name].key == KeyOr(p.key)
          && before.built <= after.slots[p.name].instance < after.built
    else p.name !in after.slots
  }

  lemma {:induction false} PollAllPointwise(f: Fleet, ps: seq<Profile>)
    requires DistinctNames(ps)
    ensures var g := PollAll(f, ps);
            && f.built <= g.built
            && (forall i :: 0 <= i < |ps| ==> Treated(f, ps[i], g))
            && (forall n :: n !in NamesOf(ps) ==>
               (n in g.slots <==> n in f.slots) && (n in f.slots ==> g.slots[n] == f.slots[n]))
  {
    if ps != [] {
      var k := |ps| - 1;
      var mid, p, g := PollAll(f, ps[..k]), ps[k], PollAll(f, ps);
      PollAllPointwise(f, ps[..k]);
      assert p.name !in NamesOf(ps[..k]);
      assert p in ps;
      forall i | 0 <= i < |ps| ensures Treated(f, ps[i], g) {
        if i < k { assert Treated(f, ps[..k][i], mid); }
      }
      forall n | n !in NamesOf(ps)
        ensures (n in g.slots <==> n in f.slots) && (n in f.slots ==> g.slots[n] == f.slots[n])
      {
        assert n !in NamesOf(ps[..k]);
      }
    }
  }

  /** A poll is a simple map update: with distinct names, listed clusters whose
      key is unchanged or unreadable keep their instance, the others are
      replaced or go, every unlisted one goes, and a failed List changes nothing. */
  lemma PollIsUpdate(f: Fleet, list: Option<seq<Profile>>)
    requires list.Some? ==> DistinctNames(list.value)
    ensures list.None? ==> Poll(f, list) == f
    ensures list.Some? ==> (forall i :: 0 <= i < |list.value| ==> Treated(f, list.value[i], Poll(f, list)))
    ensures list.Some? ==> Poll(f, list).slots.Keys <= NamesOf(list.value)
  {
    if list.Some? {
      var ps := list.value;
      PollAllPointwise(f, ps);
      forall i | 0 <= i < |ps| ensures Treated(f, ps[i], Poll(f, list)) {
        assert ps[i] in ps && Treated(f, ps[i], PollAll(f, ps));
      }
    }
  }

  /** What becomes of a listed name, case by case. Engaged under the key that
      was read, or with its key unread, it stays the same instance. Under
      another key it is a new instance with that key if that can be built and
      engaged, and is gone otherwise. Not engaged, it is started likewise. */
  lemma PollMeans(f: Fleet, ps: seq<Profile>)
    requires DistinctNames(ps)
    ensures var before, after := f.slots, Poll(f, Some(ps)).slots;
            forall p :: p in ps && p.name in before && (p.key == None || p.key == Some(before[p.name].key)) ==>
              p.name in after && after[p.name] == before[p.name]
    ensures var before, after := f.slots, Poll(f, Some(ps)).slots;
            forall p :: p in ps && p.name in before && p.key.Some? && p.key.value != before[p.name].key ==>
              if p.builds && p.engages
              then p.name in after && f.built <= after[p.name].instance && after[p.name].key == p.key.value
              else p.name !in after
    ensures var before, after := f.slots, Poll(f, Some(ps)).slots;
            forall p :: p in ps && p.name !in before ==>
              if p.builds && p.engages
              then p.name in after && f.built <= after[p.name].instance
                  && after[p.name].key == if p.key.Some? then p.key.value else ""
              else p.name !in after
    ensures forall n :: n in Poll(f, Some(ps)).slots ==> exists p :: p in ps && p.name == n
  {
    PollIsUpdate(f, Some(ps));
    forall p | p in ps ensures Treated(f, p, Poll(f, Some(ps))) {
      var i :| 0 <= i < |ps| && ps[i] == p;
      assert Treated(f, ps[i], Poll(f, Some(ps)));
    }
  }

  /** The name's cluster would be stored without a key: not engaged, its Secret
      unreadable at first and then readable after all. */
  predicate KeylessStart(f: Fleet, p: Profile) { p.name !in f.slots && p.key.None? && p.builds && p.engages }

  /** The name is engaged without a key. */
  predicate Keyless(f: Fleet, name: string) { name in f.slots && f.slots[name].key == "" }

  /** A name is without a key after a poll exactly if the two Secret reads
      disagree in that way now, or it was before and its key is still unreadable.
      A key that was read is never empty. */
  lemma EmptyKeys(f: Fleet, ps: seq<Profile>, i: nat)
    requires DistinctNames(ps) && i < |ps| && ps[i].key != Some("")
    ensures Keyless(Poll(f, Some(ps)), ps[i].name)
            <==> KeylessStart(f, ps[i]) || (Keyless(f, ps[i].name) && ps[i].key.None?)
  {
    PollIsUpdate(f, Some(ps));
    assert Treated(f, ps[i], Poll(f, Some(ps)));
  }

  function Polls(f: Fleet, lists: seq<Option<seq<Profile>>>): Fleet {
    if lists == [] then f else Poll(Polls(f, lists[..|lists| - 1]), lists[|lists| - 1])
  }

  /** Profile names are distinct, and a key that was read is a hash. */
  predicate Listable(list: Option<seq<Profile>>) {
    list.Some? ==> DistinctNames(list.value) && forall p :: p in list.value ==> p.key != Some("")
  }

  predicate StartsKeyless(f: Fleet, list: Option<seq<Profile>>, name: string) {
    list.Some? && exists p :: p in list.value && p.name == name && KeylessStart(f, p)
  }

  /** The poll does not get to read the name's key: List fails, or its Secret cannot be read. */
  predicate Unread(list: Option<seq<Profile>>, name: string) {
    list.None? || exists p :: p in list.value && p.name == name && p.key.None?
  }

  lemma EmptyKeysOnce(f: Fleet, list: Option<seq<Profile>>, name: string)
    requires Listable(list)
    ensures Keyless(Poll(f, list), name) <==> StartsKeyless(f, list, name) || (Keyless(f, name) && Unread(list, name))
  {
    if list.Some? {
      var ps := list.value;
      PollIsUpdate(f, list);
      if i: nat :| i < |ps| && ps[i].name == name {
        EmptyKeys(f, ps, i);
        assert ps[i] in ps;
        assert forall p :: p in ps && p.name == name ==> p == ps[i];
      } else {
        assert name !in NamesOf(ps);
      }
    }
  }

  /** Across polls, from a fleet in which every key is known: a name is without
      a key exactly if some poll started it keyless and no poll since could read
      its key. So one readable poll always heals it. */
  lemma {:induction false} EmptyKeysAcross(f: Fleet, lists: seq<Option<seq<Profile>>>, name: string)
    requires !Keyless(f, name) && forall i :: 0 <= i < |lists| ==> Listable(lists[i])
    ensures Keyless(Polls(f, lists), name) <==> exists i :: KeylessSince(f, lists, name, i)
  {
    if lists != [] {
      var k := |lists| - 1;
      var front := lists[..k];
      EmptyKeysAcross(f, front, name);
      EmptyKeysOnce(Polls(f, front), lists[k], name);
      if i: nat :| KeylessSince(f, front, name, i) {
        assert lists[..i] == front[..i];
        if Unread(lists[k], name) { assert KeylessSince(f, lists, name, i); }
      }
      if StartsKeyless(Polls(f, front), lists[k], name) { assert KeylessSince(f, lists, name, k); }
      if i: nat :| KeylessSince(f, lists, name, i) && i < k {
        assert lists[..i] == front[..i];
        assert KeylessSince(f, front, name, i);
      }
    }
  }

  predicate KeylessSince(f: Fleet, lists: seq<Option<seq<Profile>>>, name: string, i: nat) {
    && i < |lists| && StartsKeyless(Polls(f, lists[..i]), lists[i], name)
    && forall j :: i < j < |lists| ==> Unread(lists[j], name)
  }

  /** After a poll in which every profile's key was read and every cluster came
      up, the same poll again starts and stops nothing. */
  lemma PollRests(f: Fleet, ps: seq<Profile>)
    requires DistinctNames(ps) && forall i :: 0 <= i < |ps| ==> ps[i].key.Some? && ps[i].builds && ps[i].engages
    ensures Poll(Poll(f, Some(ps)), Some(ps)) == Poll(f, Some(ps))
  {
    var g := Poll(f, Some(ps));
    PollIsUpdate(f, Some(ps));
    forall i | 0 <= i < |ps| ensures ps[i].name in g.slots && Keeps(g.slots[ps[i].name], ps[i]) {
      assert Treated(f, ps[i], g);
    }
    KeepsAll(g, ps);
    assert Sweep(g, NamesOf(ps)).slots == g.slots;
  }

  lemma {:induction false} KeepsAll(f: Fleet, ps: seq<Profile>)
    requires forall i :: 0 <= i < |ps| ==> ps[i].name in f.slots && Keeps(f.slots[ps[i].name], ps[i])
    ensures PollAll(f, ps) == f
  {
    if ps != [] { KeepsAll(f, ps[..|ps| - 1]); }
  }

  // ---------- Runs of the index protocol ----------

  function Next(s: State, e: Event): Option<State> { if Enabled(s, e) then Some(Step(s, e)) else None }

  ghost predicate Reaches(s: State, t: State) { Runs.Reaches(Next, s, t) }

  /** Reaching is by possible runs. */
  lemma {:induction false} PossibleRunsReach(s: State, es: seq<Event>, t: State)
    ensures Runs.Leads(Next, s, es, t) <==> Possible(s, es) && Run(s, es) == t
    decreases |es|
  {
    if es != [] && Enabled(s, es[0]) { PossibleRunsReach(Step(s, es[0]), es[1..], t); }
  }

  // ---------- The provider ----------

  /** An IndexField call's own step: appending, one cluster, returning. */
  predicate ByCaller(e: Event) { e.Register? || e.CallerApply? || e.CallerReturn? }

  /** The three maps have the same names, each cancel function belongs to the
      cluster beside it, and no two names share an instance. */
  ghost predicate InStep(clusters: map<string, nat>, cancelFns: map<string, nat>, clusterKeys: map<string, string>,
                         built: nat) {
    && cancelFns == clusters && clusterKeys.Keys == clusters.Keys
    && (forall n :: n in clusters ==> clusters[n] < built)
    && (forall n, m :: n in clusters && m in clusters && clusters[n] == clusters[m] ==> n == m)
  }

  /** The started, uncancelled instances are the stored ones, and at most the one about to be stored. */
  ghost predicate Tracked(clusters: map<string, nat>, live: set<nat>, starting: set<nat>, built: nat) {
    live == clusters.Values + starting && (starting == {} || starting == {built})
  }

  /** The index protocol sees the same clusters and registrations. */
  ghost predicate Followed(run: State, clusters: map<string, nat>, built: nat, registered: nat) {
    run.clusters == clusters && run.built == built && run.registered == registered && Reaches(INITIAL, run)
  }

  function FleetOf(clusters: map<string, nat>, clusterKeys: map<string, string>, built: nat): Fleet
    requires clusterKeys.Keys == clusters.Keys
  {
    Fleet(map n | n in clusters :: Slot(clusters[n], clusterKeys[n]), built)
  }

  lemma FleetChanges(clusters: map<string, nat>, clusterKeys: map<string, string>, built: nat, name: string,
                     key: string)
    requires clusterKeys.Keys == clusters.Keys
    ensures var f := FleetOf(clusters, clusterKeys, built);
            && FleetOf(clusters[name := built], clusterKeys[name := key], built + 1)
               == Fleet(f.slots[name := Slot(built, key)], built + 1)
            && FleetOf(clusters - {name}, clusterKeys - {name}, built) == Fleet(f.slots - {name}, built)
  {
  }

  /** What a poll makes of the engaged clusters and their keys, in plain terms:
      unchanged under the same or an unread key, otherwise new or gone, and gone if not listed. */
  predicate Discovered(ps: seq<Profile>, clusters: map<string, nat>, keys: map<string, string>, built: nat,
                       after: map<string, nat>, afterKeys: map<string, string>)
    requires keys.Keys == clusters.Keys && afterKeys.Keys == after.Keys
  {
    && (forall p :: p in ps && p.name in clusters && (p.key == None || p.key == Some(keys[p.name])) ==>
          p.name in after && after[p.name] == clusters[p.name] && afterKeys[p.name] == keys[p.name])
    && (forall p :: p in ps && p.name in clusters && p.key.Some? && p.key.value != keys[p.name] ==>
          if p.builds && p.engages
          then p.name in after && built <= after[p.name] && afterKeys[p.name] == p.key.value
          else p.name !in after)
    && (forall p :: p in ps && p.name !in clusters ==>
          if p.builds && p.engages
          then p.name in after && built <= after[p.name]
              && afterKeys[p.name] == if p.key.Some? then p.key.value else ""
          else p.name !in after)
    && (forall n :: n in after ==> exists p :: p in ps && p.name == n)
  }

  lemma PollOfMaps(clusters: map<string, nat>, keys: map<string, string>, built: nat,
                   after: map<string, nat>, afterKeys: map<string, string>, afterBuilt: nat, ps: seq<Profile>)
    requires keys.Keys == clusters.Keys && afterKeys.Keys == after.Keys && DistinctNames(ps)
    requires FleetOf(after, afterKeys, afterBuilt) == Poll(FleetOf(clusters, keys, built), Some(ps))
    ensures Discovered(ps, clusters, keys, built, after, afterKeys)
  {
    var f, g := FleetOf(clusters, keys, built), FleetOf(after, afterKeys, afterBuilt);
    PollMeans(f, ps);
    assert forall n :: n in after <==> n in g.slots;
    assert forall n :: n in after ==> g.slots[n] == Slot(after[n], afterKeys[n]);
    assert forall n :: n in clusters <==> n in f.slots;
    assert forall n :: n in clusters ==> f.slots[n] == Slot(clusters[n], keys[n]);
  }

  lemma PollOneOfMaps(clusters: map<string, nat>, keys: map<string, string>, built: nat,
                      after: map<string, nat>, afterKeys: map<string, string>, afterBuilt: nat, p: Profile)
    requires keys.Keys == clusters.Keys && afterKeys.Keys == after.Keys
    requires FleetOf(after, afterKeys, afterBuilt) == PollOne(FleetOf(clusters, keys, built), p)
    ensures if p.name in clusters && (p.key == None || p.key == Some(keys[p.name]))
            then after == clusters && afterKeys == keys
            else if p.builds && p.engages
            then after == clusters[p.name := built]
                && afterKeys == keys[p.name := if p.key.Some? then p.key.value else ""]
            else after == clusters - {p.name} && afterKeys == keys - {p.name}
  {
    var f, g := FleetOf(clusters, keys, built), FleetOf(after, afterKeys, afterBuilt);
    assert forall n :: n in after <==> n in g.slots;
    assert forall n :: n in after ==> g.slots[n] == Slot(after[n], afterKeys[n]);
    assert forall n :: n in clusters <==> n in f.slots;
    assert forall n :: n in clusters ==> f.slots[n] == Slot(clusters[n], keys[n]);
  }

  lemma NothingToRemove(clusters: map<string, nat>, clusterKeys: map<string, string>, built: nat, name: string)
    requires clusterKeys.Keys == clusters.Keys && name !in clusters
    ensures clusters - {name} == clusters
    ensures var f := FleetOf(clusters, clusterKeys, built); f == f.(slots := f.slots - {name})
  {
    var f := FleetOf(clusters, clusterKeys, built);
    assert f.slots - {name} == f.slots;
  }

  /** DiscoverOne's outcomes are PollOne's. */
  lemma PollOneIs(before: Fleet, p: Profile, stopped: Fleet)
    requires stopped == before.(slots := before.slots - {p.name})
             && !(p.name in before.slots && Keeps(before.slots[p.name], p))
    ensures !p.builds ==> PollOne(before, p) == stopped
    ensures p.builds ==>
              var slot := Slot(stopped.built, KeyOr(p.key));
              var stored := Fleet(stopped.slots[p.name := slot], stopped.built + 1);
              PollOne(before, p) == if p.engages then stored else stored.(slots := stored.slots - {p.name})
  {
    var key := KeyOr(p.key);
    assert stopped.slots[p.name := Slot(stopped.built, key)] == before.slots[p.name := Slot(before.built, key)];
    assert stopped.slots[p.name := Slot(stopped.built, key)] - {p.name} == before.slots - {p.name};
  }

  lemma StoreKeeps(clusters: map<string, nat>, clusterKeys: map<string, string>, live: set<nat>, run: State,
                   built: nat, registered: nat, name: string, key: string)
    requires InStep(clusters, clusters, clusterKeys, built) && Tracked(clusters, live, {built}, built)
    requires Followed(run, clusters, built, registered) && name !in clusters && run.job == None
    ensures InStep(clusters[name := built], clusters[name := built], clusterKeys[name := key], built + 1)
    ensures Tracked(clusters[name := built], live, {}, built + 1)
    ensures Enabled(run, Insert(name))
            && Followed(Step(run, Insert(name)), clusters[name := built], built + 1, registered)
  {
    ValuesOfUpdate(clusters, name, built);
    Runs.ReachesNext(Next, INITIAL, run, Insert(name), Step(run, Insert(name)));
  }

  lemma RemovalKeeps(clusters: map<string, nat>, clusterKeys: map<string, string>, live: set<nat>, run: State,
                     built: nat, registered: nat, name: string)
    requires InStep(clusters, clusters, clusterKeys, built) && Tracked(clusters, live, {}, built)
    requires Followed(run, clusters, built, registered) && name in clusters && run.job == None
    ensures InStep(clusters - {name}, clusters - {name}, clusterKeys - {name}, built)
    ensures Tracked(clusters - {name}, live - {clusters[name]}, {}, built)
    ensures Enabled(run, Remove(name)) && Followed(Step(run, Remove(name)), clusters - {name}, built, registered)
    ensures Reaches(run, Step(run, Remove(name))) && Step(run, Remove(name)).job == None
    ensures var f := FleetOf(clusters, clusterKeys, built);
            FleetOf(clusters - {name}, clusterKeys - {name}, built) == f.(slots := f.slots - {name})
  {
    Runs.ReachesItself(Next, run);
    Runs.ReachesNext(Next, run, run, Remove(name), Step(run, Remove(name)));
    ValuesOfRemoval(clusters, name);
    assert clusters[name] in clusters.Values;
    Runs.ReachesNext(Next, INITIAL, run, Remove(name), Step(run, Remove(name)));
  }

  predicate CallerStepOf(e: Event, j: nat) { (e.CallerApply? || e.CallerReturn?) && e.registration == j }

  /** What IndexField call j still has to visit. */
  function CallerLeft(s: State, j: nat): Option<set<nat>> { if j in s.callers then Some(s.callers[j]) else None }

  predicate Tried(s: State, i: nat, j: nat) { s.applied[(i, j)] >= 1 || (i, j) in s.missed }

  /** What was tried stays tried, and the next call is a try. */
  lemma TriedNext(before: State, s: State, i: nat, k: nat, ok: bool)
    requires before.applied <= s.applied && before.missed <= s.missed
    requires s.job.Some? && s.job.value.instance == i && s.job.value.next == k
    requires forall j: nat :: j < k ==> Tried(before, i, j)
    ensures forall j: nat :: j <= k ==> Tried(Step(s, DiscoverApply(ok)), i, j)
  {
    forall j: nat | j < k ensures Tried(Step(s, DiscoverApply(ok)), i, j) { assert Tried(before, i, j); }
  }

  predicate Served(s: State, i: nat, j: nat) { s.applied[(i, j)] == 1 || (i, j) in s.missed }

  lemma TriedIsServed(s: State, i: nat, n: nat)
    requires Reaches(INITIAL, s) && forall j: nat :: j < n ==> Tried(s, i, j)
    ensures forall j: nat :: j < n ==> Served(s, i, j)
  {
    AtMostOnce(s);
    forall j: nat | j < n ensures Served(s, i, j) { assert Tried(s, i, j); }
  }

  class Provider {
    var clusters: map<string, nat>
    var cancelFns: map<string, nat>
    var clusterKeys: map<string, string>
    var indexes: seq<string>

    // What the proofs keep track of beside the Go struct's fields: instances built
    // so far, those started and not cancelled, the one started and not stored
    // yet, and the index protocol's view of this provider.
    var built: nat
    var live: set<nat>
    var starting: set<nat>
    var run: State

    /** No started cluster is lost track of, and the maps stay in step. */
    ghost predicate Valid()
      reads this
    {
      && InStep(clusters, cancelFns, clusterKeys, built)
      && Tracked(clusters, live, starting, built)
      && Followed(run, clusters, built, |indexes|)
    }

    function Contents(): Fleet
      requires clusterKeys.Keys == clusters.Keys
      reads this`clusters, this`clusterKeys, this`built
    {
      FleetOf(clusters, clusterKeys, built)
    }

    constructor ()
      ensures Valid() && Contents() == Fleet(map[], 0) && starting == {} && run == INITIAL
    {
      clusters, cancelFns, clusterKeys, indexes, built := map[], map[], map[], [], 0;
      live, starting, run := {}, {}, INITIAL;
      Runs.ReachesItself(Next, INITIAL);
    }

    method Get(name: string) returns (cluster: Option<nat>)
      requires Valid()
      ensures cluster == if name in clusters then Some(clusters[name]) else None
      ensures cluster.Some? ==> cluster.value in live
    {
      if name in clusters { return Some(clusters[name]); }
      return None;
    }

    // ---------- Lock sections ----------

    method Append(index: string) returns (j: nat, snapshot: set<nat>)
      requires Valid()
      modifies this`indexes, this`run
      ensures Valid() && j == |old(indexes)| && indexes == old(indexes) + [index] && snapshot == clusters.Values
      ensures Enabled(old(run), Register) && run == Step(old(run), Register)
    {
      Runs.ReachesNext(Next, INITIAL, run, Register, Step(run, Register));
      j := |indexes|;
      indexes := indexes + [index];
      snapshot := clusters.Values;
      run := Step(run, Register);
    }

    method Store(name: string, key: string) returns (instance: nat, copied: seq<string>)
      requires Valid() && starting == {built} && name !in clusters && run.job == None
      modifies this`clusters, this`cancelFns, this`clusterKeys, this`built, this`starting, this`run
      ensures Valid() && starting == {} && instance == old(built) && built == old(built) + 1 && copied == indexes
      ensures clusters == old(clusters)[name := instance]
      ensures Contents() == Fleet(old(Contents()).slots[name := Slot(instance, key)], built)
      ensures Enabled(old(run), Insert(name)) && run == Step(old(run), Insert(name))
    {
      StoreKeeps(clusters, clusterKeys, live, run, built, |indexes|, name, key);
      FleetChanges(clusters, clusterKeys, built, name, key);
      instance := built;
      clusters := clusters[name := instance];
      cancelFns := cancelFns[name := instance];
      clusterKeys := clusterKeys[name := key];
      copied := indexes;
      built := built + 1;
      starting := {};
      run := Step(run, Insert(name));
    }

    method DisengageCluster(name: string)
      requires Valid() && starting == {} && run.job == None
      modifies this`clusters, this`cancelFns, this`clusterKeys, this`live, this`run
      ensures Valid() && run == old(run).(clusters := clusters)
      ensures clusters == old(clusters) - {name}
      ensures Contents() == old(Contents()).(slots := old(Contents()).slots - {name})
      ensures Reaches(old(run), run)
    {
      Runs.ReachesItself(Next, run);
      if name !in clusters {
        NothingToRemove(clusters, clusterKeys, built, name);
        return;
      }
      Remove(name);
    }

    method Remove(name: string)
      requires Valid() && starting == {} && run.job == None && name in clusters
      modifies this`clusters, this`cancelFns, this`clusterKeys, this`live, this`run
      ensures Valid() && run == old(run).(clusters := clusters)
      ensures clusters == old(clusters) - {name}
      ensures Contents() == old(Contents()).(slots := old(Contents()).slots - {name})
      ensures Reaches(old(run), run)
    {
      RemovalKeeps(clusters, clusterKeys, live, run, built, |indexes|, name);
      clusters := clusters - {name};
      clusterKeys := clusterKeys - {name};
      if name in cancelFns {
        live := live - {cancelFns[name]};
        cancelFns := cancelFns - {name};
      }
      run := Step(run, Event.Remove(name));
    }

    // ---------- Interference ----------

    /** One step of some IndexField call, if it is due. */
    method TakeCallerStep(e: Event)
      requires Valid()
      modifies this`indexes, this`run
      ensures Valid() && Reaches(old(run), run)
      ensures run.job == old(run).job && run.clusters == old(run).clusters && run.built == old(run).built
      ensures old(run).applied <= run.applied && old(run).missed <= run.missed && old(run).registered <= run.registered
      ensures forall j: nat :: j < old(run).registered && !CallerStepOf(e, j) ==>
              CallerLeft(run, j) == CallerLeft(old(run), j)
    {
      Runs.ReachesItself(Next, run);
      if e.Register? {
        Runs.ReachesNext(Next, run, run, Register, Step(run, Register));
        var index: string := *;
        var _, _ := Append(index);
      } else if ByCaller(e) && Enabled(run, e) {
        Runs.ReachesNext(Next, INITIAL, run, e, Step(run, e));
        Runs.ReachesNext(Next, run, run, e, Step(run, e));
        run := Step(run, e);
      }
    }

    /** Between discover's lock sections any number of IndexField steps may happen. */
    method YieldToCallers()
      requires Valid()
      modifies this`indexes, this`run
      ensures Valid() && Reaches(old(run), run)
      ensures run.job == old(run).job && run.clusters == old(run).clusters && run.built == old(run).built
      ensures old(run).applied <= run.applied && old(run).missed <= run.missed && old(run).registered <= run.registered
    {
      Runs.ReachesItself(Next, run);
      var n: nat := *;
      while n > 0
        invariant Valid() && Reaches(old(run), run)
        invariant run.job == old(run).job && run.clusters == old(run).clusters && run.built == old(run).built
        invariant old(run).applied <= run.applied && old(run).missed <= run.missed
                  && old(run).registered <= run.registered
      {
        var e: Event := *;
        ghost var here := run;
        TakeCallerStep(e);
        Runs.ReachesFar(Next, old(run), here, run);
        n := n - 1;
      }
    }

    // ---------- discover ----------

    /** One poll. It does what Poll says whatever IndexField calls run beside
        it, and every lock section and index call is a step of the protocol. */
    method Discover(list: Option<seq<Profile>>)
      requires Valid() && starting == {} && run.job == None
      modifies this
      ensures Valid() && starting == {} && run.job == None
      ensures Contents() == Poll(old(Contents()), list)
      ensures list.None? ==> clusters == old(clusters) && clusterKeys == old(clusterKeys)
      ensures list.Some? && DistinctNames(list.value) ==>
                Discovered(list.value, old(clusters), old(clusterKeys), old(built), clusters, clusterKeys)
      ensures list.Some? && DistinctNames(list.value) ==>
                forall p :: p in list.value && p.name in old(clusters) && p.key.Some?
                            && p.key.value != old(clusterKeys)[p.name] ==>
                  if p.builds && p.engages
                  then p.name in clusters && old(built) <= clusters[p.name] && clusterKeys[p.name] == p.key.value
                  else p.name !in clusters
      ensures live == clusters.Values
      ensures Reaches(old(run), run)
    {
      ghost var start := run;
      Runs.ReachesItself(Next, run);
      if list.None? { return; }
      var ps := list.value;
      var seen := {};
      for i := 0 to |ps|
        invariant Valid() && starting == {} && run.job == None && Reaches(start, run)
        invariant seen == NamesOf(ps[..i]) && Contents() == PollAll(old(Contents()), ps[..i])
      {
        seen := seen + {ps[i].name};
        ghost var here := run;
        DiscoverOne(ps[i]);
        Runs.ReachesFar(Next, start, here, run);
        assert ps[..i + 1][..i] == ps[..i] && ps[..i + 1] == ps[..i] + [ps[i]];
      }
      assert ps[..|ps|] == ps;
      ghost var here := run;
      SweepUnlisted(seen);
      Runs.ReachesFar(Next, start, here, run);
      if DistinctNames(ps) {
        PollOfMaps(old(clusters), old(clusterKeys), old(built), clusters, clusterKeys, built, ps);
      }
    }

    /** discover's second loop. */
    method SweepUnlisted(seen: set<string>)
      requires Valid() && starting == {} && run.job == None
      modifies this
      ensures Valid() && starting == {} && run.job == None && Reaches(old(run), run)
      ensures Contents() == Sweep(old(Contents()), seen)
    {
      ghost var start, polled := run, Contents();
      Runs.ReachesItself(Next, run);
      var engaged := clusters.Keys;
      while engaged != {}
        invariant Valid() && starting == {} && run.job == None && Reaches(start, run)
        invariant Contents() == Sweep(polled, engaged + seen)
      {
        var name :| name in engaged;
        ghost var here := run;
        YieldToCallers();
        Runs.ReachesFar(Next, start, here, run);
        if name !in seen {
          here := run;
          DisengageCluster(name);
          Runs.ReachesFar(Next, start, here, run);
        }
        SweepNext(polled, engaged, seen, name);
        engaged := engaged - {name};
      }
      assert {} + seen == seen;
    }

    /** The body of discover's loop over profiles. */
    method DiscoverOne(p: Profile)
      requires Valid() && starting == {} && run.job == None
      modifies this
      ensures Valid() && starting == {} && run.job == None
      ensures Contents() == PollOne(old(Contents()), p)
      ensures if p.name in old(clusters) && (p.key == None || p.key == Some(old(clusterKeys)[p.name]))
              then clusters == old(clusters) && clusterKeys == old(clusterKeys)
              else if p.builds && p.engages
              then clusters == old(clusters)[p.name := old(built)]
                  && clusterKeys == old(clusterKeys)[p.name := if p.key.Some? then p.key.value else ""]
              else clusters == old(clusters) - {p.name} && clusterKeys == old(clusterKeys) - {p.name}
      ensures Reaches(old(run), run)
    {
      ghost var start, before := run, Contents();
      Runs.ReachesItself(Next, run);
      if p.key.None? && p.name in clusters { return; }
      var clusterKey := KeyOr(p.key);
      var engaged := p.name in clusters;
      if engaged && clusterKey == clusterKeys[p.name] { return; }
      if engaged { DisengageCluster(p.name); }
      ghost var stopped, here := Contents(), run;
      StoppedIs(before, stopped, p.name);
      PollOneIs(before, p, stopped);
      if !p.builds {
        PollOneOfMaps(old(clusters), old(clusterKeys), old(built), clusters, clusterKeys, built, p);
        return;
      }
      StartStored(p.name, clusterKey);
      Runs.ReachesFar(Next, start, here, run);
      if !p.engages {
        here := run;
        DisengageCluster(p.name);
        Runs.ReachesFar(Next, start, here, run);
      }
      PollOneOfMaps(old(clusters), old(clusterKeys), old(built), clusters, clusterKeys, built, p);
    }

    /** Starts the built cluster, stores it and applies the indexes: every
        registration made before the call is applied once or its call failed. */
    method StartStored(name: string, key: string)
      requires Valid() && starting == {} && run.job == None && name !in clusters
      modifies this
      ensures Valid() && starting == {} && run.job == None && Reaches(old(run), run)
      ensures Contents() == Fleet(old(Contents()).slots[name := Slot(old(built), key)], old(built) + 1)
      ensures forall j: nat :: j < |old(indexes)| ==> Served(run, old(built), j)
    {
      ghost var start := run;
      Start();
      Runs.ReachesNext(Next, start, run, Insert(name), Step(run, Insert(name)));
      var instance, copied := Store(name, key);
      ghost var here := run;
      ApplyIndexes(instance, copied);
      Runs.ReachesFar(Next, start, here, run);
    }

    /** The built cluster runs before the lock is taken to store it. */
    method Start()
      requires Valid() && starting == {}
      modifies this
      ensures Valid() && starting == {built} && Reaches(old(run), run) && run.job == old(run).job
      ensures clusters == old(clusters) && clusterKeys == old(clusterKeys) && built == old(built)
      ensures |old(indexes)| <= |indexes|
    {
      starting, live := {built}, live + {built};
      YieldToCallers();
    }

    /** The registrations copied at the insert, one call each; errors are
        ignored. Each is applied, once, or its call failed. */
    method ApplyIndexes(instance: nat, copied: seq<string>)
      requires Valid() && instance < built
      requires run.job == if copied == [] then None else Some(Job(instance, 0, |copied|))
      modifies this`indexes, this`run
      ensures Valid() && run.job == None && Reaches(old(run), run)
      ensures forall j: nat :: j < |copied| ==> Served(run, instance, j)
    {
      Runs.ReachesItself(Next, run);
      for k := 0 to |copied|
        invariant Valid() && Reaches(old(run), run)
        invariant forall j: nat :: j < k ==> Tried(run, instance, j)
        invariant run.job == if k == |copied| then None else Some(Job(instance, k, |copied|))
      {
        ghost var here := run;
        YieldToCallers();
        Runs.ReachesFar(Next, old(run), here, run);
        var ok: bool := *;
        Runs.ReachesNext(Next, INITIAL, run, DiscoverApply(ok), Step(run, DiscoverApply(ok)));
        Runs.ReachesNext(Next, old(run), run, DiscoverApply(ok), Step(run, DiscoverApply(ok)));
        TriedNext(here, run, instance, k, ok);
        run := Step(run, DiscoverApply(ok));
      }
      TriedIsServed(run, instance, |copied|);
    }

    // ---------- IndexField ----------

    /** One step of the discover loop, if it is due. */
    method TakeDiscoverStep(name: string, key: string, ok: bool)
      requires Valid()
      modifies this
      ensures Valid() && Reaches(old(run), run) && run.callers == old(run).callers
              && run.registered == old(run).registered
      ensures old(run).applied <= run.applied
    {
      Runs.ReachesItself(Next, run);
      if run.job.Some? {
        Runs.ReachesNext(Next, INITIAL, run, DiscoverApply(ok), Step(run, DiscoverApply(ok)));
        Runs.ReachesNext(Next, run, run, DiscoverApply(ok), Step(run, DiscoverApply(ok)));
        run := Step(run, DiscoverApply(ok));
      } else if starting == {} && name in clusters {
        DisengageCluster(name);
      } else if starting == {} {
        starting, live := {built}, live + {built};
      } else if name !in clusters {
        Runs.ReachesNext(Next, run, run, Insert(name), Step(run, Insert(name)));
        var _, _ := Store(name, key);
      }
    }

    /** Between the steps of IndexField call j anybody else may move. */
    method YieldToAll(j: nat)
      requires Valid() && j < run.registered
      modifies this
      ensures Valid() && Reaches(old(run), run) && j < run.registered
      ensures CallerLeft(run, j) == CallerLeft(old(run), j) && old(run).applied <= run.applied
    {
      Runs.ReachesItself(Next, run);
      var n: nat := *;
      while n > 0
        invariant Valid() && Reaches(old(run), run) && j < run.registered
        invariant CallerLeft(run, j) == CallerLeft(old(run), j) && old(run).applied <= run.applied
      {
        ghost var here := run;
        var e: Event := *;
        if ByCaller(e) && !CallerStepOf(e, j) {
          TakeCallerStep(e);
        } else {
          var name: string, key: string, ok: bool := *, *, *;
          TakeDiscoverStep(name, key, ok);
        }
        Runs.ReachesFar(Next, old(run), here, run);
        n := n - 1;
      }
    }

    /** IndexField call j on one cluster, after anything others did. */
    method ApplyTo(instance: nat, j: nat) returns (ok: bool)
      requires Valid() && CallerLeft(run, j).Some? && instance in CallerLeft(run, j).value
      requires j < run.registered
      modifies this
      ensures Valid() && Reaches(old(run), run) && j < run.registered && old(run).applied <= run.applied
      ensures CallerLeft(run, j) == if ok then Some(CallerLeft(old(run), j).value - {instance}) else None
      ensures ok ==> run.applied[(instance, j)] >= 1
    {
      YieldToAll(j);
      ok := *;
      var e := CallerApply(j, instance, ok);
      Runs.ReachesNext(Next, INITIAL, run, e, Step(run, e));
      Runs.ReachesNext(Next, old(run), run, e, Step(run, e));
      run := Step(run, e);
    }

    /** IndexField call j has visited every cluster of its snapshot. */
    method Return(j: nat)
      requires Valid() && CallerLeft(run, j) == Some({})
      modifies this`run
      ensures Valid() && Reaches(old(run), run) && j !in run.callers && run.applied == old(run).applied
    {
      var e := CallerReturn(j);
      Runs.ReachesItself(Next, run);
      Runs.ReachesNext(Next, INITIAL, run, e, Step(run, e));
      Runs.ReachesNext(Next, run, run, e, Step(run, e));
      run := Step(run, e);
    }

    /** Registers an index and applies it to every engaged cluster. On success
        each cluster engaged at the call has it, exactly once, whatever discover
        and other IndexField calls do meanwhile. */
    method IndexField(index: string) returns (ok: bool)
      requires Valid()
      modifies this
      ensures Valid() && Reaches(old(run), run) && |old(indexes)| !in run.callers
      ensures ok ==> forall i :: i in old(clusters).Values ==> run.applied[(i, |old(indexes)|)] == 1
    {
      ghost var start := run;
      Runs.ReachesItself(Next, run);
      Runs.ReachesNext(Next, run, run, Register, Step(run, Register));
      var j, snapshot := Append(index);
      var rest := snapshot;
      while rest != {}
        invariant Valid() && Reaches(start, run) && j < run.registered && rest <= snapshot
        invariant CallerLeft(run, j) == Some(rest)
        invariant forall i :: i in snapshot - rest ==> run.applied[(i, j)] >= 1
      {
        var i :| i in rest;
        ghost var here := run;
        var applied := ApplyTo(i, j);
        Runs.ReachesFar(Next, start, here, run);
        if !applied { return false; }
        rest := rest - {i};
      }
      ghost var here := run;
      Return(j);
      Runs.ReachesFar(Next, start, here, run);
      AtMostOnce(run);
      ok := true;
    }
  }

  /** What the index protocol guarantees of every provider. */
  lemma AtMostOnce(s: State)
    requires Reaches(INITIAL, s)
    ensures FleetIndex.Inv(s)
    ensures forall i: nat, j: nat :: s.applied[(i, j)] <= 1
  {
    InitialOk();
    forall u, e | FleetIndex.Inv(u) && Next(u, e).Some? ensures FleetIndex.Inv(Next(u, e).value) { StepKeeps(u, e); }
    Runs.ReachesKeeps(Next, u => FleetIndex.Inv(u), INITIAL, s);
    forall i: nat, j: nat ensures s.applied[(i, j)] <= 1 { assert PairOk(s, i, j); }
  }

  lemma SweepNext(f: Fleet, engaged: set<string>, seen: set<string>, name: string)
    requires name in engaged
    ensures var slots := Sweep(f, engaged + seen).slots;
            Sweep(f, engaged - {name} + seen).slots == if name in seen then slots else slots - {name}
  {
    assert name in seen ==> engaged - {name} + seen == engaged + seen;
  }

  lemma StoppedIs(before: Fleet, after: Fleet, name: string)
    requires after == if name in before.slots then before.(slots := before.slots - {name}) else before
    ensures after == before.(slots := before.slots - {name})
  {
    assert name !in before.slots ==> before.slots - {name} == before.slots;
  }

  lemma ValuesOfUpdate(m: map<string, nat>, name: string, i: nat)
    requires name !in m
    ensures m[name := i].Values == m.Values + {i}
  {
    var t := m[name := i];
    forall v | v in m.Values ensures v in t.Values {
      var n :| n in m && m[n] == v;
      assert n in t && t[n] == v;
    }
    assert name in t && t[name] == i;
  }

  lemma ValuesOfRemoval(m: map<string, nat>, name: string)
    requires name in m && forall n, k :: n in m && k in m && m[n] == m[k] ==> n == k
    ensures (m - {name}).Values == m.Values - {m[name]}
  {
    var t := m - {name};
    forall v | v in m.Values && v != m[name] ensures v in t.Values {
      var n :| n in m && m[n] == v;
      assert n in t && t[n] == v;
    }
  }
}
