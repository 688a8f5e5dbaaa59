/** Field indexes across the fleet, as a state machine: IndexField calls and the
    discover loop interleave between their lock sections. Registrations are
    numbered in the order they are appended, cluster instances in the order
    they are stored. */
module FleetIndex {
  import opened Options

  /** The discover loop applying the registrations next .. upto-1 it copied to the instance it just stored. */
  datatype Job = Job(instance: nat, next: nat, upto: nat)

  /** applied counts successful index calls; missed holds the (instance,
      registration) pairs whose call failed or was given up after a failure. */
  datatype State = State(
    clusters: map<string, nat>,
    built: nat,
    registered: nat,
    callers: map<nat, set<nat>>,
    job: Option<Job>,
    applied: multiset<(nat, nat)>,
    missed: set<(nat, nat)>)

  const INITIAL := State(map[], 0, 0, map[], None, multiset{}, {})

  datatype Event =
    // IndexField: append and snapshot under the lock, then one cluster at a time
    | Register
    | CallerApply(registration: nat, instance: nat, ok: bool)
    | CallerReturn(registration: nat)
    // discover: insert and copy under the lock, then one registration at a time
    | Insert(name: string)
    | DiscoverApply(ok: bool)
    | Remove(name: string)

  predicate Enabled(s: State, e: Event) {
    match e
    case Register => true
    case CallerApply(j, i, _) => j in s.callers && i in s.callers[j]
    case CallerReturn(j) => j in s.callers && s.callers[j] == {}
    case Insert(name) => s.job == None && name !in s.clusters
    case DiscoverApply(_) => s.job.Some?
    case Remove(name) => s.job == None && name in s.clusters
  }

  function Advance(job: Job): Option<Job> { if job.next + 1 < job.upto then Some(job.(next := job.next + 1)) else None }

  function Step(s: State, e: Event): State
    requires Enabled(s, e)
  {
    match e
    case Register => s.(registered := s.registered + 1, callers := s.callers[s.registered := s.clusters.Values])
    case CallerApply(j, i, ok) =>
      if ok then s.(callers := s.callers[j := s.callers[j] - {i}], applied := s.applied + multiset{(i, j)})
      else s.(callers := s.callers - {j}, missed := s.missed + set x | x in s.callers[j] :: (x, j))
    case CallerReturn(j) => s.(callers := s.callers - {j})
    case Insert(name) =>
      s.(clusters := s.clusters[name := s.built], built := s.built + 1,
         job := if s.registered == 0 then None else Some(Job(s.built, 0, s.registered)))
    case DiscoverApply(ok) =>
      var pair := (s.job.value.instance, s.job.value.next);
      s.(job := Advance(s.job.value),
         applied := if ok then s.applied + multiset{pair} else s.applied,
         missed := if ok then s.missed else s.missed + {pair})
    case Remove(name) => s.(clusters := s.clusters - {name})
  }

  predicate Possible(s: State, es: seq<Event>)
    decreases |es|
  {
    es == [] || (Enabled(s, es[0]) && Possible(Step(s, es[0]), es[1..]))
  }

  function Run(s: State, es: seq<Event>): State
    requires Possible(s, es)
    decreases |es|
  {
    if es == [] then s else Run(Step(s, es[0]), es[1..])
  }

  // ---------- Who still owes an index call ----------

  predicate CallerOwes(s: State, i: nat, j: nat) { j in s.callers && i in s.callers[j] }

  predicate JobOwes(s: State, i: nat, j: nat) {
    s.job.Some? && s.job.value.instance == i && s.job.value.next <= j < s.job.value.upto
  }

  /** The pair has been served, is owed by exactly one side, or was missed. */
  predicate PairOk(s: State, i: nat, j: nat) {
    && s.applied[(i, j)] <= 1
    && (CallerOwes(s, i, j) ==> s.applied[(i, j)] == 0 && !JobOwes(s, i, j))
    && (JobOwes(s, i, j) ==> s.applied[(i, j)] == 0)
    && (s.registered <= j || s.built <= i ==> s.applied[(i, j)] == 0 && !CallerOwes(s, i, j) && !JobOwes(s, i, j))
    && (i in s.clusters.Values && j < s.registered ==>
          s.applied[(i, j)] == 1 || CallerOwes(s, i, j) || JobOwes(s, i, j) || (i, j) in s.missed)
  }

  ghost predicate Inv(s: State) {
    && (forall i: nat, j: nat :: PairOk(s, i, j))
    && (forall n :: n in s.clusters ==> s.clusters[n] < s.built)
    && (s.job.Some? ==> s.job.value.next < s.job.value.upto <= s.registered && s.job.value.instance < s.built)
  }

  lemma PairKept(s: State, e: Event, i: nat, j: nat)
    requires Inv(s) && Enabled(s, e)
    ensures PairOk(Step(s, e), i, j)
  {
    var t := Step(s, e);
    assert PairOk(s, i, j);
    match e {
      case Register => assert i in t.clusters.Values <==> i in s.clusters.Values;
      case CallerApply(j', i', ok) =>
        if ok { assert t.applied[(i, j)] == s.applied[(i, j)] + if (i, j) == (i', j') then 1 else 0; }
      case CallerReturn(_) =>
      case Insert(name) =>
        if i in t.clusters.Values && i != s.built {
          var n :| n in t.clusters && t.clusters[n] == i;
          assert n in s.clusters && s.clusters[n] == i;
        }
      case DiscoverApply(ok) =>
        var pair := (s.job.value.instance, s.job.value.next);
        if ok { assert t.applied[(i, j)] == s.applied[(i, j)] + if (i, j) == pair then 1 else 0; }
      case Remove(name) =>
        if i in t.clusters.Values {
          var n :| n in t.clusters && t.clusters[n] == i;
          assert n in s.clusters && s.clusters[n] == i;
        }
    }
  }

  lemma StepKeeps(s: State, e: Event)
    requires Inv(s) && Enabled(s, e)
    ensures Inv(Step(s, e))
  {
    forall i: nat, j: nat ensures PairOk(Step(s, e), i, j) { PairKept(s, e, i, j); }
  }

  lemma {:induction false} RunKeeps(s: State, es: seq<Event>)
    requires Inv(s) && Possible(s, es)
    ensures Inv(Run(s, es))
    decreases |es|
  {
    if es != [] {
      StepKeeps(s, es[0]);
      RunKeeps(Step(s, es[0]), es[1..]);
    }
  }

  /** Over every interleaving each registration is applied to each cluster
      instance at most once; and once both sides have returned, every engaged
      instance has had every registration exactly once, unless a call for that
      very pair failed or was given up. */
  lemma ExactlyOnce(es: seq<Event>, i: nat, j: nat)
    requires Possible(INITIAL, es)
    ensures var s := Run(INITIAL, es);
            && s.applied[(i, j)] <= 1
            && (i in s.clusters.Values && j < s.registered && s.job == None && j !in s.callers && (i, j) !in s.missed
                ==> s.applied[(i, j)] == 1)
  {
    InitialOk();
    RunKeeps(INITIAL, es);
    assert PairOk(Run(INITIAL, es), i, j);
  }

  lemma InitialOk()
    ensures Inv(INITIAL)
  {
  }

  /** Failed calls are the only way to miss a pair. */
  lemma {:induction false} NothingMissed(s: State, es: seq<Event>)
    requires Possible(s, es)
    requires forall k :: 0 <= k < |es| ==> ((es[k].CallerApply? || es[k].DiscoverApply?) ==> es[k].ok)
    ensures Run(s, es).missed == s.missed
    decreases |es|
  {
    if es != [] { NothingMissed(Step(s, es[0]), es[1..]); }
  }
}
