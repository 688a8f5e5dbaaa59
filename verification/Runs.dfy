/** Reachability by runs of any state machine: `next` gives the state an event
    leads to, if it may happen. */
module Runs {
  import opened Options

  ghost predicate Leads<S(!new), E(!new)>(next: (S, E) -> Option<S>, s: S, es: seq<E>, t: S)
    decreases |es|
  {
    if es == [] then s == t else next(s, es[0]).Some? && Leads(next, next(s, es[0]).value, es[1..], t)
  }

  ghost predicate Reaches<S(!new), E(!new)>(next: (S, E) -> Option<S>, s: S, t: S) {
    exists es: seq<E> :: Leads(next, s, es, t)
  }

  lemma ReachesItself<S(!new), E(!new)>(next: (S, E) -> Option<S>, s: S)
    ensures Reaches(next, s, s)
  {
    assert Leads(next, s, [], s);
  }

  lemma {:induction false} LeadsFar<S(!new), E(!new)>(next: (S, E) -> Option<S>, s: S, es: seq<E>, t: S, fs: seq<E>,
                                      u: S)
    requires Leads(next, s, es, t) && Leads(next, t, fs, u)
    ensures Leads(next, s, es + fs, u)
    decreases |es|
  {
    if es == [] {
      assert es + fs == fs;
    } else {
      assert (es + fs)[1..] == es[1..] + fs;
      LeadsFar(next, next(s, es[0]).value, es[1..], t, fs, u);
    }
  }

  lemma ReachesFar<S(!new), E(!new)>(next: (S, E) -> Option<S>, s: S, t: S, u: S)
    requires Reaches(next, s, t) && Reaches(next, t, u)
    ensures Reaches(next, s, u)
  {
    var es: seq<E> :| Leads(next, s, es, t);
    var fs: seq<E> :| Leads(next, t, fs, u);
    LeadsFar(next, s, es, t, fs, u);
  }

  lemma ReachesNext<S(!new), E(!new)>(next: (S, E) -> Option<S>, s: S, t: S, e: E, u: S)
    requires Reaches(next, s, t) && next(t, e) == Some(u)
    ensures Reaches(next, s, u)
  {
    assert Leads(next, u, [], u);
    assert Leads(next, t, [e], u);
    ReachesFar(next, s, t, u);
  }

  /** What every event keeps, every run keeps. */
  lemma {:induction false} LeadsKeeps<S(!new), E(!new)>(next: (S, E) -> Option<S>, inv: S -> bool, s: S, es: seq<E>,
                                        t: S)
    requires inv(s) && Leads(next, s, es, t)
    requires forall u, e :: inv(u) && next(u, e).Some? ==> inv(next(u, e).value)
    ensures inv(t)
    decreases |es|
  {
    if es != [] { LeadsKeeps(next, inv, next(s, es[0]).value, es[1..], t); }
  }

  lemma ReachesKeeps<S(!new), E(!new)>(next: (S, E) -> Option<S>, inv: S -> bool, s: S, t: S)
    requires inv(s) && Reaches(next, s, t)
    requires forall u, e :: inv(u) && next(u, e).Some? ==> inv(next(u, e).value)
    ensures inv(t)
  {
    var es: seq<E> :| Leads(next, s, es, t);
    LeadsKeeps(next, inv, s, es, t);
  }
}
