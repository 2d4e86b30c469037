/** Counting the threads whose program counter satisfies a predicate. */
module Counting {

  ghost function Those<P>(m: map<nat, P>, f: P -> bool): set<nat> {
    set t | t in m && f(m[t])
  }

  ghost function Count<P>(m: map<nat, P>, f: P -> bool): nat {
    |Those(m, f)|
  }

  lemma CountPut<P>(m: map<nat, P>, t: nat, p: P, f: P -> bool)
    ensures Count(m[t := p], f)
         == Count(m, f) - (if t in m && f(m[t]) then 1 else 0) + (if f(p) then 1 else 0)
  {
    CountDrop(m, t, f);
    CountDrop(m[t := p], t, f);
    assert m[t := p] - {t} == m - {t};
  }

  lemma CountDrop<P>(m: map<nat, P>, t: nat, f: P -> bool)
    ensures Count(m - {t}, f) == Count(m, f) - (if t in m && f(m[t]) then 1 else 0)
  {
    var a, b := Those(m, f), Those(m - {t}, f);
    if t in m && f(m[t]) {
      assert a == b + {t};
    } else {
      assert a == b;
    }
  }

  lemma CountPositive<P>(m: map<nat, P>, t: nat, f: P -> bool)
    requires t in m && f(m[t])
    ensures Count(m, f) > 0
  {
    assert t in Those(m, f);
  }

  lemma CountZero<P>(m: map<nat, P>, f: P -> bool)
    requires Count(m, f) == 0
    ensures forall t :: t in m ==> !f(m[t])
  {
    forall t | t in m ensures !f(m[t]) {
      if f(m[t]) { CountPositive(m, t, f); }
    }
  }

  lemma CountWitness<P>(m: map<nat, P>, f: P -> bool) returns (t: nat)
    requires Count(m, f) > 0
    ensures t in m && f(m[t])
  {
    t :| t in Those(m, f);
  }

  lemma CountEmpty<P>(f: P -> bool)
    ensures Count(map[], f) == 0
  {
    assert Those(map[], f) == {};
  }
}
