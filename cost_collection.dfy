/** `CostCollection<COST>`: cost terms stored by name, with the summed value
    and the summed quadratic approximation of the terms that are active.
    The library instantiates the template for state-input terms and for
    state-only terms; the two classes below are those two instantiations. */
module CostCollection {
  import opened LinAlg
  import opened Approximation
  import opened CostTerms

  const DuplicateNameMessage := "[CostCollection::add] Cost name already exists"

  // ---------------------------------------------------------------------------
  // Sums over a name-indexed map. The order in which std::map visits the
  // names does not matter: any order gives the same sum (SumOfPick, QuadSumPick).

  ghost function SumOf<K>(m: map<K, real>): real
    decreases m.Keys
  {
    if m == map[] then 0.0
    else
      var k :| k in m;
      m[k] + SumOf(m - {k})
  }

  /** The sum may be split at any element. */
  lemma {:induction false} SumOfPick<K>(m: map<K, real>, k: K)
    requires k in m
    ensures SumOf(m) == m[k] + SumOf(m - {k})
    decreases m.Keys
  {
    var j :| j in m && SumOf(m) == m[j] + SumOf(m - {j});
    if j != k {
      SumOfPick(m - {j}, k);
      SumOfPick(m - {k}, j);
      assert (m - {j}) - {k} == (m - {k}) - {j};
    }
  }

  /** All approximations in `m` have dimensions (nx, nu). */
  ghost predicate AllShaped<K>(m: map<K, ScalarQuad>, nx: nat, nu: nat) {
    forall k :: k in m ==> QuadShape(m[k], nx, nu)
  }

  ghost function QuadSum<K>(m: map<K, ScalarQuad>, nx: nat, nu: nat): (r: ScalarQuad)
    requires AllShaped(m, nx, nu)
    ensures QuadShape(r, nx, nu)
    decreases m.Keys
  {
    if m == map[] then ZeroQuad(nx, nu)
    else
      var k :| k in m;
      QuadAdd(m[k], QuadSum(m - {k}, nx, nu), nx, nu)
  }

  lemma {:induction false} QuadSumPick<K>(m: map<K, ScalarQuad>, nx: nat, nu: nat, k: K)
    requires AllShaped(m, nx, nu) && k in m
    ensures QuadSum(m, nx, nu) == QuadAdd(m[k], QuadSum(m - {k}, nx, nu), nx, nu)
    decreases m.Keys
  {
    var j :| j in m && QuadSum(m, nx, nu) == QuadAdd(m[j], QuadSum(m - {j}, nx, nu), nx, nu);
    if j != k {
      var rest := (m - {j}) - {k};
      assert rest == (m - {k}) - {j};
      var s := QuadSum(rest, nx, nu);
      QuadSumPick(m - {j}, nx, nu, k);
      QuadSumPick(m - {k}, nx, nu, j);
      QuadAddAssociates(m[j], m[k], s, nx, nu);
      QuadAddAssociates(m[k], m[j], s, nx, nu);
      QuadAddCommutes(m[j], m[k], nx, nu);
    }
  }

  /** A step of the accumulation loop: moving one addend from the remaining
      sum into the accumulator keeps the total. */
  lemma QuadAccumulateStep<K>(acc: ScalarQuad, m: map<K, ScalarQuad>, k: K, nx: nat, nu: nat)
    requires QuadShape(acc, nx, nu) && AllShaped(m, nx, nu) && k in m
    ensures QuadAdd(acc, QuadSum(m, nx, nu), nx, nu)
         == QuadAdd(QuadAdd(acc, m[k], nx, nu), QuadSum(m - {k}, nx, nu), nx, nu)
  {
    QuadSumPick(m, nx, nu, k);
    QuadAddAssociates(acc, m[k], QuadSum(m - {k}, nx, nu), nx, nu);
  }

  /** Moving the entry of `k`, if there is one, from the remaining sum into
      the accumulator keeps the total and the shapes. */
  lemma QuadSumStep<K>(acc: ScalarQuad, m: map<K, ScalarQuad>, k: K, nx: nat, nu: nat, total: ScalarQuad)
    requires QuadShape(acc, nx, nu) && AllShaped(m, nx, nu)
    requires QuadAdd(acc, QuadSum(m, nx, nu), nx, nu) == total
    ensures AllShaped(m - {k}, nx, nu)
    ensures var acc' := if k in m then QuadAdd(acc, m[k], nx, nu) else acc;
            QuadShape(acc', nx, nu) && QuadAdd(acc', QuadSum(m - {k}, nx, nu), nx, nu) == total
  {
    if k in m {
      QuadAccumulateStep(acc, m, k, nx, nu);
    } else {
      assert m - {k} == m;
    }
  }

  /** The accumulator starts from zero and ends with nothing left to add. */
  lemma QuadAccumulateEnds(acc: ScalarQuad, nx: nat, nu: nat)
    requires QuadShape(acc, nx, nu)
    ensures QuadAdd(acc, ZeroQuad(nx, nu), nx, nu) == acc
  {
    QuadAddCommutes(acc, ZeroQuad(nx, nu), nx, nu);
    QuadAddZero(acc, nx, nu);
  }

  /** No two names share a term: each term is owned (held by unique_ptr) by one name. */
  ghost predicate Owned<T>(terms: map<string, T>) {
    forall a, b :: a in terms && b in terms && a != b ==> terms[a] != terms[b]
  }

  /** Accumulating the state part of `a` into `acc` (lines adding f, dfdx and
      dfdxx only) is adding an approximation whose input derivatives are empty. */
  lemma StateAccumulate(acc: ScalarQuad, a: ScalarQuad, nx: nat)
    requires QuadShape(acc, nx, 0) && |a.dfdx| == nx && IsMat(a.dfdxx, nx, nx)
    ensures QuadShape(StatePart(a), nx, 0)
    ensures ScalarQuad(acc.f + a.f, VAdd(acc.dfdx, a.dfdx), acc.dfdu, MAdd(acc.dfdxx, a.dfdxx), acc.dfduu, acc.dfdux)
         == QuadAdd(acc, StatePart(a), nx, 0)
  {
    assert acc.dfdu == [] && acc.dfduu == [] && acc.dfdux == [];
  }

  // ---------------------------------------------------------------------------

  /** The values of the active terms among `names`. */
  ghost function ActiveInputValues(terms: map<string, StateInputCost>, names: set<string>, t: real, x: Vector, u: Vector): map<string, real>
    reads terms.Values
  {
    map n | n in names && n in terms && terms[n].active :: terms[n].value(t, x, u)
  }

  /** The approximations of the active terms among `names`. */
  ghost function ActiveInputApproximations(terms: map<string, StateInputCost>, names: set<string>, t: real, x: Vector, u: Vector): map<string, ScalarQuad>
    reads terms.Values
  {
    map n | n in names && n in terms && terms[n].active :: terms[n].approx(t, x, u)
  }

  ghost function ActiveStateValues(terms: map<string, StateCost>, names: set<string>, t: real, x: Vector): map<string, real>
    reads terms.Values
  {
    map n | n in names && n in terms && terms[n].active :: terms[n].value(t, x)
  }

  /** The state parts (value, dfdx, dfdxx) of the active terms' approximations. */
  ghost function ActiveStateParts(terms: map<string, StateCost>, names: set<string>, t: real, x: Vector): map<string, ScalarQuad>
    reads terms.Values
  {
    map n | n in names && n in terms && terms[n].active :: StatePart(terms[n].approx(t, x))
  }

  /** One step of the state-input accumulation loop: adding term `n` (if it is
      active) to `acc` and dropping `n` from the names left keeps the total. */
  lemma InputApproximationStep(terms: map<string, StateInputCost>, remaining: set<string>, n: string,
                               t: real, x: Vector, u: Vector, acc: ScalarQuad, total: ScalarQuad)
    requires n in remaining && remaining <= terms.Keys
    requires forall k :: k in terms && terms[k].active ==> QuadShape(terms[k].approx(t, x, u), |x|, |u|)
    requires QuadShape(acc, |x|, |u|)
    requires QuadAdd(acc, QuadSum(ActiveInputApproximations(terms, remaining, t, x, u), |x|, |u|), |x|, |u|) == total
    ensures var acc' := if terms[n].active then QuadAdd(acc, terms[n].approx(t, x, u), |x|, |u|) else acc;
            QuadShape(acc', |x|, |u|) &&
            QuadAdd(acc', QuadSum(ActiveInputApproximations(terms, remaining - {n}, t, x, u), |x|, |u|), |x|, |u|) == total
  {
    assert ActiveInputApproximations(terms, remaining - {n}, t, x, u)
        == ActiveInputApproximations(terms, remaining, t, x, u) - {n};
    QuadSumStep(acc, ActiveInputApproximations(terms, remaining, t, x, u), n, |x|, |u|, total);
  }

  /** The state parts of active terms whose derivatives have |x| states are
      approximations of |x| states and no inputs. */
  lemma StatePartsShaped(terms: map<string, StateCost>, names: set<string>, t: real, x: Vector)
    requires forall k :: k in terms && terms[k].active ==>
               |terms[k].approx(t, x).dfdx| == |x| && IsMat(terms[k].approx(t, x).dfdxx, |x|, |x|)
    ensures AllShaped(ActiveStateParts(terms, names, t, x), |x|, 0)
  {
    var m := ActiveStateParts(terms, names, t, x);
    forall k | k in m ensures QuadShape(m[k], |x|, 0) {
      var a := terms[k].approx(t, x);
      assert |a.dfdx| == |x| && IsMat(a.dfdxx, |x|, |x|);
      assert m[k] == ScalarQuad(a.f, a.dfdx, [], a.dfdxx, [], []);
    }
  }

  /** Dropping a name from those summed drops its entry, if any. */
  lemma StatePartsRemove(terms: map<string, StateCost>, names: set<string>, n: string, t: real, x: Vector)
    ensures ActiveStateParts(terms, names - {n}, t, x) == ActiveStateParts(terms, names, t, x) - {n}
  {
  }

  /** One step of the state-only accumulation loop: adding the state part of
      term `n` (if it is active) to `acc` and dropping `n` keeps the total. */
  lemma StatePartStep(terms: map<string, StateCost>, remaining: set<string>, n: string,
                      t: real, x: Vector, acc: ScalarQuad, total: ScalarQuad)
    requires QuadShape(acc, |x|, 0)
    requires AllShaped(ActiveStateParts(terms, remaining, t, x), |x|, 0)
    requires QuadAdd(acc, QuadSum(ActiveStateParts(terms, remaining, t, x), |x|, 0), |x|, 0) == total
    ensures AllShaped(ActiveStateParts(terms, remaining - {n}, t, x), |x|, 0)
    ensures n in remaining && n in terms && terms[n].active ==> QuadShape(StatePart(terms[n].approx(t, x)), |x|, 0)
    ensures var acc' := if n in remaining && n in terms && terms[n].active
                        then QuadAdd(acc, StatePart(terms[n].approx(t, x)), |x|, 0) else acc;
            QuadShape(acc', |x|, 0) &&
            QuadAdd(acc', QuadSum(ActiveStateParts(terms, remaining - {n}, t, x), |x|, 0), |x|, 0) == total
  {
    StatePartsRemove(terms, remaining, n, t, x);
    QuadSumStep(acc, ActiveStateParts(terms, remaining, t, x), n, |x|, 0, total);
  }

  // ---------------------------------------------------------------------------

  /** `StateInputCostCollection`, i.e. `CostCollection<StateInputCost>`. */
  class StateInputCostCollection {
    /** `costTermMap_`: each name owns its own term. */
    var terms: map<string, StateInputCost>

    /** Terms are owned (held by unique_ptr): no two names share a term. */
    ghost predicate Valid()
      reads this
    {
      Owned(terms)
    }

    ghost function ActiveValues(names: set<string>, t: real, x: Vector, u: Vector): map<string, real>
      reads this, terms.Values
    {
      ActiveInputValues(terms, names, t, x, u)
    }

    ghost function ActiveApproximations(names: set<string>, t: real, x: Vector, u: Vector): map<string, ScalarQuad>
      reads this, terms.Values
    {
      ActiveInputApproximations(terms, names, t, x, u)
    }

    /** The summed value the collection stands for at (t, x, u). */
    ghost function TotalValue(t: real, x: Vector, u: Vector): real
      reads this, terms.Values
    {
      SumOf(ActiveValues(terms.Keys, t, x, u))
    }

    /** Every active term approximates a function of |x| states and |u| inputs. */
    ghost predicate ActiveShaped(t: real, x: Vector, u: Vector)
      reads this, terms.Values
    {
      forall n :: n in terms && terms[n].active ==> QuadShape(terms[n].approx(t, x, u), |x|, |u|)
    }

    /** A new collection is empty. */
    constructor ()
      ensures Valid() && terms == map[]
    {
      terms := map[];
    }

    /** The move constructor takes over the map; the moved-from collection is left empty. */
    constructor Move(rhs: StateInputCostCollection)
      modifies rhs
      ensures Valid() == old(rhs.Valid())
      ensures terms == old(rhs.terms) && rhs.terms == map[]
      ensures forall t, x, u :: TotalValue(t, x, u) == old(rhs.TotalValue(t, x, u))
    {
      terms := rhs.terms;
      rhs.terms := map[];
    }

    /** The copy constructor: every term of `rhs` cloned under its own name. */
    constructor Copy(rhs: StateInputCostCollection)
      ensures Valid()
      ensures terms.Keys == rhs.terms.Keys
      ensures forall n :: n in terms ==>
        fresh(terms[n]) && terms[n].active == rhs.terms[n].active &&
        terms[n].value == rhs.terms[n].value && terms[n].approx == rhs.terms[n].approx
    {
      terms := map[];
      new;
      var remaining := rhs.terms.Keys;
      while remaining != {}
        invariant remaining <= rhs.terms.Keys
        invariant terms.Keys == rhs.terms.Keys - remaining
        invariant Valid()
        invariant forall n :: n in terms ==>
          fresh(terms[n]) && terms[n].active == rhs.terms[n].active &&
          terms[n].value == rhs.terms[n].value && terms[n].approx == rhs.terms[n].approx
        decreases remaining
      {
        var n :| n in remaining;
        var c := rhs.terms[n].Clone();
        var outcome := Add(n, c);
        assert outcome == Pass;
        remaining := remaining - {n};
      }
    }

    /** The move assignment: takes over the map of `rhs`, which is left empty. */
    method MoveAssign(rhs: StateInputCostCollection)
      requires rhs != this
      modifies this, rhs
      ensures terms == old(rhs.terms) && rhs.terms == map[]
      ensures forall t, x, u :: TotalValue(t, x, u) == old(rhs.TotalValue(t, x, u))
    {
      terms := rhs.terms;
      rhs.terms := map[];
    }

    /** `add`: a fresh name is inserted; an existing name throws and leaves
        the collection as it was. */
    method Add(name: string, term: StateInputCost) returns (outcome: Outcome)
      requires Valid() && term !in terms.Values
      modifies this
      ensures Valid()
      ensures name !in old(terms) ==> outcome == Pass && terms == old(terms)[name := term]
      ensures name in old(terms) ==>
        outcome == Throw(RuntimeError(DuplicateNameMessage)) && terms == old(terms)
    {
      if name in terms {
        outcome := Throw(RuntimeError(DuplicateNameMessage));
      } else {
        terms := terms[name := term];
        outcome := Pass;
      }
    }

    /** `get`: the term stored under `name`, or `out_of_range`. */
    method Get(name: string) returns (r: Result<StateInputCost>)
      ensures name in terms <==> r.Ok?
      ensures r.Ok? ==> r.value == terms[name]
      ensures r.Err? ==> r.error.OutOfRange?
    {
      if name in terms {
        r := Ok(terms[name]);
      } else {
        r := Err(OutOfRange("map::at"));
      }
    }

    /** `getValue`: the sum of the values of the active terms. */
    method GetValue(t: real, x: Vector, u: Vector) returns (cost: real)
      ensures cost == TotalValue(t, x, u)
    {
      cost := 0.0;
      var remaining := terms.Keys;
      while remaining != {}
        invariant remaining <= terms.Keys
        invariant cost + SumOf(ActiveValues(remaining, t, x, u)) == TotalValue(t, x, u)
        decreases remaining
      {
        var n :| n in remaining;
        var m := ActiveValues(remaining, t, x, u);
        if terms[n].IsActive() {
          SumOfPick(m, n);
          assert m - {n} == ActiveValues(remaining - {n}, t, x, u);
          cost := cost + terms[n].value(t, x, u);
        } else {
          assert m == ActiveValues(remaining - {n}, t, x, u);
        }
        remaining := remaining - {n};
      }
      assert ActiveValues({}, t, x, u) == map[];
    }

    /** `getQuadraticApproximation`: the zero approximation of dimensions
        (|x|, |u|) plus the approximation of every active term. */
    method GetQuadraticApproximation(t: real, x: Vector, u: Vector) returns (cost: ScalarQuad)
      requires ActiveShaped(t, x, u)
      ensures QuadShape(cost, |x|, |u|)
      ensures cost == QuadSum(ActiveApproximations(terms.Keys, t, x, u), |x|, |u|)
    {
      var nx, nu := |x|, |u|;
      cost := ZeroQuad(nx, nu);
      ghost var total := QuadSum(ActiveApproximations(terms.Keys, t, x, u), nx, nu);
      QuadAddZero(total, nx, nu);
      var remaining := terms.Keys;
      while remaining != {}
        invariant remaining <= terms.Keys
        invariant QuadShape(cost, nx, nu)
        invariant QuadAdd(cost, QuadSum(ActiveApproximations(remaining, t, x, u), nx, nu), nx, nu) == total
        decreases remaining
      {
        var n :| n in remaining;
        InputApproximationStep(terms, remaining, n, t, x, u, cost, total);
        if terms[n].IsActive() {
          cost := QuadAdd(cost, terms[n].approx(t, x, u), nx, nu);
        }
        remaining := remaining - {n};
      }
      assert ActiveApproximations({}, t, x, u) == map[];
      QuadAccumulateEnds(cost, nx, nu);
    }
  }

  /** A collection whose terms are all inactive sums to zero (an empty one too). */
  lemma InactiveCollectionSumsToZero(c: StateInputCostCollection, t: real, x: Vector, u: Vector)
    requires forall n :: n in c.terms ==> !c.terms[n].active
    ensures c.TotalValue(t, x, u) == 0.0
  {
    assert c.ActiveValues(c.terms.Keys, t, x, u) == map[];
  }

  /** A collection of one active term sums to that term's value and its
      approximation is that term's approximation. */
  lemma SingleActiveTerm(c: StateInputCostCollection, name: string, t: real, x: Vector, u: Vector)
    requires c.terms.Keys == {name} && c.terms[name].active
    requires QuadShape(c.terms[name].approx(t, x, u), |x|, |u|)
    ensures c.TotalValue(t, x, u) == c.terms[name].value(t, x, u)
    ensures QuadSum(c.ActiveApproximations(c.terms.Keys, t, x, u), |x|, |u|) == c.terms[name].approx(t, x, u)
  {
    var m := c.ActiveValues(c.terms.Keys, t, x, u);
    SumOfPick(m, name);
    assert m - {name} == map[];
    var q := c.ActiveApproximations(c.terms.Keys, t, x, u);
    var a := c.terms[name].approx(t, x, u);
    QuadSumPick(q, |x|, |u|, name);
    assert q - {name} == map[];
    QuadAccumulateEnds(a, |x|, |u|);
  }

  // ---------------------------------------------------------------------------

  /** `StateCostCollection`, i.e. `CostCollection<StateCost>`. */
  class StateCostCollection {
    var terms: map<string, StateCost>

    ghost predicate Valid()
      reads this
    {
      Owned(terms)
    }

    ghost function ActiveValues(names: set<string>, t: real, x: Vector): map<string, real>
      reads this, terms.Values
    {
      ActiveStateValues(terms, names, t, x)
    }

    ghost function ActiveParts(names: set<string>, t: real, x: Vector): map<string, ScalarQuad>
      reads this, terms.Values
    {
      ActiveStateParts(terms, names, t, x)
    }

    ghost function TotalValue(t: real, x: Vector): real
      reads this, terms.Values
    {
      SumOf(ActiveValues(terms.Keys, t, x))
    }

    /** Every active term has a state gradient of length |x| and an |x|-by-|x| Hessian. */
    ghost predicate ActiveShaped(t: real, x: Vector)
      reads this, terms.Values
    {
      forall n :: n in terms && terms[n].active ==>
        |terms[n].approx(t, x).dfdx| == |x| && IsMat(terms[n].approx(t, x).dfdxx, |x|, |x|)
    }

    constructor ()
      ensures Valid() && terms == map[]
    {
      terms := map[];
    }

    constructor Move(rhs: StateCostCollection)
      modifies rhs
      ensures Valid() == old(rhs.Valid())
      ensures terms == old(rhs.terms) && rhs.terms == map[]
      ensures forall t, x :: TotalValue(t, x) == old(rhs.TotalValue(t, x))
    {
      terms := rhs.terms;
      rhs.terms := map[];
    }

    constructor Copy(rhs: StateCostCollection)
      ensures Valid()
      ensures terms.Keys == rhs.terms.Keys
      ensures forall n :: n in terms ==>
        fresh(terms[n]) && terms[n].active == rhs.terms[n].active &&
        terms[n].value == rhs.terms[n].value && terms[n].approx == rhs.terms[n].approx
    {
      terms := map[];
      new;
      var remaining := rhs.terms.Keys;
      while remaining != {}
        invariant remaining <= rhs.terms.Keys
        invariant terms.Keys == rhs.terms.Keys - remaining
        invariant Valid()
        invariant forall n :: n in terms ==>
          fresh(terms[n]) && terms[n].active == rhs.terms[n].active &&
          terms[n].value == rhs.terms[n].value && terms[n].approx == rhs.terms[n].approx
        decreases remaining
      {
        var n :| n in remaining;
        var c := rhs.terms[n].Clone();
        var outcome := Add(n, c);
        assert outcome == Pass;
        remaining := remaining - {n};
      }
    }

    method Add(name: string, term: StateCost) returns (outcome: Outcome)
      requires Valid() && term !in terms.Values
      modifies this
      ensures Valid()
      ensures name !in old(terms) ==> outcome == Pass && terms == old(terms)[name := term]
      ensures name in old(terms) ==>
        outcome == Throw(RuntimeError(DuplicateNameMessage)) && terms == old(terms)
    {
      if name in terms {
        outcome := Throw(RuntimeError(DuplicateNameMessage));
      } else {
        terms := terms[name := term];
        outcome := Pass;
      }
    }

    /** `getValue` of the state-only collection: the sum over the active terms. */
    method GetValue(t: real, x: Vector) returns (cost: real)
      ensures cost == TotalValue(t, x)
    {
      cost := 0.0;
      var remaining := terms.Keys;
      while remaining != {}
        invariant remaining <= terms.Keys
        invariant cost + SumOf(ActiveValues(remaining, t, x)) == TotalValue(t, x)
        decreases remaining
      {
        var n :| n in remaining;
        var m := ActiveValues(remaining, t, x);
        if terms[n].IsActive() {
          SumOfPick(m, n);
          assert m - {n} == ActiveValues(remaining - {n}, t, x);
          cost := cost + terms[n].value(t, x);
        } else {
          assert m == ActiveValues(remaining - {n}, t, x);
        }
        remaining := remaining - {n};
      }
      assert ActiveValues({}, t, x) == map[];
    }

    /** `getQuadraticApproximation` of the state-only collection: only f,
        dfdx and dfdxx are zero-initialised and accumulated; the input
        derivatives stay empty. */
    method GetQuadraticApproximation(t: real, x: Vector) returns (cost: ScalarQuad)
      requires ActiveShaped(t, x)
      ensures cost.dfdu == [] && cost.dfduu == [] && cost.dfdux == []
      ensures |cost.dfdx| == |x| && IsMat(cost.dfdxx, |x|, |x|)
      ensures cost == QuadSum(ActiveParts(terms.Keys, t, x), |x|, 0)
    {
      var nx := |x|;
      cost := ScalarQuad(0.0, Zeros(nx), [], ZeroMat(nx, nx), [], []);
      assert cost == ZeroQuad(nx, 0);
      StatePartsShaped(terms, terms.Keys, t, x);
      ghost var total := QuadSum(ActiveParts(terms.Keys, t, x), nx, 0);
      QuadAddZero(total, nx, 0);
      var remaining := terms.Keys;
      while remaining != {}
        invariant remaining <= terms.Keys
        invariant QuadShape(cost, nx, 0)
        invariant AllShaped(ActiveParts(remaining, t, x), nx, 0)
        invariant QuadAdd(cost, QuadSum(ActiveParts(remaining, t, x), nx, 0), nx, 0) == total
        decreases remaining
      {
        var n :| n in remaining;
        StatePartStep(terms, remaining, n, t, x, cost, total);
        if terms[n].IsActive() {
          var a := terms[n].approx(t, x);
          StateAccumulate(cost, a, nx);
          cost := ScalarQuad(cost.f + a.f, VAdd(cost.dfdx, a.dfdx), cost.dfdu,
                             MAdd(cost.dfdxx, a.dfdxx), cost.dfduu, cost.dfdux);
        }
        remaining := remaining - {n};
      }
      assert ActiveParts({}, t, x) == map[];
      QuadAccumulateEnds(cost, nx, 0);
    }
  }

  /** A state-only collection of one active term sums to that term's value. */
  lemma SingleActiveStateTerm(c: StateCostCollection, name: string, t: real, x: Vector)
    requires c.terms.Keys == {name} && c.terms[name].active
    ensures c.TotalValue(t, x) == c.terms[name].value(t, x)
  {
    var m := c.ActiveValues(c.terms.Keys, t, x);
    SumOfPick(m, name);
    assert m - {name} == map[];
  }
}
