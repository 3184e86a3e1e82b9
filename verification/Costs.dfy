/** What minimising the weighted objective means for the selected candidate. */
module Costs {
  import opened Basics
  import opened Order
  import opened Contracts

  ghost predicate Valued(terms: seq<Term>, values: map<string, real>) {
    forall t :: t in terms ==> t.name in values && 0.0 <= values[t.name] <= 1.0 && t.weight >= 0.0
  }

  lemma ProductBounds(w: real, v: real)
    requires w >= 0.0 && 0.0 <= v <= 1.0
    ensures 0.0 <= w * v <= w
  {
  }

  lemma ValuedTail(terms: seq<Term>, values: map<string, real>)
    requires Valued(terms, values) && terms != []
    ensures Valued(terms[1..], values)
    ensures terms[0].name in values && 0.0 <= values[terms[0].name] <= 1.0 && terms[0].weight >= 0.0
  {
    assert terms[0] in terms;
  }

  lemma FirstShare(terms: seq<Term>, values: map<string, real>)
    requires Valued(terms, values) && terms != []
    ensures Valued(terms[1..], values) && terms[0].name in values
    ensures WeightedSum(terms, values) == Share(terms[0], values) + WeightedSum(terms[1..], values)
  {
    ValuedTail(terms, values);
    hide Share;
  }

  lemma ShareBounds(t: Term, values: map<string, real>)
    requires t.name in values && 0.0 <= values[t.name] <= 1.0 && t.weight >= 0.0
    ensures 0.0 <= Share(t, values) <= t.weight
  {
    ProductBounds(t.weight, values[t.name]);
  }

  lemma SumStep(terms: seq<Term>, values: map<string, real>)
    requires Valued(terms, values) && terms != []
    ensures Valued(terms[1..], values)
    ensures 0.0 <= WeightedSum(terms, values) - WeightedSum(terms[1..], values) <= terms[0].weight
  {
    hide WeightedSum, Share;
    ValuedTail(terms, values);
    FirstShare(terms, values);
    ShareBounds(terms[0], values);
  }

  lemma {:induction false} SumBounds(terms: seq<Term>, values: map<string, real>)
    requires Valued(terms, values)
    ensures 0.0 <= WeightedSum(terms, values) <= TotalWeight(terms)
  {
    if terms != [] {
      ValuedTail(terms, values);
      SumBounds(terms[1..], values);
      SumStep(terms, values);
    }
  }

  lemma CostMeaning(o: Objective, c: Candidate)
    requires ValidObjective(o) && ValidCandidate(c) && Cost(o, c).Some?
    ensures Valued(o.terms, c.objectiveValues)
    ensures Cost(o, c).value == WeightedSum(o.terms, c.objectiveValues)
  {
    forall t | t in o.terms ensures t.name in c.objectiveValues {
      var i :| 0 <= i < |o.terms| && o.terms[i] == t;
      assert Map(TermName, o.terms)[i] == t.name;
    }
  }

  /** Costs are normalised up to the tolerance that the weights are allowed. */
  lemma CostBounds(o: Objective, c: Candidate)
    requires ValidObjective(o) && ValidCandidate(c) && Cost(o, c).Some?
    ensures 0.0 <= Cost(o, c).value <= 1.000000001
  {
    CostMeaning(o, c);
    SumBounds(o.terms, c.objectiveValues);
  }

  // ----- The order of the terms does not matter -----

  lemma WithoutTail<T>(xs: seq<T>, i: nat)
    requires 0 < i < |xs|
    ensures var rest := xs[..i] + xs[i + 1..]; rest[0] == xs[0] && rest[1..] == xs[1..][..i - 1] + xs[1..][i..]
  {
  }

  lemma {:induction false} SumWithout(terms: seq<Term>, i: nat, values: map<string, real>)
    requires i < |terms| && forall t :: t in terms ==> t.name in values
    ensures WeightedSum(terms, values)
         == Share(terms[i], values) + WeightedSum(terms[..i] + terms[i + 1..], values)
  {
    hide Share;
    if i == 0 {
      assert terms[..i] + terms[i + 1..] == terms[1..];
    } else {
      SumWithout(terms[1..], i - 1, values);
      WithoutTail(terms, i);
    }
  }

  lemma {:induction false} SumPermuted(a: seq<Term>, b: seq<Term>, values: map<string, real>)
    requires multiset(a) == multiset(b) && forall t :: t in a || t in b ==> t.name in values
    ensures WeightedSum(a, values) == WeightedSum(b, values)
  {
    hide Share;
    if a == [] {
      MultisetMembers(a, b);
    } else {
      var i := TakeOutHead(a, b);
      var rest := b[..i] + b[i + 1..];
      assert forall t :: t in a[1..] ==> t in a;
      assert forall t :: t in rest ==> t in b;
      SumPermuted(a[1..], rest, values);
      SumWithout(b, i, values);
    }
  }

  /** Listing the same terms in another order prices every candidate the same. */
  lemma CostIgnoresTermOrder(o: Objective, o': Objective, c: Candidate)
    requires ValidObjective(o) && ValidObjective(o') && ValidCandidate(c)
    requires multiset(o.terms) == multiset(o'.terms)
    ensures Cost(o, c) == Cost(o', c)
  {
    forall x | x in Map(TermName, o.terms) ensures x in Map(TermName, o'.terms) {
      NamesPermuted(o.terms, o'.terms, x);
    }
    forall x | x in Map(TermName, o'.terms) ensures x in Map(TermName, o.terms) {
      NamesPermuted(o'.terms, o.terms, x);
    }
    assert Elements(Map(TermName, o.terms)) == Elements(Map(TermName, o'.terms));
    if Cost(o, c).Some? {
      CostMeaning(o, c);
      CostMeaning(o', c);
      SumPermuted(o.terms, o'.terms, c.objectiveValues);
    }
  }

  lemma NamesPermuted(a: seq<Term>, b: seq<Term>, x: string)
    requires multiset(a) == multiset(b) && x in Map(TermName, a)
    ensures x in Map(TermName, b)
  {
    var i :| 0 <= i < |a| && Map(TermName, a)[i] == x;
    assert a[i] in multiset(b);
    var j :| 0 <= j < |b| && b[j] == a[i];
    assert Map(TermName, b)[j] == x;
  }

  // ----- The selected candidate is undominated -----

  /** At most equal on every term, and strictly smaller on one that carries weight. */
  ghost predicate Dominates(o: Objective, c: Candidate, d: Candidate) {
    && c.objectiveValues.Keys == d.objectiveValues.Keys
    && (forall name :: name in c.objectiveValues ==> c.objectiveValues[name] <= d.objectiveValues[name])
    && exists t :: t in o.terms && t.weight > 0.0 && t.name in c.objectiveValues
                   && c.objectiveValues[t.name] < d.objectiveValues[t.name]
  }

  lemma ProductMonotone(w: real, u: real, v: real)
    requires w >= 0.0 && u <= v
    ensures w * u <= w * v
    ensures w > 0.0 && u < v ==> w * u < w * v
  {
  }

  ghost predicate NowhereDearer(terms: seq<Term>, low: map<string, real>, high: map<string, real>) {
    && Valued(terms, low) && Valued(terms, high)
    && forall t :: t in terms ==> Share(t, low) <= Share(t, high)
  }

  lemma {:induction false} SumMonotone(terms: seq<Term>, low: map<string, real>, high: map<string, real>)
    requires NowhereDearer(terms, low, high)
    ensures WeightedSum(terms, low) <= WeightedSum(terms, high)
    ensures (exists t :: t in terms && Share(t, low) < Share(t, high))
         ==> WeightedSum(terms, low) < WeightedSum(terms, high)
  {
    hide Share;
    if terms != [] {
      assert terms[0] in terms;
      assert forall t :: t in terms[1..] ==> t in terms;
      assert forall t :: t in terms ==> t == terms[0] || t in terms[1..];
      SumMonotone(terms[1..], low, high);
    }
  }

  lemma ShareMonotone(t: Term, low: map<string, real>, high: map<string, real>)
    requires t.weight >= 0.0 && t.name in low && t.name in high && low[t.name] <= high[t.name]
    ensures Share(t, low) <= Share(t, high)
    ensures t.weight > 0.0 && low[t.name] < high[t.name] ==> Share(t, low) < Share(t, high)
  {
    ProductMonotone(t.weight, low[t.name], high[t.name]);
  }

  lemma DominatingIsCheaper(o: Objective, c: Candidate, d: Candidate)
    requires ValidObjective(o) && ValidCandidate(c) && ValidCandidate(d)
    requires Cost(o, c).Some? && Cost(o, d).Some? && Dominates(o, c, d)
    ensures Cost(o, c).value < Cost(o, d).value
  {
    hide Share;
    CostMeaning(o, c);
    CostMeaning(o, d);
    hide Cost;
    forall t | t in o.terms
      ensures Share(t, c.objectiveValues) <= Share(t, d.objectiveValues)
      ensures t.weight > 0.0 && c.objectiveValues[t.name] < d.objectiveValues[t.name]
          ==> Share(t, c.objectiveValues) < Share(t, d.objectiveValues)
    {
      ShareMonotone(t, c.objectiveValues, d.objectiveValues);
    }
    SumMonotone(o.terms, c.objectiveValues, d.objectiveValues);
  }

  /** No candidate of a coherent package dominates the selected one. */
  lemma SelectedIsUndominated(p: Package, c: Candidate)
    requires Coherent(p) && ValidObjective(p.objective)
    requires forall d :: d in p.candidates ==> ValidCandidate(d)
    requires c in p.candidates
    ensures !Dominates(p.objective, c, Selected(p.candidates, p.selectedId))
  {
    var selected := Selected(p.candidates, p.selectedId);
    if Dominates(p.objective, c, selected) {
      DominatingIsCheaper(p.objective, c, selected);
      assert false;
    }
  }
}
