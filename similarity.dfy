/**
 * The structure of the scanner's cosine similarity: the three accumulators over the
 * union of the two vectors' terms, absent terms read as 0, and the zero-magnitude
 * guard. The TF-IDF weights come from a library and are inputs here; the square
 * root is an oracle.
 */
module Similarity {

  /** A term vector: term -> TF-IDF weight (a JavaScript object used as a dictionary). */
  type TermVector = map<string, real>

  /** vec[term] || 0: a term a vector does not mention weighs 0. */
  function Weight(v: TermVector, t: string): (w: real)
    ensures t !in v ==> w == 0.0
    ensures t in v ==> w == v[t]
  {
    if t in v then v[t] else 0.0
  }

  /** The sum of f over a finite set of terms. */
  ghost function Sum(terms: set<string>, f: string -> real): real
    decreases terms
  {
    if terms == {} then 0.0
    else
      var t :| t in terms;
      f(t) + Sum(terms - {t}, f)
  }

  /** Multiplication of two weights. */
  function Mul(x: real, y: real): real {
    x * y
  }

  /** The per-term contribution a[t] * b[t] the accumulators add up. */
  function Product(a: TermVector, b: TermVector): string -> real {
    t => Mul(Weight(a, t), Weight(b, t))
  }

  /** A dot product (or a squared magnitude when a == b) over `terms`. */
  ghost function SumProducts(terms: set<string>, a: TermVector, b: TermVector): real {
    Sum(terms, Product(a, b))
  }

  /** The squared magnitude of a vector, over its own terms. */
  ghost function Magnitude2(v: TermVector): real {
    SumProducts(v.Keys, v, v)
  }

  /** A sum over a set may be split at any of its elements, not only the one the definition picks. */
  lemma {:induction false} SumPick(terms: set<string>, f: string -> real, y: string)
    requires y in terms
    ensures Sum(terms, f) == f(y) + Sum(terms - {y}, f)
    decreases terms
  {
    var x :| x in terms && Sum(terms, f) == f(x) + Sum(terms - {x}, f);
    if x != y {
      assert terms - {x} - {y} == terms - {y} - {x};
      SumPick(terms - {x}, f, y);
      SumPick(terms - {y}, f, x);
    }
  }

  /** Terms on which f is 0 may be added to a sum without changing it. */
  lemma {:induction false} SumExtraZeros(small: set<string>, big: set<string>, f: string -> real)
    requires small <= big
    requires forall t :: t in big - small ==> f(t) == 0.0
    ensures Sum(big, f) == Sum(small, f)
    decreases big
  {
    if big != small {
      assert small < big;
      var t :| t in big && t !in small;
      SumPick(big, f, t);
      assert small <= big - {t};
      SumExtraZeros(small, big - {t}, f);
    }
  }

  /**
   * A sum of non-negative values is never negative; it is 0 when every value is 0
   * and positive as soon as one value is positive.
   */
  lemma {:induction false} SumNonNegative(terms: set<string>, f: string -> real)
    requires forall t :: t in terms ==> f(t) >= 0.0
    ensures Sum(terms, f) >= 0.0
    ensures (forall t :: t in terms ==> f(t) == 0.0) ==> Sum(terms, f) == 0.0
    ensures (exists t :: t in terms && f(t) > 0.0) ==> Sum(terms, f) > 0.0
    decreases terms
  {
    if terms != {} {
      var t :| t in terms;
      SumPick(terms, f, t);
      SumNonNegative(terms - {t}, f);
      if y :| y in terms && f(y) > 0.0 {
        if y != t {
          assert y in terms - {t};
        }
      }
    }
  }

  /** Two weights of the same sign have a positive product (so a non-zero weight has a positive square). */
  lemma SameSignProduct(x: real, y: real)
    requires (x > 0.0 && y > 0.0) || (x < 0.0 && y < 0.0)
    ensures Mul(x, y) > 0.0
  {
    if x < 0.0 {
      assert (-x) * (-y) > 0.0;
      assert x * y == (-x) * (-y);
    }
  }

  /** A squared magnitude is never negative, and it is 0 exactly when every weight is 0. */
  lemma MagnitudeZeroIff(v: TermVector)
    ensures Magnitude2(v) >= 0.0
    ensures Magnitude2(v) == 0.0 <==> forall t :: t in v ==> v[t] == 0.0
  {
    var f := Product(v, v);
    forall t ensures f(t) >= 0.0 && (Weight(v, t) == 0.0 ==> f(t) == 0.0) && (Weight(v, t) != 0.0 ==> f(t) > 0.0) {
      if Weight(v, t) != 0.0 {
        SameSignProduct(Weight(v, t), Weight(v, t));
      }
    }
    SumNonNegative(v.Keys, f);
    if t :| t in v && v[t] != 0.0 {
      assert f(t) > 0.0;
    }
  }

  /** One step of the accumulation loop: adding a new term adds its product. */
  lemma AccumulateStep(done: set<string>, term: string, a: TermVector, b: TermVector)
    requires term !in done
    ensures SumProducts(done + {term}, a, b) == SumProducts(done, a, b) + Product(a, b)(term)
  {
    assert (done + {term}) - {term} == done;
    SumPick(done + {term}, Product(a, b), term);
  }

  /**
   * Over the union of terms, absent terms contribute 0: the dot product only sees
   * the shared terms, and each magnitude only its own vector's terms.
   */
  lemma UnionSums(v1: TermVector, v2: TermVector)
    ensures SumProducts(v1.Keys + v2.Keys, v1, v2) == SumProducts(v1.Keys * v2.Keys, v1, v2)
    ensures SumProducts(v1.Keys + v2.Keys, v1, v1) == Magnitude2(v1)
    ensures SumProducts(v1.Keys + v2.Keys, v2, v2) == Magnitude2(v2)
  {
    SumExtraZeros(v1.Keys * v2.Keys, v1.Keys + v2.Keys, Product(v1, v2));
    SumExtraZeros(v1.Keys, v1.Keys + v2.Keys, Product(v1, v1));
    SumExtraZeros(v2.Keys, v1.Keys + v2.Keys, Product(v2, v2));
  }

  /**
   * cosineSimilarity: accumulate the dot product and both squared magnitudes over
   * every term of either vector, return 0 when either magnitude is 0, and otherwise
   * dot / (sqrt(mag1) * sqrt(mag2)) with `root` standing for Math.sqrt.
   */
  method CosineSimilarity(v1: TermVector, v2: TermVector, root: real -> real) returns (r: real)
    requires forall x :: x > 0.0 ==> root(x) > 0.0
    ensures Magnitude2(v1) == 0.0 || Magnitude2(v2) == 0.0 ==> r == 0.0
    ensures Magnitude2(v1) > 0.0 && Magnitude2(v2) > 0.0 ==>
      r == SumProducts(v1.Keys * v2.Keys, v1, v2) / Mul(root(Magnitude2(v1)), root(Magnitude2(v2)))
  {
    var allTerms := v1.Keys + v2.Keys;
    var dotProduct, mag1, mag2 := 0.0, 0.0, 0.0;
    var rest := allTerms;
    while rest != {}
      invariant rest <= allTerms
      invariant dotProduct == SumProducts(allTerms - rest, v1, v2)
      invariant mag1 == SumProducts(allTerms - rest, v1, v1)
      invariant mag2 == SumProducts(allTerms - rest, v2, v2)
      decreases rest
    {
      var term :| term in rest;
      var val1 := Weight(v1, term);
      var val2 := Weight(v2, term);
      ghost var done := allTerms - rest;
      AccumulateStep(done, term, v1, v2);
      AccumulateStep(done, term, v1, v1);
      AccumulateStep(done, term, v2, v2);
      dotProduct := dotProduct + Mul(val1, val2);
      mag1 := mag1 + Mul(val1, val1);
      mag2 := mag2 + Mul(val2, val2);
      rest := rest - {term};
      assert allTerms - rest == done + {term};
    }
    assert allTerms - rest == allTerms;
    UnionSums(v1, v2);
    MagnitudeZeroIff(v1);
    MagnitudeZeroIff(v2);
    if mag1 == 0.0 || mag2 == 0.0 {
      return 0.0;
    }
    SameSignProduct(root(mag1), root(mag2));
    r := dotProduct / Mul(root(mag1), root(mag2));
  }
}
