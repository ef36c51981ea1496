/**
  Comparison of dotted numeric version strings such as "2.0.0". A version is
  the sequence of its numeric components; parsing the string is not modelled.
 */
module Versions {

  /** The numeric components of a dotted version string, most significant first. */
  type Version = seq<nat>

  /** Component `i` of `v`; a component past the end counts as 0, so "2" reads as "2.0.0". */
  function Part(v: Version, i: nat): nat {
    if i < |v| then v[i] else 0
  }

  /** `v` without its first component. */
  function Rest(v: Version): Version {
    if v == [] then [] else v[1..]
  }

  /**
    The reference order: the lexicographic comparison of the two component
    sequences after padding the shorter one with zeros. -1, 0 or 1.
   */
  function Compare(a: Version, b: Version): (r: int)
    ensures r == -1 || r == 0 || r == 1
    decreases |a| + |b|
  {
    if a == [] && b == [] then 0
    else if Part(a, 0) < Part(b, 0) then -1
    else if Part(a, 0) > Part(b, 0) then 1
    else Compare(Rest(a), Rest(b))
  }

  /** The components of `a` and `b` agree at every position below `k`. */
  ghost predicate AgreeBelow(a: Version, b: Version, k: nat) {
    forall j: nat :: j < k ==> Part(a, j) == Part(b, j)
  }

  /** `v` with its first `i` components removed. */
  function Drop(v: Version, i: nat): Version {
    if i < |v| then v[i..] else []
  }

  lemma PartRest(v: Version, i: nat)
    ensures Part(Rest(v), i) == Part(v, i + 1)
  {
  }

  lemma DropStep(v: Version, i: nat)
    ensures Part(Drop(v, i), 0) == Part(v, i)
    ensures Rest(Drop(v, i)) == Drop(v, i + 1)
  {
  }

  /**
    `compareVersions(a, b)`: walks the components up to the longer length,
    reading a missing component as 0, and returns at the first difference.
   */
  method CompareVersions(a: Version, b: Version) returns (r: int)
    ensures r == Compare(a, b)
    ensures r == -1 || r == 0 || r == 1
  {
    var n := if |a| < |b| then |b| else |a|;
    var i := 0;
    while i < n
      invariant 0 <= i <= n
      invariant Compare(a, b) == Compare(Drop(a, i), Drop(b, i))
    {
      var aPart := Part(a, i);
      var bPart := Part(b, i);
      DropStep(a, i);
      DropStep(b, i);
      if aPart < bPart {
        return -1;
      }
      if aPart > bPart {
        return 1;
      }
      i := i + 1;
    }
    return 0;
  }

  /** Two versions compare equal exactly when their zero-padded components agree everywhere. */
  lemma {:induction false} CompareZeroIff(a: Version, b: Version)
    ensures Compare(a, b) == 0 <==> forall i: nat :: Part(a, i) == Part(b, i)
    decreases |a| + |b|
  {
    if a == [] && b == [] {
    } else {
      CompareZeroIff(Rest(a), Rest(b));
      if Compare(a, b) == 0 {
        forall i: nat ensures Part(a, i) == Part(b, i) {
          if i > 0 {
            PartRest(a, i - 1);
            PartRest(b, i - 1);
          }
        }
      } else if Part(a, 0) == Part(b, 0) {
        var j: nat :| Part(Rest(a), j) != Part(Rest(b), j);
        PartRest(a, j);
        PartRest(b, j);
      }
    }
  }

  /** Every version is equal to itself. */
  lemma CompareReflexive(a: Version)
    ensures Compare(a, a) == 0
  {
    CompareZeroIff(a, a);
  }

  /** Swapping the arguments negates the answer. */
  lemma {:induction false} CompareAntisymmetric(a: Version, b: Version)
    ensures Compare(a, b) == -Compare(b, a)
    decreases |a| + |b|
  {
    if !(a == [] && b == []) && Part(a, 0) == Part(b, 0) {
      CompareAntisymmetric(Rest(a), Rest(b));
    }
  }

  /** "Not after" is transitive. */
  lemma {:induction false} CompareTransitive(a: Version, b: Version, c: Version)
    requires Compare(a, b) <= 0 && Compare(b, c) <= 0
    ensures Compare(a, c) <= 0
    decreases |a| + |b| + |c|
  {
    if a == [] && b == [] && c == [] {
    } else if Part(a, 0) == Part(b, 0) && Part(b, 0) == Part(c, 0) {
      CompareTransitive(Rest(a), Rest(b), Rest(c));
    }
  }

  lemma {:induction false} LessHasWitness(a: Version, b: Version)
    requires Compare(a, b) < 0
    ensures exists k: nat :: AgreeBelow(a, b, k) && Part(a, k) < Part(b, k)
    decreases |a| + |b|
  {
    if Part(a, 0) < Part(b, 0) {
      assert AgreeBelow(a, b, 0);
    } else {
      LessHasWitness(Rest(a), Rest(b));
      var k: nat :| AgreeBelow(Rest(a), Rest(b), k) && Part(Rest(a), k) < Part(Rest(b), k);
      PartRest(a, k);
      PartRest(b, k);
      forall j: nat | j < k + 1 ensures Part(a, j) == Part(b, j) {
        if j > 0 {
          PartRest(a, j - 1);
          PartRest(b, j - 1);
        }
      }
      assert AgreeBelow(a, b, k + 1);
    }
  }

  lemma {:induction false} WitnessIsLess(a: Version, b: Version, k: nat)
    requires AgreeBelow(a, b, k) && Part(a, k) < Part(b, k)
    ensures Compare(a, b) < 0
    decreases k
  {
    if k > 0 {
      assert Part(a, 0) == Part(b, 0);
      PartRest(a, k - 1);
      PartRest(b, k - 1);
      forall j: nat | j < k - 1 ensures Part(Rest(a), j) == Part(Rest(b), j) {
        PartRest(a, j);
        PartRest(b, j);
      }
      WitnessIsLess(Rest(a), Rest(b), k - 1);
    }
  }

  /** `a` comes before `b` exactly when, at the first position where their padded components differ, `a`'s is smaller. */
  lemma CompareLessIff(a: Version, b: Version)
    ensures Compare(a, b) < 0 <==> exists k: nat :: AgreeBelow(a, b, k) && Part(a, k) < Part(b, k)
  {
    if Compare(a, b) < 0 {
      LessHasWitness(a, b);
    }
    if exists k: nat :: AgreeBelow(a, b, k) && Part(a, k) < Part(b, k) {
      var k: nat :| AgreeBelow(a, b, k) && Part(a, k) < Part(b, k);
      WitnessIsLess(a, b, k);
    }
  }

  /** Only the padded components matter: versions such as "2" and "2.0.0" are interchangeable on either side. */
  lemma ComparePaddedOnly(a: Version, a2: Version, b: Version)
    requires forall i: nat :: Part(a, i) == Part(a2, i)
    ensures Compare(a, b) == Compare(a2, b)
  {
    CompareZeroIff(a, a2);
    CompareAntisymmetric(a, a2);
    CompareAntisymmetric(a, b);
    CompareAntisymmetric(a2, b);
    if Compare(a, b) <= 0 {
      CompareTransitive(a2, a, b);
    }
    if Compare(a2, b) <= 0 {
      CompareTransitive(a, a2, b);
    }
    if Compare(b, a) <= 0 {
      CompareTransitive(b, a, a2);
    }
    if Compare(b, a2) <= 0 {
      CompareTransitive(b, a2, a);
    }
  }

  /** Strictly before, then not after, is strictly before. */
  lemma BelowTransitive(a: Version, b: Version, c: Version)
    requires Compare(a, b) < 0 && Compare(b, c) <= 0
    ensures Compare(a, c) < 0
  {
    CompareTransitive(a, b, c);
    if Compare(a, c) == 0 {
      CompareZeroIff(a, c);
      ComparePaddedOnly(a, c, b);
      CompareAntisymmetric(c, b);
      assert false;
    }
  }
}
