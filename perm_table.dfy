/** The permutation table: the list range(size) twice over, shuffled after
    reseeding the random generator from the seed. */
module PermTable {
  import opened Arith

  /** The random source after `random.seed(seed)`: `gen(seed, k)` is the k-th
      number it yields. Only its being a function of (seed, k) matters here. */
  type Generator = (real, nat) -> nat

  /** `list(range(n))`: 0, 1, ..., n - 1, and empty when n <= 0. */
  function Range(n: int): (r: seq<int>)
    ensures |r| == if n <= 0 then 0 else n
    ensures forall k :: 0 <= k < |r| ==> r[k] == k
  {
    if n <= 0 then [] else seq(n, k => k)
  }

  /** `[x for x in range(n)] * 2`, the table before it is shuffled. */
  function Doubled(n: int): (r: seq<int>)
    ensures |r| == if n <= 0 then 0 else 2 * n
  {
    Range(n) + Range(n)
  }

  /** Exchange the elements at positions i and j (`x[i], x[j] = x[j], x[i]`):
      each of the two receives the other's element and every other position
      keeps its own. */
  function Swap(s: seq<int>, i: nat, j: nat): (r: seq<int>)
    requires i < |s| && j < |s|
    ensures |r| == |s|
    ensures r[i] == s[j] && r[j] == s[i]
    ensures forall k :: 0 <= k < |s| && k != i && k != j ==> r[k] == s[k]
  {
    s[i := s[j]][j := s[i]]
  }

  /** v reduced below m by repeated subtraction. */
  function Remainder(v: nat, m: nat): (r: nat)
    requires m > 0
    ensures r < m
    decreases v
  {
    if v < m then v else Remainder(v - m, m)
  }

  /** The reduction is the remainder of v divided by m. */
  lemma {:induction false} RemainderIsMod(v: nat, m: nat)
    requires m > 0
    ensures Remainder(v, m) == v % m
    decreases v
  {
    if v >= m {
      RemainderIsMod(v - m, m);
      ModShift(v - m, m);
    }
  }

  /** The partner of position i, chosen by the k-th draw: `randbelow(i + 1)`,
      the draw taken modulo i + 1. */
  function SwapIndex(gen: Generator, seed: real, k: nat, i: nat): (j: nat)
    ensures j <= i
  {
    Remainder(gen(seed, k), i + 1)
  }

  /** Fisher-Yates steps for positions i, i - 1, ..., 1, the way
      `random.shuffle` walks the list: the step at position i uses the draw
      numbered |s| - 1 - i and swaps i with an index no larger than i. */
  function ShuffleFrom(s: seq<int>, gen: Generator, seed: real, i: nat): (r: seq<int>)
    requires i < |s|
    ensures |r| == |s|
    decreases i
  {
    if i == 0 then s
    else ShuffleFrom(Swap(s, i, SwapIndex(gen, seed, |s| - 1 - i, i)), gen, seed, i - 1)
  }

  lemma SwapPermutes(s: seq<int>, i: nat, j: nat)
    requires i < |s| && j < |s|
    ensures multiset(Swap(s, i, j)) == multiset(s)
  {
  }

  /** One Fisher-Yates step: position i is swapped with its partner, then the
      positions below it are shuffled. */
  lemma ShuffleStep(s: seq<int>, gen: Generator, seed: real, i: nat, j: nat)
    requires 0 < i < |s| && j == SwapIndex(gen, seed, |s| - 1 - i, i)
    ensures ShuffleFrom(s, gen, seed, i) == ShuffleFrom(Swap(s, i, j), gen, seed, i - 1)
  {
  }

  /** `random.shuffle(s)` on a freshly seeded generator. */
  function Shuffle(s: seq<int>, gen: Generator, seed: real): (r: seq<int>)
    ensures |r| == |s|
  {
    if |s| == 0 then s else ShuffleFrom(s, gen, seed, |s| - 1)
  }

  /** `random.shuffle(x)` right after reseeding: the Fisher-Yates loop from
      the last position down to 1, each position swapped with the partner
      its draw picks. The list is a sequence value that each swap replaces. */
  method ShuffleLoop(x: seq<int>, gen: Generator, seed: real) returns (r: seq<int>)
    ensures r == Shuffle(x, gen, seed)
  {
    r := x;
    ghost var target := Shuffle(x, gen, seed);
    var n := |r|;
    if n > 0 {
      var i: nat := n - 1;
      while i > 0
        invariant i < |r| == n
        invariant ShuffleFrom(r, gen, seed, i) == target
        decreases i
      {
        var j := SwapIndex(gen, seed, n - 1 - i, i);
        var next := Swap(r, i, j);
        assert ShuffleFrom(next, gen, seed, i - 1) == target by {
          ShuffleStep(r, gen, seed, i, j);
        }
        r := next;
        i := i - 1;
      }
    }
  }

  /** The table `make_permutation_table` builds for (size, seed), twice as
      long as `range(size)`. */
  function Table(size: int, seed: real, gen: Generator): (t: seq<int>)
    ensures |t| == if size <= 0 then 0 else 2 * size
  {
    Shuffle(Doubled(size), gen, seed)
  }

  /** The shuffle only rearranges: it keeps every element with its count. */
  lemma {:induction false} ShuffleFromPermutes(s: seq<int>, gen: Generator, seed: real, i: nat)
    requires i < |s|
    ensures multiset(ShuffleFrom(s, gen, seed, i)) == multiset(s)
    decreases i
  {
    if i > 0 {
      var j := SwapIndex(gen, seed, |s| - 1 - i, i);
      var t := Swap(s, i, j);
      SwapPermutes(s, i, j);
      ShuffleFromPermutes(t, gen, seed, i - 1);
    }
  }

  lemma ShufflePermutes(s: seq<int>, gen: Generator, seed: real)
    ensures multiset(Shuffle(s, gen, seed)) == multiset(s)
  {
    if |s| > 0 {
      ShuffleFromPermutes(s, gen, seed, |s| - 1);
    }
  }

  /** Every value of [0, n) occurs once in `range(n)`, and nothing else. */
  lemma {:induction false} RangeCount(n: int, v: int)
    ensures multiset(Range(n))[v] == if 0 <= v < n then 1 else 0
    decreases if n <= 0 then 0 else n
  {
    if n > 0 {
      RangeCount(n - 1, v);
      var r := Range(n - 1);
      assert Range(n) == r + [n - 1];
      assert multiset(r + [n - 1]) == multiset(r) + multiset{n - 1};
    }
  }

  /** Every value of [0, size) occurs exactly twice before the shuffle, and
      nothing else occurs. */
  lemma DoubledCount(n: int, v: int)
    ensures multiset(Doubled(n))[v] == if 0 <= v < n then 2 else 0
  {
    RangeCount(n, v);
  }

  /** The shape of the table: length 2 * size, every value of [0, size)
      exactly twice, and no value outside [0, size). */
  lemma TableShape(size: int, seed: real, gen: Generator)
    ensures |Table(size, seed, gen)| == if size <= 0 then 0 else 2 * size
    ensures forall v :: multiset(Table(size, seed, gen))[v] == if 0 <= v < size then 2 else 0
    ensures forall k :: 0 <= k < |Table(size, seed, gen)| ==> 0 <= Table(size, seed, gen)[k] < size
  {
    var t := Table(size, seed, gen);
    ShufflePermutes(Doubled(size), gen, seed);
    forall v ensures multiset(t)[v] == if 0 <= v < size then 2 else 0 {
      DoubledCount(size, v);
    }
    forall k | 0 <= k < |t| ensures 0 <= t[k] < size {
      assert t[k] in multiset(t);
      DoubledCount(size, t[k]);
    }
  }

  /** The generator's state when the table is built is fixed by the seed alone:
      rebuilding for the same (size, seed) yields the same table whatever
      table was there before, and a different seed may only change the table
      through different draws. */
  lemma {:induction false} ShuffleUsesOnlyItsDraws(s: seq<int>, gen1: Generator, gen2: Generator,
                                                 seed1: real, seed2: real, i: nat)
    requires i < |s|
    requires forall k: nat :: k + 1 < |s| ==> gen1(seed1, k) == gen2(seed2, k)
    ensures ShuffleFrom(s, gen1, seed1, i) == ShuffleFrom(s, gen2, seed2, i)
    decreases i
  {
    if i > 0 {
      var j := SwapIndex(gen1, seed1, |s| - 1 - i, i);
      assert j == SwapIndex(gen2, seed2, |s| - 1 - i, i);
      ShuffleUsesOnlyItsDraws(Swap(s, i, j), gen1, gen2, seed1, seed2, i - 1);
    }
  }

  /** Two seeds whose first 2 * size - 1 draws agree build the same table (the
      positions 2 * size - 1 down to 1 take one draw each): the table is a
      function of the size and of the reseeded draw sequence only. */
  lemma TableDependsOnlyOnDraws(size: int, gen1: Generator, gen2: Generator, seed1: real, seed2: real)
    requires forall k: nat :: k + 1 < |Doubled(size)| ==> gen1(seed1, k) == gen2(seed2, k)
    ensures Table(size, seed1, gen1) == Table(size, seed2, gen2)
  {
    var s := Doubled(size);
    if |s| > 0 {
      ShuffleUsesOnlyItsDraws(s, gen1, gen2, seed1, seed2, |s| - 1);
    }
  }

  class PermutationTable {
    var size: int
    var seed: real
    var P: seq<int>

    constructor ()
      ensures size == 25 && seed == 2023.0 && P == []
    {
      size := 25;
      seed := 2023.0;
      P := [];
    }

    /** Reseed, build range(size) twice over and shuffle it in place. The new
        table replaces the old one and does not depend on it. */
    method MakePermutationTable(gen: Generator)
      modifies this`P
      ensures P == Table(size, seed, gen)
      ensures multiset(P) == multiset(Doubled(size))
      ensures |P| == if size <= 0 then 0 else 2 * size
      ensures forall v :: multiset(P)[v] == if 0 <= v < size then 2 else 0
    {
      P := ShuffleLoop(Doubled(size), gen, seed);
      ShufflePermutes(Doubled(size), gen, seed);
      TableShape(size, seed, gen);
    }

    method SetSize(size: int)
      modifies this`size
      ensures this.size == size
    {
      this.size := size;
    }

    method SetSeed(seed: real)
      modifies this`seed
      ensures this.seed == seed
    {
      this.seed := seed;
    }

    method GetP() returns (p: seq<int>)
      ensures p == P
    {
      p := P;
    }

    method GetSeed() returns (s: real)
      ensures s == seed
    {
      s := seed;
    }

    method GetSize() returns (n: int)
      ensures n == size
    {
      n := size;
    }
  }

  /** Build, reconfigure the seed away and back, and build again: the two
      tables agree bit for bit, because reseeding restarts the draws. */
  method RebuildReproduces(t: PermutationTable, gen: Generator, other: real)
    returns (first: seq<int>, again: seq<int>)
    modifies t
    ensures first == again == t.P == Table(t.size, t.seed, gen)
    ensures t.size == old(t.size) && t.seed == old(t.seed)
  {
    var s := t.GetSeed();
    t.MakePermutationTable(gen);
    first := t.GetP();
    t.SetSeed(other);
    t.MakePermutationTable(gen);
    t.SetSeed(s);
    t.MakePermutationTable(gen);
    again := t.GetP();
  }
}
