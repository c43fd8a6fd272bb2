// Names made unique by a numeric suffix, `name_2`, `name_3`, ...: the pattern
// shared by child objects, pool materials and the objects of an OBJ file.
module Names {

  /** The decimal digits of `n`, as `%d` prints a non-negative value. */
  function Decimal(n: nat): (r: string)
    ensures |r| >= 1
    ensures forall i :: 0 <= i < |r| ==> '0' <= r[i] <= '9'
  {
    if n < 10 then [Digit(n)] else Decimal(n / 10) + [Digit(n % 10)]
  }

  function Digit(d: nat): (c: char)
    requires d < 10
    ensures '0' <= c <= '9'
  {
    ['0', '1', '2', '3', '4', '5', '6', '7', '8', '9'][d]
  }

  lemma DigitInjective(a: nat, b: nat)
    requires a < 10 && b < 10 && Digit(a) == Digit(b)
    ensures a == b
  {
  }

  /** Numbers of ten or more print at least two digits. */
  lemma DecimalLong(n: nat)
    requires n >= 10
    ensures |Decimal(n)| >= 2
  {
  }

  /** Different numbers print differently. */
  lemma {:induction false} DecimalInjective(a: nat, b: nat)
    requires Decimal(a) == Decimal(b)
    ensures a == b
  {
    if a < 10 && b < 10 {
      DigitInjective(a, b);
    } else if a < 10 {
      DecimalLong(b);
    } else if b < 10 {
      DecimalLong(a);
    } else {
      var da, db := Decimal(a / 10), Decimal(b / 10);
      assert Decimal(a) == da + [Digit(a % 10)];
      assert Decimal(b) == db + [Digit(b % 10)];
      assert |da| == |db|;
      assert da == Decimal(a)[..|da|] == Decimal(b)[..|db|] == db;
      assert Digit(a % 10) == Decimal(a)[|da|] == Decimal(b)[|db|] == Digit(b % 10);
      DecimalInjective(a / 10, b / 10);
      DigitInjective(a % 10, b % 10);
    }
  }

  /** `name` followed by `_k`. */
  function Suffixed(name: string, k: nat): string
  {
    name + "_" + Decimal(k)
  }

  lemma SuffixedInjective(name: string, a: nat, b: nat)
    requires Suffixed(name, a) == Suffixed(name, b)
    ensures a == b
  {
    var p := |name| + 1;
    assert Decimal(a) == Suffixed(name, a)[p..] == Suffixed(name, b)[p..] == Decimal(b);
    DecimalInjective(a, b);
  }

  /** `k` is the first suffix from 2 on whose name is not taken. */
  predicate FirstFree(taken: set<string>, name: string, k: nat)
  {
    k >= 2 && Suffixed(name, k) !in taken && forall i :: 2 <= i < k ==> Suffixed(name, i) in taken
  }

  /** The names `name_from`, `name_from+1`, ... that are taken, for the termination of the search. */
  ghost function TakenFrom(taken: set<string>, name: string, from: nat): (r: set<string>)
    ensures r <= taken
  {
    set s | s in taken && exists j :: j >= from && s == Suffixed(name, j)
  }

  /** Taking the next suffix leaves one taken name fewer to meet, while the current one is taken. */
  lemma TakenFromShrinks(taken: set<string>, name: string, k: nat)
    requires Suffixed(name, k) in taken
    ensures TakenFrom(taken, name, k + 1) < TakenFrom(taken, name, k)
  {
    var s := Suffixed(name, k);
    assert s in TakenFrom(taken, name, k);
    if s in TakenFrom(taken, name, k + 1) {
      var j :| j >= k + 1 && s == Suffixed(name, j);
      SuffixedInjective(name, j, k);
    }
  }

  /** There is only one first free suffix. */
  lemma FirstFreeUnique(taken: set<string>, name: string, a: nat, b: nat)
    requires FirstFree(taken, name, a) && FirstFree(taken, name, b)
    ensures a == b
  {
  }

  /** The unique name: the name itself when free, else the first free suffixed name. */
  ghost predicate UniqueNameOf(taken: set<string>, name: string, r: string)
  {
    if name !in taken then r == name else exists k :: FirstFree(taken, name, k) && r == Suffixed(name, k)
  }

  /** The unique name is free. */
  lemma UniqueNameIsFree(taken: set<string>, name: string, r: string)
    requires UniqueNameOf(taken, name, r)
    ensures r !in taken
  {
  }

  /** The first free suffix from `k` on, when every suffix from 2 below `k` is taken. */
  function SuffixFrom(taken: set<string>, name: string, k: nat): (r: nat)
    requires k >= 2 && forall i :: 2 <= i < k ==> Suffixed(name, i) in taken
    ensures FirstFree(taken, name, r)
    decreases TakenFrom(taken, name, k)
  {
    if Suffixed(name, k) !in taken then k
    else
      TakenFromShrinks(taken, name, k);
      SuffixFrom(taken, name, k + 1)
  }

  /** The unique name, computed: every finite set of names leaves a free suffix. */
  function UniqueName(taken: set<string>, name: string): (r: string)
    ensures UniqueNameOf(taken, name, r) && r !in taken
  {
    if name !in taken then name else Suffixed(name, SuffixFrom(taken, name, 2))
  }

  /** There is only one unique name. */
  lemma UniqueNameOfIsFunctional(taken: set<string>, name: string, r: string)
    requires UniqueNameOf(taken, name, r)
    ensures r == UniqueName(taken, name)
  {
    if name in taken {
      var k :| FirstFree(taken, name, k) && r == Suffixed(name, k);
      FirstFreeUnique(taken, name, k, SuffixFrom(taken, name, 2));
    }
  }
}
