/**
  The mock module's two operations: `factorial`, guarded to 0..20 and computed
  by a multiplying loop, and `sum_list`, a left-to-right fold that rejects an
  empty array and any NaN element.
 */
module NumericEngine {
  import opened Errors

  /** 20!, the largest factorial the module accepts to compute. */
  const MaxFactorial: nat := 2432902008176640000

  /** The mathematical factorial, the reference the loop is proved against. */
  function Fact(n: nat): nat
  {
    if n == 0 then 1 else n * Fact(n - 1)
  }

  /** lo * (lo + 1) * ... * hi, and 1 when the range is empty. */
  function Product(lo: int, hi: int): int
    decreases hi - lo
  {
    if hi < lo then 1 else Product(lo, hi - 1) * hi
  }

  /** Multiplying 2..n is the factorial, for every n >= 0 (0! = 1! = 1). */
  lemma {:induction false} ProductIsFact(n: nat)
    ensures Product(2, n) == Fact(n)
  {
    if n >= 2 {
      ProductIsFact(n - 1);
    }
  }

  /** Factorials grow: every k! with k <= n is between 1 and n!. */
  lemma {:induction false} FactMonotone(k: nat, n: nat)
    requires k <= n
    ensures 1 <= Fact(k) <= Fact(n)
  {
    if k < n {
      FactMonotone(k, n - 1);
    } else if n > 0 {
      FactMonotone(n - 1, n - 1);
    }
  }

  /** Every factorial the module computes lies in 1..20!. */
  lemma FactBounds(n: nat)
    requires n <= 20
    ensures 1 <= Fact(n) <= MaxFactorial
  {
    FactMonotone(n, 20);
    assert Fact(1) == 1;
    assert Fact(2) == 2;
    assert Fact(3) == 6;
    assert Fact(4) == 24;
    assert Fact(5) == 120;
    assert Fact(6) == 720;
    assert Fact(7) == 5040;
    assert Fact(8) == 40320;
    assert Fact(9) == 362880;
    assert Fact(10) == 3628800;
    assert Fact(11) == 39916800;
    assert Fact(12) == 479001600;
    assert Fact(13) == 6227020800;
    assert Fact(14) == 87178291200;
    assert Fact(15) == 1307674368000;
    assert Fact(16) == 20922789888000;
    assert Fact(17) == 355687428096000;
    assert Fact(18) == 6402373705728000;
    assert Fact(19) == 121645100408832000;
    assert Fact(20) == 2432902008176640000;
  }

  /**
    The value form of the method `Factorial` below, for use in functions and
    lemmas: what `factorial` returns or throws. It is not a separate operation.
   */
  function FactorialOutcome(n: int): Result<nat>
  {
    if n < 0 then Err(NegativeInput)
    else if n > 20 then Err(InputTooLarge)
    else Ok(Fact(n))
  }

  /**
    The guarded factorial: the negative check runs first, then the upper
    bound, then `result` is multiplied by 2, 3, ..., n.
   */
  method Factorial(n: int) returns (r: Result<nat>)
    ensures n < 0 ==> r == Err(NegativeInput)
    ensures n > 20 ==> r == Err(InputTooLarge)
    ensures 0 <= n <= 20 ==> r == Ok(Fact(n))
    ensures r.Ok? ==> 1 <= r.value <= MaxFactorial
    ensures r == FactorialOutcome(n)
  {
    if n < 0 {
      return Err(NegativeInput);
    }
    if n > 20 {
      return Err(InputTooLarge);
    }
    var result: nat := 1;
    var i := 2;
    while i <= n
      invariant 2 <= i <= if n < 2 then 2 else n + 1
      invariant result == Product(2, i - 1)
    {
      result := result * i;
      i := i + 1;
    }
    ProductIsFact(n);
    FactBounds(n);
    r := Ok(result);
  }

  /** A JavaScript number as `sum_list` sees it: NaN or a numeric value. */
  datatype Number = NaN | Num(value: real)

  /** The array handed to `sum_list` when the values are already numbers. */
  function Numbers(xs: seq<real>): (a: seq<Number>)
    ensures |a| == |xs|
    ensures forall i :: 0 <= i < |xs| ==> a[i] == Num(xs[i])
  {
    if xs == [] then [] else [Num(xs[0])] + Numbers(xs[1..])
  }

  /** The sum of a sequence, accumulated from the left: ((x0 + x1) + x2) + ... */
  function Total(xs: seq<real>): real
  {
    if xs == [] then 0.0 else Total(xs[..|xs| - 1]) + xs[|xs| - 1]
  }

  /** Peeling the first element off a left-accumulated sum. */
  lemma {:induction false} TotalFront(xs: seq<real>)
    requires xs != []
    ensures Total(xs) == xs[0] + Total(xs[1..])
  {
    if |xs| > 1 {
      var init := xs[..|xs| - 1];
      TotalFront(init);
      assert init[1..] == xs[1..][..|xs[1..]| - 1];
    }
  }

  /** The callback of `reduce`: stops at the first NaN, otherwise adds. */
  function Reduce(a: seq<Number>, acc: real): Result<real>
  {
    if a == [] then Ok(acc)
    else if a[0].NaN? then Err(NonNumericValue)
    else Reduce(a[1..], acc + a[0].value)
  }

  /** `sum_list`: an empty array is rejected, otherwise the fold starts at 0. */
  function SumList(a: seq<Number>): Result<real>
  {
    if |a| == 0 then Err(EmptyArray) else Reduce(a, 0.0)
  }

  /** Folding numeric values from `acc` adds their left-to-right sum to `acc`. */
  lemma {:induction false} ReduceNumbers(xs: seq<real>, acc: real)
    ensures Reduce(Numbers(xs), acc) == Ok(acc + Total(xs))
  {
    if xs != [] {
      ReduceNumbers(xs[1..], acc + xs[0]);
      assert Numbers(xs)[1..] == Numbers(xs[1..]);
      TotalFront(xs);
    }
  }

  /** The fold fails exactly when some element is NaN. */
  lemma {:induction false} ReduceFailsOnNaN(a: seq<Number>, acc: real)
    ensures Reduce(a, acc).Err? <==> exists i :: 0 <= i < |a| && a[i].NaN?
    ensures Reduce(a, acc).Err? ==> Reduce(a, acc).error == NonNumericValue
  {
    if a != [] && a[0].Num? {
      ReduceFailsOnNaN(a[1..], acc + a[0].value);
      if exists i :: 0 <= i < |a| && a[i].NaN? {
        var i :| 0 <= i < |a| && a[i].NaN?;
        assert a[1..][i - 1].NaN?;
      }
    }
  }

  /**
    `sum_list` characterised: EmptyArray on an empty array, NonNumericValue
    when any element is NaN, and otherwise the left-to-right sum.
   */
  lemma SumListSpec(a: seq<Number>)
    ensures |a| == 0 ==> SumList(a) == Err(EmptyArray)
    ensures |a| > 0 && (exists i :: 0 <= i < |a| && a[i].NaN?) ==> SumList(a) == Err(NonNumericValue)
    ensures |a| > 0 && (forall i :: 0 <= i < |a| ==> a[i].Num?) ==> SumList(a).Ok?
  {
    if |a| > 0 {
      ReduceFailsOnNaN(a, 0.0);
    }
  }

  /** On the numbers of a non-empty list, `sum_list` returns their sum. */
  lemma SumListOfNumbers(xs: seq<real>)
    ensures xs == [] ==> SumList(Numbers(xs)) == Err(EmptyArray)
    ensures xs != [] ==> SumList(Numbers(xs)) == Ok(Total(xs))
  {
    ReduceNumbers(xs, 0.0);
  }

  /** `sum_list` on the numbers 1.0, 2.0, 3.0 returns 6.0. */
  lemma SampleSum()
    ensures SumList(Numbers([1.0, 2.0, 3.0])) == Ok(6.0)
  {
    var xs := [1.0, 2.0, 3.0];
    assert xs[..2] == [1.0, 2.0];
    assert xs[..2][..1] == [1.0];
    assert xs[..2][..1][..0] == [];
    SumListOfNumbers(xs);
  }
}
