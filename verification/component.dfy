/**
  The UI component: its state fields, the trigger that validates both inputs
  and calls the module, and the two input-change handlers. The JavaScript
  parsers `parseInt` and `parseFloat` are parameters; `None` stands for NaN.
 */
module Component {
  import opened Errors
  import opened NumericEngine
  import opened Validator

  /**
    The outcome of one run of the trigger once the module is loaded: the
    integer field, then the list field, then `factorial`, then `sum_list`,
    and the first of them that fails decides the error.
   */
  function Compute(number: string, list: string,
                   parseInt: string -> Option<int>,
                   parseFloat: string -> Option<real>): Result<(nat, real)>
  {
    match parseInt(number)
    case None => Err(InvalidInteger)
    case Some(n) =>
      match ValidateList(list, parseFloat)
      case Err(e) => Err(e)
      case Ok(values) =>
        match FactorialOutcome(n)
        case Err(e) => Err(e)
        case Ok(fact) =>
          match SumList(Numbers(values))
          case Err(e) => Err(e)
          case Ok(sum) => Ok((fact, sum))
  }

  /**
    The order in which the trigger reports errors: an unparsable integer
    first, then an all-white-space list, then the leftmost unparsable
    segment, then a negative number, then a number above 20; when none of
    these applies, both results are computed.
   */
  lemma ComputePrecedence(number: string, list: string,
                          parseInt: string -> Option<int>,
                          parseFloat: string -> Option<real>)
    ensures parseInt(number).None? ==>
      Compute(number, list, parseInt, parseFloat) == Err(InvalidInteger)
    ensures parseInt(number).Some? && AllWhitespace(list) ==>
      Compute(number, list, parseInt, parseFloat) == Err(EmptyList)
    ensures parseInt(number).Some? && !AllWhitespace(list) ==>
      var segments := Split(Trim(list));
      var k := FirstUnparsable(segments, parseFloat);
      k < |segments| ==>
        Compute(number, list, parseInt, parseFloat) == Err(InvalidValue(Trim(segments[k])))
    ensures parseInt(number).Some? && ValidateList(list, parseFloat).Ok? ==>
      var n := parseInt(number).value;
      var values := ValidateList(list, parseFloat).value;
      && (n < 0 ==> Compute(number, list, parseInt, parseFloat) == Err(NegativeInput))
      && (n > 20 ==> Compute(number, list, parseInt, parseFloat) == Err(InputTooLarge))
      && (0 <= n <= 20 ==> Compute(number, list, parseInt, parseFloat) == Ok((Fact(n), Total(values))))
  {
    ValidateListSpec(list, parseFloat);
    if parseInt(number).Some? && ValidateList(list, parseFloat).Ok? {
      var values := ValidateList(list, parseFloat).value;
      assert values != [];
      SumListOfNumbers(values);
    }
  }

  /**
    The checks that can never fire from the trigger: the list is never found
    to hold no value, and `sum_list` never rejects what validation let
    through.
   */
  lemma ComputeUnreachableErrors(number: string, list: string,
                                 parseInt: string -> Option<int>,
                                 parseFloat: string -> Option<real>)
    ensures Compute(number, list, parseInt, parseFloat) != Err(NoValues)
    ensures Compute(number, list, parseInt, parseFloat) != Err(EmptyArray)
    ensures Compute(number, list, parseInt, parseFloat) != Err(NonNumericValue)
    ensures Compute(number, list, parseInt, parseFloat).Ok? ==>
      1 <= Compute(number, list, parseInt, parseFloat).value.0 <= MaxFactorial
  {
    ValidateListSpec(list, parseFloat);
    if parseInt(number).Some? && ValidateList(list, parseFloat).Ok? {
      var n := parseInt(number).value;
      var values := ValidateList(list, parseFloat).value;
      assert values != [];
      SumListOfNumbers(values);
      if 0 <= n <= 20 {
        FactBounds(n);
      }
    }
  }

  /**
    A successful press: a number n in 0..20 and a list that validates to a
    non-empty `values` give n! and the left-to-right sum of the values.
   */
  lemma ComputeOk(number: string, list: string,
                  parseInt: string -> Option<int>,
                  parseFloat: string -> Option<real>,
                  n: nat, values: seq<real>)
    requires parseInt(number) == Some(n) && n <= 20
    requires ValidateList(list, parseFloat) == Ok(values) && values != []
    ensures Compute(number, list, parseInt, parseFloat) == Ok((Fact(n), Total(values)))
  {
    SumListOfNumbers(values);
  }

  /**
    The starting inputs, number "5" and list "1.0, 2.0, 3.0": with parsers
    that read them, the trigger shows 5! = 120 and the sum 6.0.
   */
  lemma SampleTriggerExample(parseInt: string -> Option<int>, parseFloat: string -> Option<real>)
    requires parseInt("5") == Some(5)
    requires parseFloat("1.0") == Some(1.0)
    requires parseFloat("2.0") == Some(2.0)
    requires parseFloat("3.0") == Some(3.0)
    ensures Compute("5", "1.0, 2.0, 3.0", parseInt, parseFloat) == Ok((120, 6.0))
  {
    SampleListExample(parseFloat);
    SampleSum();
    SumListOfNumbers([1.0, 2.0, 3.0]);
    ComputeOk("5", "1.0, 2.0, 3.0", parseInt, parseFloat, 5, [1.0, 2.0, 3.0]);
    assert Fact(5) == 120;
  }

  /** The module object; the only one there is is the mock. */
  datatype WasmModule = MockWasmModule

  /** The component's state, one field per `useState`. */
  class RustWasmUI {
    var number: string
    var list: string
    var factorialResult: Option<nat>
    var sumResult: Option<real>
    var wasm: Option<WasmModule>
    var error: Option<Error>
    var loading: bool
    const parseInt: string -> Option<int>
    const parseFloat: string -> Option<real>

    /**
      An error is never shown beside a result, a result exists only once the
      module is loaded, a factorial result lies in 1..20!, and nothing is
      loaded while loading.
     */
    ghost predicate Valid()
      reads this
    {
      && (error.Some? ==> factorialResult.None? && sumResult.None?)
      && (factorialResult.Some? || sumResult.Some? ==> wasm.Some?)
      && (factorialResult.Some? ==> 1 <= factorialResult.value <= MaxFactorial)
      && (loading ==> wasm.None?)
    }

    /** The initial state: the sample inputs, no result, the module still loading. */
    constructor (parseInt: string -> Option<int>, parseFloat: string -> Option<real>)
      ensures Valid()
      ensures number == "5" && list == "1.0, 2.0, 3.0"
      ensures factorialResult.None? && sumResult.None? && error.None?
      ensures wasm.None? && loading
      ensures this.parseInt == parseInt && this.parseFloat == parseFloat
    {
      number := "5";
      list := "1.0, 2.0, 3.0";
      factorialResult := None;
      sumResult := None;
      wasm := None;
      error := None;
      loading := true;
      this.parseInt := parseInt;
      this.parseFloat := parseFloat;
    }

    /**
      The outcome of the one-time module load: on success the module is
      available, on failure the load error is shown; loading ends either way.
     */
    method LoadModule(succeeded: bool)
      requires Valid() && loading
      modifies this
      ensures Valid()
      ensures !loading
      ensures succeeded ==> wasm == Some(MockWasmModule) && error.None?
      ensures !succeeded ==> wasm.None? && error == Some(ModuleLoadFailed)
      ensures number == old(number) && list == old(list)
      ensures factorialResult == old(factorialResult) && sumResult == old(sumResult)
    {
      error := None;
      if succeeded {
        wasm := Some(MockWasmModule);
      } else {
        error := Some(ModuleLoadFailed);
      }
      loading := false;
    }

    /** Clears the error and both results, leaving the inputs and the module alone. */
    method ClearResults()
      modifies this
      ensures error.None? && factorialResult.None? && sumResult.None?
      ensures number == old(number) && list == old(list)
      ensures wasm == old(wasm) && loading == old(loading)
    {
      error := None;
      factorialResult := None;
      sumResult := None;
    }

    /**
      The trigger. Without a module it changes nothing. Otherwise it clears
      the previous error and results, then shows either both results or the
      first error, as `Compute` decides; the inputs are left as they are.
     */
    method CallRustFunctions()
      requires Valid()
      modifies this
      ensures Valid()
      ensures old(wasm).None? ==>
        && number == old(number) && list == old(list)
        && factorialResult == old(factorialResult) && sumResult == old(sumResult)
        && error == old(error) && loading == old(loading)
      ensures old(wasm).Some? ==>
        match Compute(number, list, parseInt, parseFloat)
        case Ok((fact, sum)) =>
          factorialResult == Some(fact) && sumResult == Some(sum) && error.None?
        case Err(e) =>
          error == Some(e) && factorialResult.None? && sumResult.None?
      ensures number == old(number) && list == old(list)
      ensures wasm == old(wasm) && loading == old(loading)
    {
      if wasm.None? {
        return;
      }
      ClearResults();
      ComputeUnreachableErrors(number, list, parseInt, parseFloat);

      var n := parseInt(number);
      if n.None? {
        error := Some(InvalidInteger);
        return;
      }
      var values := ValidateList(list, parseFloat);
      if values.Err? {
        error := Some(values.error);
        return;
      }
      var fact := Factorial(n.value);
      if fact.Err? {
        error := Some(fact.error);
        return;
      }
      var sum := SumList(Numbers(values.value));
      if sum.Err? {
        error := Some(sum.error);
        return;
      }
      factorialResult := Some(fact.value);
      sumResult := Some(sum.value);
    }

    /** A new number: clears the factorial result and the error, and nothing else. */
    method HandleNumberChange(value: string)
      requires Valid()
      modifies this
      ensures Valid()
      ensures number == value && factorialResult.None? && error.None?
      ensures list == old(list) && sumResult == old(sumResult)
      ensures wasm == old(wasm) && loading == old(loading)
    {
      number := value;
      factorialResult := None;
      error := None;
    }

    /** A new list: clears the sum result and the error, and nothing else. */
    method HandleListChange(value: string)
      requires Valid()
      modifies this
      ensures Valid()
      ensures list == value && sumResult.None? && error.None?
      ensures number == old(number) && factorialResult == old(factorialResult)
      ensures wasm == old(wasm) && loading == old(loading)
    {
      list := value;
      sumResult := None;
      error := None;
    }
  }
}
