/** The levy calculator of `huh/huquq.py`.

    A `Huququllah` object holds a wealth figure, a metal price and the weight
    unit the price is quoted in, and fills three derived fields in order:
    `basic` (the value of 19 mithqals of gold), `remainder` (the part of the
    wealth below the last whole multiple of `basic`) and `payable` (19 per cent
    of the rest). Amounts are exact reals; Python's `%` and `//` on floats are
    floor-based, so they are written here with `Floor`. */
module Huquq {
  import opened Wrappers

  /** The levy rate. */
  const Percent: real := 0.19
  /** Grams in 19 mithqals. */
  const Grams: real := 69.192
  /** Mithqals in 19 mithqals. */
  const Mithqal: real := 19.0
  /** Troy ounces in 19 mithqals. */
  const TroyOz: real := 2.22457446

  /** The weight labels the calculator accepts, matched exactly and case-sensitively. */
  const TroyOzLabels: set<string> := {"troy oz", "t oz", "toz", "oz"}
  const GramLabels: set<string> := {"gram", "grams", "g"}
  const MithqalLabels: set<string> := {"mithqal", "mithqals", "mq"}

  datatype LevyError =
    | MissingPrice                       // ValueError: the price is None or zero
    | UnrecognizedWeight(weight: string) // ValueError: the weight label is unknown
    | MissingBasic                       // `basic` is still None
    | ZeroBasic                          // ZeroDivisionError in `wealth % basic`, then exit
    | MissingRemainder                   // `remainder` is still None where payable needs it

  /** The number of weight units in 19 mithqals, for a recognised label. */
  function WeightFactor(weight: string): (f: Option<real>)
    ensures f.Some? <==> weight in TroyOzLabels + GramLabels + MithqalLabels
    ensures f.Some? ==> f.value > 0.0
    ensures weight in TroyOzLabels ==> f == Some(TroyOz)
    ensures weight in GramLabels ==> f == Some(Grams)
    ensures weight in MithqalLabels ==> f == Some(Mithqal)
  {
    if weight in TroyOzLabels then Some(TroyOz)
    else if weight in GramLabels then Some(Grams)
    else if weight in MithqalLabels then Some(Mithqal)
    else None
  }

  /** Python truthiness of the price: None and zero are false. */
  predicate HasPrice(price: Option<real>) {
    price.Some? && price.value != 0.0
  }

  /** `_basicSum`: the price of 19 mithqals of gold. */
  function BasicSum(price: Option<real>, weight: string): (r: Result<real, LevyError>)
    ensures !HasPrice(price) ==> r == Failure(MissingPrice)
    ensures HasPrice(price) && WeightFactor(weight).None? ==> r == Failure(UnrecognizedWeight(weight))
    ensures r.Success? <==> HasPrice(price) && WeightFactor(weight).Some?
    ensures r.Success? ==> r.value == price.value * WeightFactor(weight).value
    ensures r.Success? ==> r.value != 0.0 && (price.value > 0.0 <==> r.value > 0.0)
  {
    if !HasPrice(price) then Failure(MissingPrice)
    else match WeightFactor(weight)
      case None => Failure(UnrecognizedWeight(weight))
      case Some(f) => Success(price.value * f)
  }

  /** `wealth // basic`: how many whole basic units the wealth holds. */
  function WholeUnits(wealth: real, basic: real): int
    requires basic != 0.0
  {
    (wealth / basic).Floor
  }

  /** `wealth % basic` with Python's floor semantics (the sign follows `basic`). */
  function RemainderOf(wealth: real, basic: real): real
    requires basic != 0.0
  {
    wealth - basic * WholeUnits(wealth, basic) as real
  }

  /** `_payable` on the fields it reads. */
  function PayableOf(wealth: real, basic: real, remainder: real): real {
    if wealth < basic then 0.0 else (wealth - remainder) * Percent
  }

  lemma MulMono(a: real, x: real, y: real)
    requires a > 0.0 && x <= y
    ensures a * x <= a * y
  {
    assert a * y - a * x == a * (y - x);
  }

  lemma MulStrict(a: real, x: real, y: real)
    requires a > 0.0 && x < y
    ensures a * x < a * y
  {
    assert a * y - a * x == a * (y - x);
  }

  /** One more unit of `basic` lies above `basic * q`, stated of a `wealth`
      equal to that product. */
  lemma BelowNext(wealth: real, basic: real, q: real, n: real)
    requires basic > 0.0 && q < n + 1.0
    ensures wealth == basic * q ==> wealth < basic * n + basic
  {
    MulStrict(basic, q, n + 1.0);
    assert basic * (n + 1.0) == basic * n + basic;
  }

  /** `n` units of `basic` lie below `basic * q`, stated of a `wealth` equal
      to that product. */
  lemma AboveFloor(wealth: real, basic: real, q: real, n: real)
    requires basic > 0.0 && n <= q
    ensures wealth == basic * q ==> basic * n <= wealth
  {
    MulMono(basic, n, q);
  }

  /** Whole units `n` of a quotient `q` bracket `basic * q` between
      `basic * n` and one more `basic`. */
  lemma Bracket(wealth: real, basic: real, q: real, n: real)
    requires basic > 0.0 && wealth == basic * q && n <= q < n + 1.0
    ensures basic * n <= wealth < basic * n + basic
  {
    BelowNext(wealth, basic, q, n);
    AboveFloor(wealth, basic, q, n);
  }

  /** The remainder lies between zero and the basic sum, on the side of `basic`,
      and never exceeds a non-negative wealth. */
  lemma RemainderBounds(wealth: real, basic: real)
    requires basic != 0.0
    ensures basic > 0.0 ==> 0.0 <= RemainderOf(wealth, basic) < basic
    ensures basic > 0.0 && wealth >= 0.0 ==> RemainderOf(wealth, basic) <= wealth
    ensures basic < 0.0 ==> basic < RemainderOf(wealth, basic) <= 0.0
  {
    var n := WholeUnits(wealth, basic) as real;
    assert RemainderOf(wealth, basic) == wealth - basic * n;
    if basic > 0.0 {
      FloorSplitPos(wealth, basic);
      if wealth >= 0.0 {
        UnitsNonNegative(wealth, basic);
      }
    } else {
      FloorSplitNeg(wealth, basic);
    }
  }

  /** For a positive basic, the whole units bracket the wealth from below. */
  lemma FloorSplitPos(wealth: real, basic: real)
    requires basic > 0.0
    ensures basic * WholeUnits(wealth, basic) as real <= wealth
    ensures wealth < basic * (WholeUnits(wealth, basic) as real) + basic
  {
    Bracket(wealth, basic, wealth / basic, WholeUnits(wealth, basic) as real);
  }

  /** For a negative basic, the whole units bracket the wealth from above. */
  lemma FloorSplitNeg(wealth: real, basic: real)
    requires basic < 0.0
    ensures basic * (WholeUnits(wealth, basic) as real) + basic < wealth
    ensures wealth <= basic * WholeUnits(wealth, basic) as real
  {
    var n := WholeUnits(wealth, basic) as real;
    Bracket(-wealth, -basic, wealth / basic, n);
    assert basic * n == -((-basic) * n);
  }

  /** A non-negative wealth holds a non-negative number of positive units. */
  lemma UnitsNonNegative(wealth: real, basic: real)
    requires wealth >= 0.0 && basic > 0.0
    ensures WholeUnits(wealth, basic) >= 0
    ensures basic * WholeUnits(wealth, basic) as real >= 0.0
  {
    var inv := 1.0 / basic;
    assert inv > 0.0;
    MulMono(inv, 0.0, wealth);
    assert wealth / basic == inv * wealth;
    MulMono(basic, 0.0, WholeUnits(wealth, basic) as real);
  }

  /** Division with remainder is unique: any split of the wealth into whole
      multiples of a positive basic plus a rest in [0, basic) is the one the
      calculator computes. */
  lemma RemainderUnique(wealth: real, basic: real, n: int, rest: real)
    requires basic > 0.0
    requires wealth == basic * n as real + rest && 0.0 <= rest < basic
    ensures n == WholeUnits(wealth, basic)
    ensures rest == RemainderOf(wealth, basic)
  {
    var q := wealth / basic;
    assert q == n as real + rest / basic;
    assert 0.0 <= rest / basic < 1.0 by {
      MulMono(1.0 / basic, 0.0, rest);
      MulMono(1.0 / basic, rest, basic);
    }
    assert q.Floor == n;
  }

  /** What `_payable` yields once `_remainder` has run. */
  lemma PayableFacts(wealth: real, basic: real)
    requires basic > 0.0
    ensures wealth < basic ==> PayableOf(wealth, basic, RemainderOf(wealth, basic)) == 0.0
    ensures wealth >= basic ==> WholeUnits(wealth, basic) >= 1
    ensures wealth >= basic ==> PayableOf(wealth, basic, RemainderOf(wealth, basic)) == Percent * basic * WholeUnits(wealth, basic) as real
    ensures wealth == basic ==> PayableOf(wealth, basic, RemainderOf(wealth, basic)) == Percent * basic
    ensures 0.0 <= PayableOf(wealth, basic, RemainderOf(wealth, basic))
    ensures wealth >= 0.0 ==> PayableOf(wealth, basic, RemainderOf(wealth, basic)) <= Percent * wealth
  {
    RemainderBounds(wealth, basic);
    var n := WholeUnits(wealth, basic);
    if wealth >= basic {
      assert wealth / basic >= 1.0 by { MulMono(1.0 / basic, basic, wealth); }
      assert n >= 1;
      MulMono(basic, 0.0, n as real);
      if wealth == basic {
        RemainderUnique(wealth, basic, 1, 0.0);
      }
    }
  }

  /** Grams in one troy ounce. */
  const GramsPerTroyOz: real := 31.1034768

  /** The basic sum is the value of 19 mithqals whatever label the price is
      quoted in: a price of `value / factor` per unit of any accepted label
      gives `value` as basic, and so the same remainder and payable for every
      wealth. */
  lemma CrossUnitConsistency(value: real, w1: string, w2: string, wealth: real)
    requires value != 0.0 && WeightFactor(w1).Some? && WeightFactor(w2).Some?
    ensures var b1 := BasicSum(Some(value / WeightFactor(w1).value), w1);
      var b2 := BasicSum(Some(value / WeightFactor(w2).value), w2);
      && b1 == b2 == Success(value)
      && RemainderOf(wealth, b1.value) == RemainderOf(wealth, b2.value)
      && PayableOf(wealth, b1.value, RemainderOf(wealth, b1.value)) == PayableOf(wealth, b2.value, RemainderOf(wealth, b2.value))
  {
    PriceForValue(value, WeightFactor(w1).value);
    PriceForValue(value, WeightFactor(w2).value);
  }

  /** The price per unit that makes a given basic sum. */
  lemma PriceForValue(value: real, f: real)
    requires value != 0.0 && f > 0.0
    ensures value / f != 0.0 && (value / f) * f == value
  {
  }

  /** The troy-ounce factor is the gram factor over 31.1034768 grams per troy
      ounce, rounded to eight places: converted to grams it overshoots by
      0.000000106482528 g, so an ounce price and the gram price of the same
      gold give basic sums that differ by less than two parts in a billion. */
  lemma TroyOzRounded()
    ensures TroyOz * GramsPerTroyOz != Grams
    ensures TroyOz * GramsPerTroyOz - Grams == 0.000000106482528
    ensures 0.0 < TroyOz * GramsPerTroyOz - Grams < Grams * 0.000000002
  {
  }

  /** Worked example: 500 per troy ounce and a wealth of 2000 is one whole unit. */
  lemma OneUnitExample()
    ensures BasicSum(Some(500.0), "toz") == Success(1112.28723)
    ensures RemainderOf(2000.0, 1112.28723) == 887.71277
    ensures PayableOf(2000.0, 1112.28723, 887.71277) == 211.3345737
  {
    RemainderUnique(2000.0, 1112.28723, 1, 887.71277);
  }

  /** Worked example: 500 per troy ounce and a wealth of 1000 is below one unit. */
  lemma BelowOneUnitExample()
    ensures RemainderOf(1000.0, 1112.28723) == 1000.0
    ensures PayableOf(1000.0, 1112.28723, 1000.0) == 0.0
  {
    RemainderUnique(1000.0, 1112.28723, 0, 1000.0);
  }

  /** The calculator object. `basic`, `remainder` and `payable` start as None and
      are filled by the three steps, each from the fields already set. */
  class Huququllah {
    var wealth: real
    var price: Option<real>
    var weight: string
    var basic: Option<real>
    var remainder: Option<real>
    var payable: Option<real>

    /** The field assignments at the head of `__init__`. */
    constructor Init(wealth: real, price: Option<real>, weight: string := "toz")
      ensures this.wealth == wealth && this.price == price && this.weight == weight
      ensures basic.None? && remainder.None? && payable.None?
    {
      this.wealth := wealth;
      this.price := price;
      this.weight := weight;
      basic, remainder, payable := None, None, None;
    }

    /** All three derived fields agree with the current `wealth` and `basic`. */
    predicate Settled()
      reads this
    {
      && basic.Some? && basic.value != 0.0
      && remainder == Some(RemainderOf(wealth, basic.value))
      && payable == Some(PayableOf(wealth, basic.value, remainder.value))
    }

    /** `__init__`: set the inputs, then run `_basicSum`, `_remainder` and
        `_payable` in that order. Fails exactly when `_basicSum` does. */
    static method New(wealth: real, price: Option<real>, weight: string := "toz") returns (r: Result<Huququllah, LevyError>)
      ensures r.Failure? ==> BasicSum(price, weight).Failure? && r.error == BasicSum(price, weight).error
      ensures r.Success? <==> BasicSum(price, weight).Success?
      ensures r.Success? ==> fresh(r.value) && r.value.Settled()
      ensures r.Success? ==> r.value.wealth == wealth && r.value.price == price && r.value.weight == weight
      ensures r.Success? ==> r.value.basic == Some(BasicSum(price, weight).value)
    {
      var h := new Huququllah.Init(wealth, price, weight);
      var b := h.BasicStep();
      if b.Failure? {
        return Failure(b.error);
      }
      var ok := h.RemainderStep();
      var p := h.PayableStep();
      r := Success(h);
    }

    /** `_basicSum`: sets `basic` unless the price or the weight is rejected. */
    method BasicStep() returns (r: Result<real, LevyError>)
      modifies this`basic
      ensures r == BasicSum(price, weight)
      ensures basic == if r.Success? then Some(r.value) else old(basic)
    {
      r := BasicSum(price, weight);
      if r.Success? {
        basic := Some(r.value);
      }
    }

    /** `_remainder`: sets `remainder` to `wealth % basic`; a zero basic exits,
        a missing basic is a type error. */
    method RemainderStep() returns (r: Outcome<LevyError>)
      modifies this`remainder
      ensures basic.None? ==> r == Fail(MissingBasic)
      ensures basic == Some(0.0) ==> r == Fail(ZeroBasic)
      ensures r.Pass? <==> basic.Some? && basic.value != 0.0
      ensures remainder == if r.Pass? then Some(RemainderOf(wealth, basic.value)) else old(remainder)
    {
      if basic.None? {
        return Fail(MissingBasic);
      }
      if basic.value == 0.0 {
        return Fail(ZeroBasic);
      }
      remainder := Some(RemainderOf(wealth, basic.value));
      r := Pass;
    }

    /** `_payable`: zero below one basic unit, otherwise 19 per cent of the
        wealth less the remainder. */
    method PayableStep() returns (r: Result<real, LevyError>)
      modifies this`payable
      ensures basic.None? ==> r == Failure(MissingBasic)
      ensures basic.Some? && wealth < basic.value ==> r == Success(0.0)
      ensures basic.Some? && wealth >= basic.value ==>
        r == if remainder.Some? then Success(PayableOf(wealth, basic.value, remainder.value)) else Failure(MissingRemainder)
      ensures payable == if r.Success? then Some(r.value) else old(payable)
    {
      if basic.None? {
        return Failure(MissingBasic);
      }
      if wealth < basic.value {
        payable := Some(0.0);
        return Success(0.0);
      }
      if remainder.None? {
        return Failure(MissingRemainder);
      }
      payable := Some((wealth - remainder.value) * Percent);
      r := Success(payable.value);
    }

    /** The caller's override of the basic sum: a non-zero value replaces
        `basic` and `_remainder` and `_payable` are run again. */
    method OverrideBasic(b: real)
      modifies this`basic, this`remainder, this`payable
      ensures wealth == old(wealth) && price == old(price) && weight == old(weight)
      ensures b == 0.0 ==> basic == old(basic) && remainder == old(remainder) && payable == old(payable)
      ensures b != 0.0 ==> basic == Some(b) && Settled()
    {
      if b != 0.0 {
        basic := Some(b);
        var ok := RemainderStep();
        var p := PayableStep();
      }
    }

    /** The two derived figures `report` shows: the whole basic units in the
        wealth and the amount the levy is charged on. */
    method Report() returns (units: int, eligible: real)
      requires Settled()
      ensures units as real <= wealth / basic.value < units as real + 1.0
      ensures eligible == basic.value * units as real
      ensures basic.value > 0.0 ==> 0.0 <= wealth - eligible < basic.value
      ensures payable.value == if wealth < basic.value then 0.0 else Percent * eligible
    {
      RemainderBounds(wealth, basic.value);
      units := (wealth / basic.value).Floor;
      eligible := wealth - remainder.value;
    }
  }
}
