/** Pricing in exact arithmetic: prices are whole thousandths of a dollar per million tokens,
    results are whole micro-dollars. Everything here holds of any price list; the one the
    operator ships is in PriceList. */
module Cost {
  import opened ApiServer

  datatype Price = Price(input: nat, output: nat)

  type Prices = map<string, Price>

  /** math.Round on a number of thousandths: to the nearest whole, halves away from zero. */
  function Round(thousandths: int): int {
    if thousandths >= 0 then (thousandths + 500) / 1000 else -((-thousandths + 500) / 1000)
  }

  /** The exact cost of a call, in thousandths of a micro-dollar. */
  function Exact(p: Price, input: int, output: int): int {
    input * p.input + output * p.output
  }

  /** Micro-dollars, or nothing for a model that has no price. */
  function CalculateCost(prices: Prices, modelId: string, input: int, output: int): Option<int> {
    if modelId in prices then Some(Round(Exact(prices[modelId], input, output))) else None
  }

  /** A million tokens cost what the price list says, in either direction. */
  lemma CostByTheMillion(prices: Prices, modelId: string, millions: nat)
    requires modelId in prices
    ensures CalculateCost(prices, modelId, 1_000_000 * millions, 0) == Some(1000 * millions * prices[modelId].input)
    ensures CalculateCost(prices, modelId, 0, 1_000_000 * millions) == Some(1000 * millions * prices[modelId].output)
  {
    assert 1_000_000 * millions * prices[modelId].input == 1000 * (1000 * millions * prices[modelId].input);
    assert 1_000_000 * millions * prices[modelId].output == 1000 * (1000 * millions * prices[modelId].output);
  }

  /** Every call is billed at the input price for its input and the output price for its output,
      to the nearest micro-dollar, and exactly the models of the price list are billed. */
  lemma CostIsThePrice(prices: Prices, modelId: string, input: int, output: int)
    ensures CalculateCost(prices, modelId, input, output).Some? <==> modelId in prices
    ensures modelId in prices ==>
              var price := input * prices[modelId].input + output * prices[modelId].output;
              -500 <= 1000 * CalculateCost(prices, modelId, input, output).value - price <= 500
  {
  }

  datatype Usage = Usage(modelId: string, input: int, output: int)

  function Billed(prices: Prices, calls: seq<Usage>): int {
    if calls == [] then 0
    else
      var u := calls[0];
      (match CalculateCost(prices, u.modelId, u.input, u.output)
       case None => 0
       case Some(c) => c) + Billed(prices, calls[1..])
  }

  /** What the calls cost by the price list, in thousandths of a micro-dollar. */
  function ExactTotal(prices: Prices, calls: seq<Usage>): int {
    if calls == [] then 0
    else
      var u := calls[0];
      (if u.modelId in prices then u.input * prices[u.modelId].input + u.output * prices[u.modelId].output else 0)
      + ExactTotal(prices, calls[1..])
  }

  /** How many of the calls have a price. */
  function Priced(prices: Prices, calls: seq<Usage>): nat {
    if calls == [] then 0 else (if calls[0].modelId in prices then 1 else 0) + Priced(prices, calls[1..])
  }

  lemma {:induction false} PricedAtMost(prices: Prices, calls: seq<Usage>)
    ensures Priced(prices, calls) <= |calls|
  {
    if calls != [] {
      PricedAtMost(prices, calls[1..]);
    }
  }

  /** Rounding every call on its own costs at most half a micro-dollar per priced call. */
  lemma {:induction false} AccumulatedError(prices: Prices, calls: seq<Usage>)
    ensures var error := 1000 * Billed(prices, calls) - ExactTotal(prices, calls);
            -500 * Priced(prices, calls) <= error <= 500 * Priced(prices, calls)
  {
    if calls != [] {
      CostIsThePrice(prices, calls[0].modelId, calls[0].input, calls[0].output);
      AccumulatedError(prices, calls[1..]);
    }
  }

  /** The bound is attained by any price that is an odd multiple of half a dollar, so it cannot
      be improved, however long the history. */
  lemma {:induction false} AccumulatedErrorIsTight(prices: Prices, modelId: string, n: nat)
    requires modelId in prices && prices[modelId].input % 1000 == 500
    ensures var calls := seq(n, i => Usage(modelId, 1, 0));
            Priced(prices, calls) == n && 1000 * Billed(prices, calls) - ExactTotal(prices, calls) == 500 * n
  {
    var calls := seq(n, i => Usage(modelId, 1, 0));
    if n > 0 {
      AccumulatedErrorIsTight(prices, modelId, n - 1);
      assert calls[1..] == seq(n - 1, i => Usage(modelId, 1, 0));
      assert 1 * prices[modelId].input + 0 * prices[modelId].output == prices[modelId].input;
    }
  }

  lemma ExactMonotone(p: Price, i0: int, o0: int, i1: int, o1: int)
    requires i0 <= i1 && o0 <= o1
    ensures Exact(p, i0, o0) <= Exact(p, i1, o1)
  {
    assert (i1 - i0) * p.input >= 0;
    assert (o1 - o0) * p.output >= 0;
  }

  /** More tokens never cost less. */
  lemma CostMonotone(prices: Prices, modelId: string, i0: int, o0: int, i1: int, o1: int)
    requires modelId in prices
    requires i0 <= i1 && o0 <= o1
    ensures CalculateCost(prices, modelId, i0, o0).value <= CalculateCost(prices, modelId, i1, o1).value
  {
    ExactMonotone(prices[modelId], i0, o0, i1, o1);
  }

  function InputOf(calls: seq<Usage>): int {
    if calls == [] then 0 else calls[0].input + InputOf(calls[1..])
  }

  function OutputOf(calls: seq<Usage>): int {
    if calls == [] then 0 else calls[0].output + OutputOf(calls[1..])
  }

  lemma ExactAdds(p: Price, i0: int, o0: int, i1: int, o1: int)
    ensures Exact(p, i0 + i1, o0 + o1) == Exact(p, i0, o0) + Exact(p, i1, o1)
  {
  }

  lemma {:induction false} ExactOfParts(prices: Prices, modelId: string, parts: seq<Usage>)
    requires modelId in prices
    requires forall i :: 0 <= i < |parts| ==> parts[i].modelId == modelId
    ensures ExactTotal(prices, parts) == Exact(prices[modelId], InputOf(parts), OutputOf(parts))
    ensures Priced(prices, parts) == |parts|
  {
    if parts != [] {
      ExactOfParts(prices, modelId, parts[1..]);
      ExactAdds(prices[modelId], parts[0].input, parts[0].output, InputOf(parts[1..]), OutputOf(parts[1..]));
    }
  }

  /** Splitting a call into k parts moves the bill by at most (k + 1) / 2 micro-dollars. */
  lemma SplittingCost(prices: Prices, modelId: string, parts: seq<Usage>)
    requires modelId in prices
    requires forall i :: 0 <= i < |parts| ==> parts[i].modelId == modelId
    ensures var whole := CalculateCost(prices, modelId, InputOf(parts), OutputOf(parts)).value;
            -(|parts| + 1) <= 2 * (Billed(prices, parts) - whole) <= |parts| + 1
  {
    ExactOfParts(prices, modelId, parts);
    AccumulatedError(prices, parts);
  }

  // ----- the printed cost -----

  const DIGITS := "0123456789"

  function Digit(d: nat): char
    requires d < 10
  {
    DIGITS[d]
  }

  function DigitValue(c: char): int {
    if '0' <= c <= '9' then c as int - '0' as int else 0
  }

  /** Decimal digits without leading zeros; zero prints as one digit. */
  function Decimal(n: nat): (r: string)
    ensures r != []
    ensures forall i :: 0 <= i < |r| ==> '0' <= r[i] <= '9'
  {
    if n < 10 then [Digit(n)] else Decimal(n / 10) + [Digit(n % 10)]
  }

  /** Exactly `width` digits. */
  function Padded(n: nat, width: nat): (r: string)
    ensures |r| == width
    ensures forall i :: 0 <= i < |r| ==> '0' <= r[i] <= '9'
  {
    if width == 0 then [] else Padded(n / 10, width - 1) + [Digit(n % 10)]
  }

  /** strconv.FormatFloat(cost, 'f', 6, 64) for a cost of `micros` micro-dollars. */
  function FormatCost(micros: nat): string {
    Decimal(micros / 1_000_000) + "." + Padded(micros % 1_000_000, 6)
  }

  function Value(s: string): int {
    if s == [] then 0 else 10 * Value(s[..|s| - 1]) + DigitValue(s[|s| - 1])
  }

  function Point(s: string): (i: nat)
    ensures i <= |s|
    ensures forall k :: 0 <= k < i ==> s[k] != '.'
    ensures i < |s| ==> s[i] == '.'
  {
    if s == [] || s[0] == '.' then 0 else 1 + Point(s[1..])
  }

  /** Reads a printed cost back as micro-dollars. */
  function ParseCost(s: string): int {
    var i := Point(s);
    if i < |s| then Value(s[..i]) * 1_000_000 + Value(s[i + 1..]) else Value(s) * 1_000_000
  }

  lemma {:induction false} DecimalValue(n: nat)
    ensures Value(Decimal(n)) == n
  {
    if n >= 10 {
      DecimalValue(n / 10);
      assert Decimal(n)[..|Decimal(n)| - 1] == Decimal(n / 10);
    }
  }

  function Pow10(width: nat): nat {
    if width == 0 then 1 else 10 * Pow10(width - 1)
  }

  lemma {:induction false} PaddedValue(n: nat, width: nat)
    requires n < Pow10(width)
    ensures Value(Padded(n, width)) == n
  {
    if width > 0 {
      PaddedValue(n / 10, width - 1);
      assert Padded(n, width)[..width - 1] == Padded(n / 10, width - 1);
    }
  }

  /** The printed cost determines the amount that was added to the counter. */
  lemma PrintedCostLosesNothing(micros: nat)
    ensures ParseCost(FormatCost(micros)) == micros
  {
    var whole, fraction := Decimal(micros / 1_000_000), Padded(micros % 1_000_000, 6);
    var s := FormatCost(micros);
    assert s[|whole|] == '.';
    assert forall k :: 0 <= k < |whole| ==> s[k] != '.' by {
      assert forall k :: 0 <= k < |whole| ==> s[k] == whole[k];
    }
    assert Point(s) == |whole|;
    assert s[..|whole|] == whole && s[|whole| + 1..] == fraction;
    DecimalValue(micros / 1_000_000);
    assert Pow10(6) == 1_000_000;
    PaddedValue(micros % 1_000_000, 6);
  }
}
