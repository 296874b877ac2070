/** The two-step income wizard (src/components/IncomeWizard.tsx): the amount
    and the gas switch on step one, the percentage split on step two, and
    the payload handed to the ledger's `addIncome`. */
module IncomeWizard {
  import opened Collections
  import opened FormInput
  import Commands

  /** Whole percentages of the three buckets. */
  datatype Percentages = Percentages(fixed: int, savings: int, variable: int)

  /** Each share lies in [0, 100] and together they make 100. */
  predicate IsSplit(p: Percentages) {
    && 0 <= p.fixed <= 100 && 0 <= p.savings <= 100 && 0 <= p.variable <= 100
    && p.fixed + p.savings + p.variable == 100
  }

  /** The split the wizard opens with. */
  function DefaultSplit(): (p: Percentages)
    ensures IsSplit(p)
  {
    Percentages(50, 30, 20)
  }

  /** `calculateDistribution`: the fixed share as chosen, the rest divided
      60/40 between savings and variable, savings rounded to a whole
      percentage. */
  function CalculateDistribution(fixedPercent: int): (p: Percentages)
    ensures p.fixed == fixedPercent
    ensures p.fixed + p.savings + p.variable == 100
    ensures p.savings as real - 0.5 <= (100 - fixedPercent) as real * 0.6 < p.savings as real + 0.5
  {
    var remaining := 100 - fixedPercent;
    var savingsPercent := JsRound(remaining as real * 0.6);
    Percentages(fixedPercent, savingsPercent, remaining - savingsPercent)
  }

  /** A fixed share in [0, 100] yields a split, and savings never get less
      than variable (the 30/20 ratio kept to the nearest percent). */
  lemma CalculatedIsSplit(fixedPercent: int)
    requires 0 <= fixedPercent <= 100
    ensures IsSplit(CalculateDistribution(fixedPercent))
    ensures CalculateDistribution(fixedPercent).savings >= CalculateDistribution(fixedPercent).variable
  {
    var p := CalculateDistribution(fixedPercent);
    var remaining := 100 - fixedPercent;
    assert p.savings < remaining + 1;
    if remaining < 5 {
      assert remaining == 0 || remaining == 1 || remaining == 2 || remaining == 3 || remaining == 4;
    }
  }

  /** Leaving the fixed share at 50 reproduces the opening split. */
  lemma DefaultIsCalculated()
    ensures CalculateDistribution(50) == DefaultSplit()
  {
    assert JsRound(30.0) == 30;
  }

  /** `Math.max(0, Math.min(100, parseInt(value) || 0))`. */
  function ClampPercent(parsed: Option<int>): (p: int)
    ensures 0 <= p <= 100
    ensures parsed.None? ==> p == 0
    ensures parsed.Some? && 0 <= parsed.value <= 100 ==> p == parsed.value
    ensures parsed.Some? && parsed.value < 0 ==> p == 0
    ensures parsed.Some? && parsed.value > 100 ==> p == 100
  {
    var v := IntOrZero(parsed);
    if v < 0 then 0 else if v > 100 then 100 else v
  }

  /** The money of one bucket: the amount times its share, rounded. */
  function Share(amount: real, percent: int): (m: real)
    ensures m - 0.5 <= amount * (percent as real / 100.0) < m + 0.5
    ensures m == m.Floor as real
  {
    JsRound(amount * (percent as real / 100.0)) as real
  }

  /** `amounts`: the split applied to the typed amount. */
  function Amounts(amount: real, p: Percentages): (d: Commands.Distribution)
    ensures d.fixed == Share(amount, p.fixed)
    ensures d.savings == Share(amount, p.savings)
    ensures d.variable == Share(amount, p.variable)
  {
    Commands.Distribution(Share(amount, p.fixed), Share(amount, p.savings), Share(amount, p.variable))
  }

  /** Rounding each bucket separately can make the credited total drift
      from the income by up to one and a half units: 2.5 split 20/20/60
      credits 1 + 1 + 2 = 4. */
  lemma AmountsDrift(amount: real, p: Percentages)
    requires p.fixed + p.savings + p.variable == 100
    ensures var d := Amounts(amount, p);
      amount - 1.5 < d.fixed + d.savings + d.variable <= amount + 1.5
  {
    var f, s, v := p.fixed as real / 100.0, p.savings as real / 100.0, p.variable as real / 100.0;
    calc {
      amount * f + amount * s + amount * v;
      amount * (f + s + v);
      { assert f + s + v == 1.0; }
      amount;
    }
  }

  /** The upper bound of the drift is reached. */
  lemma AmountsDriftReached()
    ensures var d := Amounts(2.5, Percentages(20, 20, 60));
      d.fixed + d.savings + d.variable == 2.5 + 1.5
  {
    assert 2.5 * (20 as real / 100.0) == 0.5;
    assert 2.5 * (60 as real / 100.0) == 1.5;
    assert JsRound(0.5) == 1 && JsRound(1.5) == 2;
  }

  /** A non-negative amount never yields a negative bucket. */
  lemma AmountsNonnegative(amount: real, p: Percentages)
    requires amount >= 0.0 && IsSplit(p)
    ensures var d := Amounts(amount, p);
      d.fixed >= 0.0 && d.savings >= 0.0 && d.variable >= 0.0
  {
    ProductNonnegative(amount, p.fixed as real / 100.0);
    ProductNonnegative(amount, p.savings as real / 100.0);
    ProductNonnegative(amount, p.variable as real / 100.0);
  }

  lemma ProductNonnegative(a: real, b: real)
    requires a >= 0.0 && b >= 0.0
    ensures a * b >= 0.0
  {
  }

  /** What the wizard hands to `addIncome`. */
  datatype Submission = Submission(amount: real, includesGas: bool, distribution: Commands.Distribution)

  class Wizard {
    var step: int
    /** The amount field as `parseFloat` reads it; `None` is NaN. */
    var parsedAmount: Option<real>
    var includesGas: bool
    var distribution: Percentages
    var editingFixed: bool
    var customFixed: string

    /** `parseFloat(amount) || 0`. */
    function NumericAmount(): real
      reads this
    {
      OrZero(parsedAmount)
    }

    /** The split always adds up, and step two is only reached with a
        positive amount. */
    predicate Valid()
      reads this
    {
      && (step == 1 || step == 2)
      && IsSplit(distribution)
      && (step == 2 ==> NumericAmount() > 0.0)
    }

    constructor()
      ensures Valid()
      ensures step == 1 && parsedAmount.None? && !includesGas
      ensures distribution == DefaultSplit() && !editingFixed && customFixed == ""
    {
      step := 1;
      parsedAmount := None;
      includesGas := false;
      distribution := DefaultSplit();
      editingFixed := false;
      customFixed := "";
    }

    /** Typing into the amount field, shown on step one only. */
    method SetAmount(parsed: Option<real>)
      requires Valid() && step == 1
      modifies this
      ensures Valid()
      ensures parsedAmount == parsed
      ensures step == old(step) && includesGas == old(includesGas) && distribution == old(distribution)
      ensures editingFixed == old(editingFixed) && customFixed == old(customFixed)
    {
      parsedAmount := parsed;
    }

    method SetIncludesGas(on: bool)
      requires Valid()
      modifies this
      ensures Valid()
      ensures includesGas == on
      ensures step == old(step) && parsedAmount == old(parsedAmount) && distribution == old(distribution)
      ensures editingFixed == old(editingFixed) && customFixed == old(customFixed)
    {
      includesGas := on;
    }

    /** "Siguiente": disabled while the amount is not positive. */
    method Next()
      requires Valid() && step == 1
      modifies this
      ensures Valid()
      ensures step == (if NumericAmount() > 0.0 then 2 else 1)
      ensures parsedAmount == old(parsedAmount) && includesGas == old(includesGas)
      ensures distribution == old(distribution)
      ensures editingFixed == old(editingFixed) && customFixed == old(customFixed)
    {
      if NumericAmount() > 0.0 {
        step := 2;
      }
    }

    /** Tapping the fixed card opens or closes its editor. */
    method ToggleEditingFixed()
      requires Valid()
      modifies this
      ensures Valid()
      ensures editingFixed == !old(editingFixed)
      ensures step == old(step) && parsedAmount == old(parsedAmount) && includesGas == old(includesGas)
      ensures distribution == old(distribution) && customFixed == old(customFixed)
    {
      editingFixed := !editingFixed;
    }

    /** Leaving the editor closes it. */
    method BlurFixed()
      requires Valid()
      modifies this
      ensures Valid()
      ensures !editingFixed
      ensures step == old(step) && parsedAmount == old(parsedAmount) && includesGas == old(includesGas)
      ensures distribution == old(distribution) && customFixed == old(customFixed)
    {
      editingFixed := false;
    }

    /** `handleFixedChange`: the typed text is kept as typed, and the split
        is recomputed from it clamped to [0, 100]. */
    method HandleFixedChange(value: string, parsed: Option<int>)
      requires Valid()
      modifies this
      ensures Valid()
      ensures distribution == CalculateDistribution(ClampPercent(parsed))
      ensures distribution.savings >= distribution.variable
      ensures customFixed == value
      ensures step == old(step) && parsedAmount == old(parsedAmount) && includesGas == old(includesGas)
      ensures editingFixed == old(editingFixed)
    {
      var percent := ClampPercent(parsed);
      CalculatedIsSplit(percent);
      distribution := CalculateDistribution(percent);
      customFixed := value;
    }

    /** `handleSubmit`, on step two: the amount is positive and the three
        buckets are the rounded shares of it. */
    method Submit() returns (s: Submission)
      requires Valid() && step == 2
      ensures s.amount == NumericAmount() && s.amount > 0.0
      ensures s.includesGas == includesGas
      ensures s.distribution == Amounts(NumericAmount(), distribution)
      ensures s.distribution.fixed >= 0.0 && s.distribution.savings >= 0.0 && s.distribution.variable >= 0.0
    {
      var amount := NumericAmount();
      AmountsNonnegative(amount, distribution);
      s := Submission(amount, includesGas, Amounts(amount, distribution));
    }
  }
}
