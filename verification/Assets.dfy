// packages/terraswap/src/asset.rs: assets, and the tax taken out of native payments.

module Assets {
  import opened Wrappers
  import opened FixedPoint

  datatype AssetInfo = Token(contractAddr: string) | NativeToken(denom: string) {
    // The Display form: what the source writes wherever it needs a bare name.
    function ToString(): string {
      match this
      case Token(addr) => addr
      case NativeToken(denom) => denom
    }
  }

  // What the treasury answers: a rate in raw decimals and the cap of one denomination.
  // `roundUp` is how the chain rounds the tax it charges; the contracts never see it.
  datatype TaxPolicy = TaxPolicy(rate: nat, cap: nat, roundUp: bool)

  // The one native coin that the contracts know to be untaxed.
  const LUNA := "uluna"

  predicate Taxed(info: AssetInfo) {
    info.NativeToken? && info.denom != LUNA
  }

  // The tax contained in a gross amount, up to the cap.
  function TaxWithin(tax: TaxPolicy, gross: nat): (t: nat)
    ensures t <= gross
  {
    NetWithinGross(gross, tax.rate);
    Min(gross - FromUint(gross) / (tax.rate + ONE), tax.cap)
  }

  // The tax on top of a net amount, up to the cap.
  function TaxOn(tax: TaxPolicy, net: nat): nat {
    Min(if tax.roundUp then CeilDiv(net * tax.rate, ONE) else net * tax.rate / ONE, tax.cap)
  }

  // The tax a contract reckons with before it sends `amount`.
  function ComputeTax(info: AssetInfo, tax: TaxPolicy, amount: nat): (t: nat)
    ensures t <= amount
  {
    if Taxed(info) then TaxWithin(tax, amount) else 0
  }

  function DeductTax(info: AssetInfo, tax: TaxPolicy, amount: nat): Result<nat> {
    if info.NativeToken? then Ok(amount - ComputeTax(info, tax, amount)) else Err(CannotDeductTax)
  }

  // What the chain charges on top of a coin of `amount` that a contract sends.
  function Levy(info: AssetInfo, tax: TaxPolicy, amount: nat): nat {
    if Taxed(info) then TaxOn(tax, amount) else 0
  }

  // The coin `net` and the tax on it are paid out of `gross`.
  predicate Affordable(info: AssetInfo, tax: TaxPolicy, net: nat, gross: nat) {
    net + Levy(info, tax, net) <= gross
  }

  lemma NetWithinGross(amount: nat, rate: nat)
    ensures amount * ONE / (rate + ONE) <= amount
  {
    assert amount * (rate + ONE) == amount * rate + amount * ONE;
    FloorAtMost(amount * ONE, rate + ONE, amount);
  }

  // Below the cap, "net plus its rounded-up tax fits" is one floor division.
  lemma CeilTaxFits(n: nat, rate: nat, gross: nat)
    ensures n + CeilDiv(n * rate, ONE) <= gross <==> n <= gross * ONE / (rate + ONE)
  {
    CeilBounds(n * rate, ONE);
    FloorBounds(gross * ONE, rate + ONE);
    assert n * (rate + ONE) == n * rate + n * ONE;
    if n <= gross * ONE / (rate + ONE) {
      MulMono(n, gross * ONE / (rate + ONE), rate + ONE);
    } else {
      MulMono(gross * ONE / (rate + ONE) + 1, n, rate + ONE);
    }
  }

  // deduct_tax never takes more than it must: against a chain that rounds its tax up,
  // an amount can be sent out of `gross` exactly when it is at most the deducted one.
  lemma DeductTaxIsGreatest(info: AssetInfo, tax: TaxPolicy, gross: nat, n: nat)
    requires info.NativeToken? && tax.roundUp
    ensures Affordable(info, tax, n, gross) <==> n <= DeductTax(info, tax, gross).value
  {
    if Taxed(info) {
      CeilTaxFits(n, tax.rate, gross);
      NetWithinGross(gross, tax.rate);
    }
  }

  // Against a chain that rounds its tax down, the deducted amount is still affordable,
  // and at most one unit short of the greatest affordable one.
  lemma DeductTaxUnderTruncation(info: AssetInfo, tax: TaxPolicy, gross: nat, n: nat)
    requires info.NativeToken? && !tax.roundUp
    ensures Affordable(info, tax, DeductTax(info, tax, gross).value, gross)
    ensures Affordable(info, tax, n, gross) ==> n <= DeductTax(info, tax, gross).value + 1
  {
    if Taxed(info) {
      var up := tax.(roundUp := true);
      var net := DeductTax(info, tax, gross).value;
      DeductTaxIsGreatest(info, up, gross, net);
      LevyRounding(info, tax, net);
      if Affordable(info, tax, n, gross) && n > 0 {
        LevyStep(info, tax, n);
        DeductTaxIsGreatest(info, up, gross, n - 1);
      }
    }
  }

  lemma LevyRounding(info: AssetInfo, tax: TaxPolicy, n: nat)
    requires !tax.roundUp
    ensures Levy(info, tax, n) <= Levy(info, tax.(roundUp := true), n)
  {
    FloorMono(n * tax.rate, n * tax.rate + ONE - 1, ONE);
  }

  // One unit less leaves room for rounding the tax up.
  lemma LevyStep(info: AssetInfo, tax: TaxPolicy, n: nat)
    requires !tax.roundUp && n > 0
    ensures n - 1 + Levy(info, tax.(roundUp := true), n - 1) <= n + Levy(info, tax, n)
  {
    MulMono(n - 1, n, tax.rate);
    assert (n - 1) * tax.rate <= n * tax.rate;
    CeilStep(n * tax.rate, (n - 1) * tax.rate, ONE);
  }

  lemma CeilStep(x: nat, y: nat, d: nat)
    requires d != 0 && y <= x
    ensures CeilDiv(y, d) <= x / d + 1
  {
    FloorBounds(x, d);
    assert d * (x / d + 1) == d * (x / d) + d;
    FloorAtMost(y + d - 1, d, x / d + 1);
  }

  // The payment a contract prepares always fits in what it set aside, however the chain rounds.
  lemma DeductedPaymentFits(info: AssetInfo, tax: TaxPolicy, gross: nat)
    requires info.NativeToken?
    ensures Affordable(info, tax, DeductTax(info, tax, gross).value, gross)
  {
    if tax.roundUp {
      DeductTaxIsGreatest(info, tax, gross, DeductTax(info, tax, gross).value);
    } else {
      DeductTaxUnderTruncation(info, tax, gross, 0);
    }
  }

  // And it leaves little behind: at rates up to one at most one unit, or two if the chain rounds down.
  lemma DeductTaxLeavesLittle(info: AssetInfo, tax: TaxPolicy, gross: nat)
    requires info.NativeToken?
    ensures var net := DeductTax(info, tax, gross).value;
            gross <= net + Levy(info, tax, net) + CeilDiv(tax.rate, ONE) + if tax.roundUp then 0 else 1
  {
    if Taxed(info) {
      var up := tax.(roundUp := true);
      var net := DeductTax(info, tax, gross).value;
      DeductTaxIsGreatest(info, up, gross, net + 1);
      LevyOfOneMore(info, up, net);
      LevyRoundsByOne(info, tax, net);
    }
  }

  lemma LevyOfOneMore(info: AssetInfo, tax: TaxPolicy, n: nat)
    requires tax.roundUp
    ensures Levy(info, tax, n + 1) <= Levy(info, tax, n) + CeilDiv(tax.rate, ONE)
  {
    assert (n + 1) * tax.rate == n * tax.rate + tax.rate;
    CeilAdds(n * tax.rate, tax.rate, ONE);
  }

  lemma LevyRoundsByOne(info: AssetInfo, tax: TaxPolicy, n: nat)
    ensures Levy(info, tax.(roundUp := true), n) <= Levy(info, tax, n) + if tax.roundUp then 0 else 1
  {
    CeilStep(n * tax.rate, n * tax.rate, ONE);
  }

  lemma CeilAdds(x: nat, y: nat, d: nat)
    requires d != 0
    ensures CeilDiv(x + y, d) <= CeilDiv(x, d) + CeilDiv(y, d)
  {
    CeilBounds(x, d);
    CeilBounds(y, d);
    assert d * (CeilDiv(x, d) + CeilDiv(y, d)) == d * CeilDiv(x, d) + d * CeilDiv(y, d);
    FloorAtMost(x + y + d - 1, d, CeilDiv(x, d) + CeilDiv(y, d));
  }

  // A larger gross pays at least as much.
  lemma DeductTaxMonotone(info: AssetInfo, tax: TaxPolicy, gross: nat, more: nat)
    requires info.NativeToken? && gross <= more
    ensures DeductTax(info, tax, gross).value <= DeductTax(info, tax, more).value
  {
    var up := tax.(roundUp := true);
    var net := DeductTax(info, tax, gross).value;
    DeductTaxIsGreatest(info, up, gross, net);
    DeductTaxIsGreatest(info, up, more, net);
  }

  lemma LevyMonotone(info: AssetInfo, tax: TaxPolicy, n: nat, more: nat)
    requires n <= more
    ensures Levy(info, tax, n) <= Levy(info, tax, more)
  {
    MulMono(n, more, tax.rate);
    FloorMono(n * tax.rate, more * tax.rate, ONE);
    FloorMono(n * tax.rate + ONE - 1, more * tax.rate + ONE - 1, ONE);
  }

  lemma LevyIsModest(info: AssetInfo, tax: TaxPolicy, n: nat)
    requires tax.rate <= ONE
    ensures Levy(info, tax, n) <= n
  {
    MulMono(tax.rate, ONE, n);
    FloorAtMost(n * tax.rate, ONE, n);
    FloorAtMost(n * tax.rate + ONE - 1, ONE, n);
  }

  // Coins that nobody taxes: uluna, and any native coin while its rate or its cap is zero.
  predicate TaxFree(info: AssetInfo, tax: TaxPolicy) {
    info.NativeToken? && (!Taxed(info) || tax.rate == 0 || tax.cap == 0)
  }

  // Without tax the whole amount is paid and nothing is charged on it.
  lemma NoTax(info: AssetInfo, tax: TaxPolicy, amount: nat)
    requires TaxFree(info, tax)
    ensures DeductTax(info, tax, amount).value == amount && Levy(info, tax, amount) == 0
  {
    if Taxed(info) && tax.rate == 0 {
      assert amount * tax.rate == 0;
      FloorAtLeast(amount * ONE, tax.rate + ONE, amount);
    }
  }
}
