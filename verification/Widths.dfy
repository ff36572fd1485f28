// The unbounded numbers of this model against the 128-bit and 256-bit integers of the code.

module Widths {
  import opened Wrappers
  import opened FixedPoint
  import opened Assets
  import opened VaultLedger
  import opened Shares
  import opened PlanetWorld
  import opened PlanetRuns

  const UINT128: nat := 0x1_00000000_00000000_00000000_00000000
  const UINT256: nat :=
    0x1_00000000_00000000_00000000_00000000_00000000_00000000_00000000_00000000

  // Neither `unsettled` nor the open commission can outgrow a balance that was once settled.
  ghost predicate Narrow(w: World) {
    && w.balance < UINT128
    && FromUint(w.totals.unsettled) + w.ledger.commission <= FromUint(UINT128 - 1)
  }

  lemma StepNarrow(w: World, tx: Tx)
    requires Narrow(w) && Good(Next(w, tx)) && Next(w, tx).balance < UINT128
    ensures Narrow(Next(w, tx))
  {
    if Step(w, tx).Ok? {
      match tx
      case Claim(_, _) => FloorBounds(w.ledger.commission, ONE);
      case Execute(_, _, _) =>
        assert Next(w, tx).ledger.commission <= FromUint(Next(w, tx).balance);
      case _ =>
    }
  }

  lemma {:induction false} BalancesKeepNarrow(config: Config, txs: seq<Tx>)
    requires config.commissionRate <= ONE && AllRegulated(txs)
    requires forall k :: 0 <= k <= |txs| ==> Run(Genesis(config), txs[..k]).balance < UINT128
    ensures Narrow(Run(Genesis(config), txs))
  {
    assert txs[..|txs|] == txs;
    if txs != [] {
      var n := |txs| - 1;
      forall k | 0 <= k <= n
        ensures Run(Genesis(config), txs[..n][..k]).balance < UINT128
      {
        assert txs[..n][..k] == txs[..k];
      }
      BalancesKeepNarrow(config, txs[..n]);
      ReachableIsGood(config, txs);
      StepNarrow(Run(Genesis(config), txs[..n]), txs[n]);
    }
  }

  // The products that bond, unbond and execute form stay within 256 bits.
  ghost predicate Fits(w: World, amount: nat, balanceAfter: nat)
    requires Sound(w.ledger)
  {
    && Net(w.ledger) * ONE < UINT256
    && FromUint(w.ledger.supply) < UINT256
    && FromUint(amount) < UINT256
    && w.ledger.vaults + FromUint(amount) < UINT256
    && (amount <= w.ledger.supply ==> amount * Rate(w.ledger) < UINT256)
    && (w.ledger.vaults <= FromUint(balanceAfter) ==>
          (FromUint(balanceAfter) - w.ledger.vaults) * w.config.commissionRate < UINT256)
  }

  // What bond and claim narrow to 128 bits fits: the mint and the whole units of the commission.
  ghost predicate Narrows(l: Ledger, amount: nat)
    requires Sound(l)
  {
    && Rate(l) != 0 && UintDivDec(amount, Rate(l)) < UINT128
    && UintMulDec(1, l.commission) < UINT128
  }

  lemma NarrowFits(w: World, amount: nat, balanceAfter: nat)
    requires Good(w) && Covered(w) && Narrow(w)
    requires amount < UINT128 && balanceAfter < UINT128
    ensures Fits(w, amount, balanceAfter)
  {
    if amount <= w.ledger.supply {
      WorthWithinNet(w.ledger, amount);
    }
    if w.ledger.vaults <= FromUint(balanceAfter) {
      MulMono(w.config.commissionRate, ONE, FromUint(balanceAfter) - w.ledger.vaults);
    }
  }

  lemma BackedNarrows(l: Ledger, amount: nat)
    requires Backed(l) && l.commission <= FromUint(UINT128 - 1) && amount < UINT128
    ensures Narrows(l, amount)
  {
    BackedIsRateOne(l);
    MintAtMost(amount, Rate(l));
    FloorAtMost(l.commission, ONE, UINT128 - 1);
  }

  lemma WorthWithinNet(l: Ledger, shares: nat)
    requires Sound(l) && shares <= l.supply
    ensures shares * Rate(l) <= Net(l)
  {
    if l.supply != 0 {
      RateIsFloor(l);
      MulMono(shares, l.supply, Rate(l));
    }
  }

  // A CW20 planet pays no claims: deduct_tax refuses its asset.
  lemma {:induction false} TokenPlanetsClaimNothing(config: Config, txs: seq<Tx>)
    requires config.asset.Token?
    ensures var w := Run(Genesis(config), txs);
            w.config.asset == config.asset && w.totals.unsettled == 0
  {
    if txs != [] {
      TokenPlanetsClaimNothing(config, txs[..|txs| - 1]);
    }
  }

  // An unbond that the balance can pay is worth at most two units more than the balance, and no more
  // than the balance if it is not taxed or the balance covers VAULTS.
  lemma PaidWorthFits(config: Config, txs: seq<Tx>, sender: Addr, amount: nat, tax: TaxPolicy)
    requires config.commissionRate <= ONE && AllRegulated(txs) && tax.rate <= ONE
    ensures var w := Run(Genesis(config), txs);
            && Good(w)
            && var worth := Quote(w.ledger, amount);
               Step(w, Unbond(sender, amount, tax)).Ok? ==>
                 && worth <= w.balance + 2
                 && (config.asset.Token? || TaxFree(config.asset, tax) || w.totals.unsettled == 0 ==>
                       worth <= w.balance)
  {
    var w := Run(Genesis(config), txs);
    RunIsReachable(config, txs);
    NetIsCoveredExactlyWhen(w);
    AssetStays(config, txs);
    if Step(w, Unbond(sender, amount, tax)).Ok? {
      PaidWorth(w, sender, amount, tax);
      if config.asset.Token? {
        TokenPlanetsClaimNothing(config, txs);
      }
    }
  }

  lemma PaidWorth(w: World, sender: Addr, amount: nat, tax: TaxPolicy)
    requires Good(w) && Step(w, Unbond(sender, amount, tax)).Ok? && tax.rate <= ONE
    ensures var worth := Quote(w.ledger, amount);
            && (w.config.asset.NativeToken? ==> worth <= w.balance + 2)
            && (TaxFree(w.config.asset, tax) || Net(w.ledger) <= FromUint(w.balance) ==> worth <= w.balance)
  {
    var worth := Quote(w.ledger, amount);
    BondAndUnbondCommit(w, sender, amount, tax);
    TotalSet(w.shares, sender, 0);
    if w.config.asset.NativeToken? {
      LeavesAtMostTwo(w.config.asset, tax, worth);
    }
    if TaxFree(w.config.asset, tax) {
      NoTax(w.config.asset, tax, worth);
    }
    if Net(w.ledger) <= FromUint(w.balance) {
      WorthWithinBalance(w.ledger, w.balance, amount);
    }
  }

  lemma WorthWithinBalance(l: Ledger, balance: nat, shares: nat)
    requires Sound(l) && shares <= l.supply && Net(l) <= FromUint(balance)
    ensures Quote(l, shares) <= balance
  {
    WorthWithinNet(l, shares);
    FloorAtMost(shares * Rate(l), ONE, balance);
  }

  lemma {:induction false} AssetStays(config: Config, txs: seq<Tx>)
    ensures Run(Genesis(config), txs).config.asset == config.asset
  {
    if txs != [] {
      AssetStays(config, txs[..|txs| - 1]);
    }
  }

  // As long as every real balance is a Uint128, as on the chain, no product overflows 256 bits in
  // any reachable state and no narrowing fails. The one exception is the worth of an unbond from a
  // taxed planet with open claims: it can exceed 128 bits by one, when the balance still pays for it.
  lemma WidthsSuffice(config: Config, txs: seq<Tx>, amount: nat, balanceAfter: nat, sender: Addr, tax: TaxPolicy)
    requires config.commissionRate <= ONE && AllRegulated(txs)
    requires forall k :: 0 <= k <= |txs| ==> Run(Genesis(config), txs[..k]).balance < UINT128
    requires amount < UINT128 && balanceAfter < UINT128 && tax.rate <= ONE
    ensures var w := Run(Genesis(config), txs);
            && Good(w) && Fits(w, amount, balanceAfter) && Narrows(w.ledger, amount)
            && (Step(w, Unbond(sender, amount, tax)).Ok? ==>
                  && Quote(w.ledger, amount) <= UINT128 + 1
                  && (config.asset.Token? || TaxFree(config.asset, tax) || w.totals.unsettled == 0 ==>
                        Quote(w.ledger, amount) < UINT128))
  {
    assert txs[..|txs|] == txs;
    PaidWorthFits(config, txs, sender, amount, tax);
    BalancesKeepNarrow(config, txs);
    BalanceCoversVaults(config, txs);
    ReachableIsGood(config, txs);
    var w := Run(Genesis(config), txs);
    NarrowFits(w, amount, balanceAfter);
    BackedNarrows(w.ledger, amount);
  }
}
