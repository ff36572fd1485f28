// The registry's trial run against a planet: what the rounding of bond and unbond, and the tax on
// the coins that travel, make of the verdict.

module Admission {
  import opened Wrappers
  import opened FixedPoint
  import opened Assets
  import opened VaultLedger
  import opened Shares
  import opened PlanetWorld
  import opened PlanetRuns
  import opened RegistryWorld

  // What starflet's balance pays for the trial bond, the tax on the coin included.
  function TrialCost(asset: AssetInfo, tax: TaxPolicy): nat {
    VALIDATION_AMOUNT + Levy(asset, tax, VALIDATION_AMOUNT)
  }

  // The trial as the planet `w` answers it: `me` is starflet, which owns `start` units of the asset.
  function TrialOf(w: World, me: Addr, vaultToken: Addr, start: nat, tax: TaxPolicy): Trial
    requires w.config.asset.NativeToken?
  {
    var asset := w.config.asset;
    var bonded := PlanetWorld.Step(w, Bond(me, VALIDATION_AMOUNT));
    if start < TrialCost(asset, tax) || bonded.Err? then
      Trial(Some((vaultToken, asset)), start, None, None, tax)
    else
      var holding := Holding(bonded.value.shares, me);
      var unbonded := PlanetWorld.Step(bonded.value, Unbond(me, holding, tax));
      var end :=
        if unbonded.Err? then None
        else
          var worth := Unbonded(bonded.value.ledger, holding).value.1;
          Some(start - TrialCost(asset, tax) + DeductTax(asset, tax, worth).value);
      Trial(Some((vaultToken, asset)), start, Some(holding), end, tax)
  }

  // The trial has the result that lets AddPlanet commit.
  predicate Passes(t: Trial) {
    t.config.Some? && t.bonded.Some? && t.bonded.value > 0 && t.end.Some? &&
    Verdict(t.config.value.1, t.tax, t.start, t.end.value).Ok?
  }

  // The tokens minted for the trial amount, and what unbonding them at once is worth.
  function Minted(l: Ledger): nat
    requires Sound(l) && Rate(l) != 0
  {
    Bonded(l, VALIDATION_AMOUNT).value.1
  }

  function Worth(l: Ledger): nat
    requires Sound(l) && Rate(l) != 0
  {
    var (l1, minted) := Bonded(l, VALIDATION_AMOUNT).value;
    BondKeepsRate(l, VALIDATION_AMOUNT);
    UnbondKeepsRate(l1, minted);
    Unbonded(l1, minted).value.1
  }

  // How the trial of a healthy planet comes out, when starflet held none of its tokens before.
  lemma TrialNumbers(w: World, me: Addr, vaultToken: Addr, start: nat, tax: TaxPolicy)
    requires Good(w) && w.config.asset.NativeToken? && Holding(w.shares, me) == 0
    requires TrialCost(w.config.asset, tax) <= start
    ensures Rate(w.ledger) != 0
    ensures var t := TrialOf(w, me, vaultToken, start, tax);
            var back := start - TrialCost(w.config.asset, tax)
                        + DeductTax(w.config.asset, tax, Worth(w.ledger)).value;
            && t.bonded == Some(Minted(w.ledger))
            && (t.end.Some? ==> t.end.value == back)
            && (t.end.Some? <==> PaysBack(w, tax))
  {
    TrialBond(w, me, tax);
    var w1 := PlanetWorld.Step(w, Bond(me, VALIDATION_AMOUNT)).value;
    TrialUnbond(w1, me, Minted(w.ledger), tax);
  }

  // The planet owns enough to pay for the tokens of the trial.
  predicate PaysBack(w: World, tax: TaxPolicy)
    requires Sound(w.ledger) && Rate(w.ledger) != 0
  {
    PayoutCost(w.config.asset, tax, Worth(w.ledger), Minted(w.ledger)) <= w.balance + VALIDATION_AMOUNT
  }

  lemma TrialBond(w: World, me: Addr, tax: TaxPolicy)
    requires Good(w) && Holding(w.shares, me) == 0
    ensures Rate(w.ledger) != 0
    ensures var bonded := PlanetWorld.Step(w, Bond(me, VALIDATION_AMOUNT));
            && bonded.Ok? && Good(bonded.value) && bonded.value.config == w.config
            && bonded.value.ledger == Bonded(w.ledger, VALIDATION_AMOUNT).value.0
            && Holding(bonded.value.shares, me) == Minted(w.ledger)
            && bonded.value.balance == w.balance + VALIDATION_AMOUNT
  {
    BackedIsRateOne(w.ledger);
    BondAndUnbondCommit(w, me, VALIDATION_AMOUNT, tax);
    StepGood(w, Bond(me, VALIDATION_AMOUNT));
  }

  lemma TrialUnbond(w: World, me: Addr, minted: nat, tax: TaxPolicy)
    requires Good(w) && minted <= Holding(w.shares, me)
    ensures Unbonded(w.ledger, minted).Ok?
    ensures PlanetWorld.Step(w, Unbond(me, minted, tax)).Ok? <==>
            PayoutCost(w.config.asset, tax, Unbonded(w.ledger, minted).value.1, minted) <= w.balance
  {
    BondAndUnbondCommit(w, me, minted, tax);
    TotalSet(w.shares, me, 0);
    UnbondKeepsRate(w.ledger, minted);
  }

  // What the verdict compares with ten: the trial coin is taxed on top while the contract reckons
  // the tax out of it, and the planet returns `worth` instead of the whole amount.
  function Gap(asset: AssetInfo, tax: TaxPolicy, worth: nat): int
    requires asset.NativeToken?
  {
    Levy(asset, tax, VALIDATION_AMOUNT) - ComputeTax(asset, tax, VALIDATION_AMOUNT)
    + DeductTax(asset, tax, VALIDATION_AMOUNT).value - DeductTax(asset, tax, worth).value
  }

  // A planet passes exactly when it mints something for the trial amount and can pay it back,
  // starflet can pay for the trial and twice its tax, and the gap is at least zero and at most ten.
  lemma PlanetPassesExactlyWhen(w: World, me: Addr, vaultToken: Addr, start: nat, tax: TaxPolicy)
    requires Good(w) && w.config.asset.NativeToken? && Holding(w.shares, me) == 0
    ensures Rate(w.ledger) != 0
    ensures Passes(TrialOf(w, me, vaultToken, start, tax)) <==>
              && TrialCost(w.config.asset, tax) <= start
              && Minted(w.ledger) > 0 && PaysBack(w, tax)
              && 2 * ComputeTax(w.config.asset, tax, VALIDATION_AMOUNT) <= start
              && 0 <= Gap(w.config.asset, tax, Worth(w.ledger)) <= DECIMAL_DIFF
  {
    BackedIsRateOne(w.ledger);
    if TrialCost(w.config.asset, tax) <= start {
      TrialNumbers(w, me, vaultToken, start, tax);
    }
  }

  // A planet with holders can always pay the trial back.
  lemma LivePlanetPassesExactlyWhen(w: World, me: Addr, vaultToken: Addr, start: nat, tax: TaxPolicy)
    requires Good(w) && w.config.asset.NativeToken? && Holding(w.shares, me) == 0 && w.ledger.supply != 0
    ensures Rate(w.ledger) != 0
    ensures Passes(TrialOf(w, me, vaultToken, start, tax)) <==>
              && TrialCost(w.config.asset, tax) <= start
              && Minted(w.ledger) > 0
              && 2 * ComputeTax(w.config.asset, tax, VALIDATION_AMOUNT) <= start
              && 0 <= Gap(w.config.asset, tax, Worth(w.ledger)) <= DECIMAL_DIFF
  {
    PlanetPassesExactlyWhen(w, me, vaultToken, start, tax);
    RoundTrip(w.ledger, VALIDATION_AMOUNT);
    DeductedPaymentFits(w.config.asset, tax, Worth(w.ledger));
  }

  // A planet without holders returns, on top of the trial amount, the net that was left behind in it,
  // once rounded to an amount for each token. It may not own that, and it must not return too much.
  lemma EmptyPlanetPassesExactlyWhen(w: World, me: Addr, vaultToken: Addr, start: nat, tax: TaxPolicy)
    requires Good(w) && w.config.asset.NativeToken? && Holding(w.shares, me) == 0 && w.ledger.supply == 0
    ensures var asset := w.config.asset;
            var worth := VALIDATION_AMOUNT + UintMulDec(VALIDATION_AMOUNT, Net(w.ledger) / VALIDATION_AMOUNT);
            Passes(TrialOf(w, me, vaultToken, start, tax)) <==>
              && TrialCost(asset, tax) <= start
              && PayoutCost(asset, tax, worth, VALIDATION_AMOUNT) <= w.balance + VALIDATION_AMOUNT
              && 2 * ComputeTax(asset, tax, VALIDATION_AMOUNT) <= start
              && 0 <= Gap(asset, tax, worth) <= DECIMAL_DIFF
  {
    PlanetPassesExactlyWhen(w, me, vaultToken, start, tax);
    EmptyWorth(w.ledger);
  }

  lemma EmptyWorth(l: Ledger)
    requires Sound(l) && l.supply == 0
    ensures Minted(l) == VALIDATION_AMOUNT
    ensures Worth(l) == VALIDATION_AMOUNT + UintMulDec(VALIDATION_AMOUNT, Net(l) / VALIDATION_AMOUNT)
  {
    RoundTripFromEmpty(l, VALIDATION_AMOUNT);
    RateOfFirstBond(Net(l), VALIDATION_AMOUNT);
    var l1 := Bonded(l, VALIDATION_AMOUNT).value.0;
    assert Rate(l1) == ONE + Net(l) / VALIDATION_AMOUNT;
  }

  // Without tax that is: when less than one unit has been left behind in it.
  lemma EmptyUntaxedPlanetPassesExactlyWhen(w: World, me: Addr, vaultToken: Addr, start: nat, tax: TaxPolicy)
    requires Good(w) && w.config.asset.NativeToken? && Holding(w.shares, me) == 0 && w.ledger.supply == 0
    requires TaxFree(w.config.asset, tax)
    ensures Passes(TrialOf(w, me, vaultToken, start, tax)) <==>
            VALIDATION_AMOUNT <= start && Net(w.ledger) < ONE
  {
    EmptyPlanetPassesExactlyWhen(w, me, vaultToken, start, tax);
    var worth := VALIDATION_AMOUNT + UintMulDec(VALIDATION_AMOUNT, Net(w.ledger) / VALIDATION_AMOUNT);
    NoTax(w.config.asset, tax, VALIDATION_AMOUNT);
    NoTax(w.config.asset, tax, worth);
    FloorBounds(Net(w.ledger), VALIDATION_AMOUNT);
    if Net(w.ledger) >= ONE {
      FloorAtLeast(Net(w.ledger), VALIDATION_AMOUNT, 1_000_000_000_000);
    }
  }

  // Three tokens that have come to be worth four units are paid with three: the last unit stays with
  // a planet without holders, and no trial of it passes any more, however much starflet owns.
  lemma EmptyPlanetIsRejected(config: Config, who: Addr, exitTax: TaxPolicy,
                              me: Addr, vaultToken: Addr, start: nat, tax: TaxPolicy)
    requires config.commissionRate == 0 && TaxFree(config.asset, exitTax) && TaxFree(config.asset, tax)
    ensures var txs := [Bond(who, 3), Execute(config.owner, 4, false), Unbond(who, 3, exitTax)];
            var w := PlanetWorld.Run(PlanetWorld.Genesis(config), txs);
            && w.ledger == Ledger(FromUint(1), 0, 0) && w.balance == 1 && w.config == config
            && !Passes(TrialOf(w, me, vaultToken, start, tax))
  {
    UnitIsLeft(config, who, exitTax);
    var txs := [Bond(who, 3), Execute(config.owner, 4, false), Unbond(who, 3, exitTax)];
    UnitIsRejected(PlanetWorld.Run(PlanetWorld.Genesis(config), txs), me, vaultToken, start, tax);
  }

  lemma UnitIsLeft(config: Config, who: Addr, exitTax: TaxPolicy)
    requires config.commissionRate == 0 && TaxFree(config.asset, exitTax)
    ensures var txs := [Bond(who, 3), Execute(config.owner, 4, false), Unbond(who, 3, exitTax)];
            var w := PlanetWorld.Run(PlanetWorld.Genesis(config), txs);
            Good(w) && w.ledger == Ledger(FromUint(1), 0, 0) && w.balance == 1 && w.config == config
  {
    var txs := [Bond(who, 3), Execute(config.owner, 4, false), Unbond(who, 3, exitTax)];
    RunOfThree(PlanetWorld.Genesis(config), txs);
    ReachableIsGood(config, txs);
    FirstBond(PlanetWorld.Genesis(config), who, 3);
    var w1 := PlanetWorld.Next(PlanetWorld.Genesis(config), txs[0]);
    PlainGain(w1, 4);
    OneUnitStays(PlanetWorld.Next(w1, txs[1]), who, exitTax);
  }

  lemma UnitIsRejected(w: World, me: Addr, vaultToken: Addr, start: nat, tax: TaxPolicy)
    requires Good(w) && w.ledger == Ledger(FromUint(1), 0, 0) && TaxFree(w.config.asset, tax)
    ensures !Passes(TrialOf(w, me, vaultToken, start, tax))
  {
    TotalSet(w.shares, me, 0);
    EmptyUntaxedPlanetPassesExactlyWhen(w, me, vaultToken, start, tax);
  }

  lemma OneUnitStays(w: World, who: Addr, tax: TaxPolicy)
    requires TaxFree(w.config.asset, tax) && w.ledger == Ledger(FromUint(4), 0, 3)
    requires Holding(w.shares, who) == 3 && w.balance == 4
    ensures var w' := PlanetWorld.Next(w, Unbond(who, 3, tax));
            w'.ledger == Ledger(FromUint(1), 0, 0) && w'.balance == 1 && w'.config == w.config
  {
    assert Unbonded(w.ledger, 3) == Ok((Ledger(FromUint(1), 0, 0), 3));
    NoTax(w.config.asset, tax, 3);
  }

  // ---- rounding alone

  // Bonding the trial amount at this rate and getting back the tokens at the same rate loses at
  // most what the registry tolerates.
  predicate Tolerated(rate: nat)
    requires rate != 0
  {
    var minted := UintDivDec(VALIDATION_AMOUNT, rate);
    minted > 0 && VALIDATION_AMOUNT <= UintMulDec(minted, rate) + DECIMAL_DIFF
  }

  // Every untaxed planet with holders and this rate passes, in whatever state calls have led to, if
  // starflet can pay for the trial.
  ghost predicate AlwaysPasses(rate: nat) {
    forall w: World, me: Addr, vaultToken: Addr, start: nat, tax: TaxPolicy ::
      && Reachable(w) && Good(w) && Holding(w.shares, me) == 0 && TaxFree(w.config.asset, tax)
      && w.ledger.supply != 0 && Rate(w.ledger) == rate && VALIDATION_AMOUNT <= start
      ==> Passes(TrialOf(w, me, vaultToken, start, tax))
  }

  lemma UntaxedPlanetPassesExactlyWhen(w: World, me: Addr, vaultToken: Addr, start: nat, tax: TaxPolicy)
    requires Good(w) && TaxFree(w.config.asset, tax) && Holding(w.shares, me) == 0 && w.ledger.supply != 0
    ensures Rate(w.ledger) != 0
    ensures Passes(TrialOf(w, me, vaultToken, start, tax)) <==>
              && VALIDATION_AMOUNT <= start && Minted(w.ledger) > 0
              && VALIDATION_AMOUNT <= Worth(w.ledger) + DECIMAL_DIFF
  {
    LivePlanetPassesExactlyWhen(w, me, vaultToken, start, tax);
    NoTax(w.config.asset, tax, VALIDATION_AMOUNT);
    NoTax(w.config.asset, tax, Worth(w.ledger));
    RoundTrip(w.ledger, VALIDATION_AMOUNT);
  }

  // The bond can only raise the rate at which the tokens are given back.
  lemma WorthAtOldRate(l: Ledger)
    requires Sound(l) && Rate(l) != 0
    ensures UintMulDec(Minted(l), Rate(l)) <= Worth(l)
  {
    BondKeepsRate(l, VALIDATION_AMOUNT);
    var l1 := Bonded(l, VALIDATION_AMOUNT).value.0;
    MulMono(Rate(l), Rate(l1), Minted(l));
    FloorMono(Minted(l) * Rate(l), Minted(l) * Rate(l1), ONE);
  }

  lemma FloorIs(n: nat, d: nat, q: nat)
    requires d != 0 && d * q <= n < d * q + d
    ensures n / d == q
  {
    FloorAtLeast(n, d, q);
    FloorAtMost(n, d, q);
  }

  lemma ToleratedPasses(w: World, me: Addr, vaultToken: Addr, start: nat, tax: TaxPolicy)
    requires Good(w) && Holding(w.shares, me) == 0 && TaxFree(w.config.asset, tax)
    requires w.ledger.supply != 0 && VALIDATION_AMOUNT <= start
    ensures Rate(w.ledger) != 0
    ensures Tolerated(Rate(w.ledger)) ==> Passes(TrialOf(w, me, vaultToken, start, tax))
  {
    UntaxedPlanetPassesExactlyWhen(w, me, vaultToken, start, tax);
    WorthAtOldRate(w.ledger);
  }

  // With so many tokens and this exact rate, the bond does not raise the rate.
  lemma WorstLedger(l: Ledger, rate: nat)
    requires Sound(l) && 0 < rate <= l.supply && Net(l) == l.supply * rate
    ensures Rate(l) == rate
    ensures Worth(l) == UintMulDec(Minted(l), rate)
  {
    FloorIs(Net(l), l.supply, rate);
    var minted := Minted(l);
    MintBounds(VALIDATION_AMOUNT, rate);
    var l1 := Bonded(l, VALIDATION_AMOUNT).value.0;
    assert (l.supply + minted) * rate == l.supply * rate + minted * rate;
    FloorIs(Net(l1), l1.supply, rate);
  }

  // One bond and one gain lead to such a ledger, at any rate above one.
  lemma WorstRun(who: Addr, owner: Addr, rate: nat) returns (w: World)
    requires ONE < rate
    ensures Reachable(w) && Good(w) && w.config.asset == NativeToken(LUNA)
    ensures w.ledger == Ledger(FromUint(rate * rate), 0, rate * ONE)
    ensures forall other :: other != who ==> Holding(w.shares, other) == 0
  {
    var config := Config(owner, 0, NativeToken(LUNA), 1);
    var txs := [Bond(who, rate * ONE), Execute(owner, rate * rate, false)];
    w := PlanetWorld.Run(PlanetWorld.Genesis(config), txs);
    RunOfTwo(PlanetWorld.Genesis(config), txs);
    ReachableIsGood(config, txs);
    RunIsReachable(config, txs);
    FirstBond(PlanetWorld.Genesis(config), who, rate * ONE);
    MulMono(ONE + 1, rate, rate);
    PlainGain(PlanetWorld.Next(PlanetWorld.Genesis(config), txs[0]), rate * rate);
  }

  // Rounding fails no planet of a given rate exactly when that rate is tolerated: whatever the
  // rest of the state is, the trial loses no more than at the old rate, and it can lose as much.
  lemma RateAlwaysPassesExactlyWhen(rate: nat)
    requires ONE <= rate
    ensures AlwaysPasses(rate) <==> Tolerated(rate)
  {
    if Tolerated(rate) {
      forall w: World, me: Addr, vaultToken: Addr, start: nat, tax: TaxPolicy |
        && Reachable(w) && Good(w) && Holding(w.shares, me) == 0 && TaxFree(w.config.asset, tax)
        && w.ledger.supply != 0 && Rate(w.ledger) == rate && VALIDATION_AMOUNT <= start
        ensures Passes(TrialOf(w, me, vaultToken, start, tax))
      {
        ToleratedPasses(w, me, vaultToken, start, tax);
      }
    } else {
      SomePlanetFails(rate, TaxPolicy(0, 0, false), "me", "token");
    }
  }

  lemma SomePlanetFails(rate: nat, tax: TaxPolicy, me: Addr, vaultToken: Addr)
    requires ONE <= rate && !Tolerated(rate)
    ensures !AlwaysPasses(rate)
  {
    if rate == ONE {
      OneIsTolerated(rate);
    }
    var w := WorstRun(me + "'s holder", "owner", rate);
    assert Net(w.ledger) == w.ledger.supply * rate;
    WorstLedger(w.ledger, rate);
    UntaxedPlanetPassesExactlyWhen(w, me, vaultToken, VALIDATION_AMOUNT, tax);
    assert !Passes(TrialOf(w, me, vaultToken, VALIDATION_AMOUNT, tax));
  }

  lemma OneIsTolerated(rate: nat)
    requires rate == ONE
    ensures Tolerated(rate)
  {
    FloorIs(VALIDATION_AMOUNT * rate, rate, VALIDATION_AMOUNT);
  }

  // All rates from one to ten are tolerated; at nineteen the rounding alone costs eleven units.
  lemma HonestRates(rate: nat)
    requires ONE <= rate <= 10 * ONE + 1
    ensures Tolerated(rate) && !Tolerated(19 * ONE)
  {
    var million := FromUint(VALIDATION_AMOUNT);
    MintBounds(VALIDATION_AMOUNT, rate);
    FloorAtLeast(million, rate, 1);
    var minted := UintDivDec(VALIDATION_AMOUNT, rate);
    FloorAtLeast(minted * rate, ONE, VALIDATION_AMOUNT - DECIMAL_DIFF);
    FloorIs(million, 19 * ONE, 52_631);
    FloorIs(52_631 * (19 * ONE), ONE, 999_989);
  }

  // Honest planets pass: without tax, any planet with holders and a share rate between one and ten
  // (and one raw unit) is admitted, however its rate has been rounded on the way.
  lemma HonestPlanetPasses(w: World, me: Addr, vaultToken: Addr, start: nat, tax: TaxPolicy)
    requires Good(w) && w.config.asset.NativeToken? && Holding(w.shares, me) == 0
    requires VALIDATION_AMOUNT <= start && TaxFree(w.config.asset, tax)
    requires w.ledger.supply != 0 && Rate(w.ledger) <= 10 * ONE + 1
    ensures Passes(TrialOf(w, me, vaultToken, start, tax))
  {
    BackedIsRateOne(w.ledger);
    HonestRates(Rate(w.ledger));
    ToleratedPasses(w, me, vaultToken, start, tax);
  }

  // ---- tax

  // Tax can fail even a perfect planet: the chain charges it on the trial coin, the verdict allows
  // for what deduct_tax takes out of the same amount, and no live planet makes up the difference.
  lemma TaxCanFailEveryPlanet(w: World, me: Addr, vaultToken: Addr, start: nat, tax: TaxPolicy)
    requires Good(w) && w.config.asset.NativeToken? && Holding(w.shares, me) == 0 && w.ledger.supply != 0
    requires Levy(w.config.asset, tax, VALIDATION_AMOUNT)
           > ComputeTax(w.config.asset, tax, VALIDATION_AMOUNT) + DECIMAL_DIFF
    ensures !Passes(TrialOf(w, me, vaultToken, start, tax))
  {
    LivePlanetPassesExactlyWhen(w, me, vaultToken, start, tax);
    RoundTrip(w.ledger, VALIDATION_AMOUNT);
    DeductTaxMonotone(w.config.asset, tax, Worth(w.ledger), VALIDATION_AMOUNT);
  }

  // The tax on top of the trial amount and the one contained in it, before the cap.
  function OnTop(tax: TaxPolicy): nat {
    var charged := VALIDATION_AMOUNT * tax.rate;
    if tax.roundUp then CeilDiv(charged, ONE) else charged / ONE
  }

  function Contained(tax: TaxPolicy): nat {
    NetWithinGross(VALIDATION_AMOUNT, tax.rate);
    VALIDATION_AMOUNT - FromUint(VALIDATION_AMOUNT) / (tax.rate + ONE)
  }

  // The tax is too much for the verdict exactly when the one on top exceeds the contained one by
  // more than ten and the cap does so too.
  lemma TaxIsTooMuchExactlyWhen(asset: AssetInfo, tax: TaxPolicy)
    requires Taxed(asset)
    ensures Levy(asset, tax, VALIDATION_AMOUNT) > ComputeTax(asset, tax, VALIDATION_AMOUNT) + DECIMAL_DIFF
       <==> OnTop(tax) > Contained(tax) + DECIMAL_DIFF && tax.cap > Contained(tax) + DECIMAL_DIFF
  {}

  // From a rate of 0.4 percent on only the cap decides, up to 0.25 percent the tax is never too much,
  // whichever way the chain rounds.
  lemma RateDecidesTax(tax: TaxPolicy)
    ensures ONE <= 250 * tax.rate ==> OnTop(tax) > Contained(tax) + DECIMAL_DIFF
    ensures 400 * tax.rate <= ONE ==> OnTop(tax) <= Contained(tax) + DECIMAL_DIFF
  {
    var a, rate := VALIDATION_AMOUNT, tax.rate;
    var net := a * ONE / (rate + ONE);
    FloorBounds(a * rate, ONE);
    CeilBounds(a * rate, ONE);
    FloorBounds(a * ONE, rate + ONE);
    NetWithinGross(a, rate);
    if ONE <= 250 * rate {
      ChargedAndNet(rate, OnTop(tax), net);
    }
    if 400 * rate <= ONE {
      LittleCharged(rate, OnTop(tax), net);
    }
  }

  // The tax on top of the trial amount and what is left of it when tax is taken out of it.
  lemma ChargedAndNet(rate: nat, charged: nat, net: nat)
    requires ONE <= 250 * rate
    requires VALIDATION_AMOUNT * rate < ONE * charged + ONE
    requires VALIDATION_AMOUNT * ONE < (rate + ONE) * net + (rate + ONE)
    ensures charged + net > VALIDATION_AMOUNT + DECIMAL_DIFF
  {
    if charged + net <= VALIDATION_AMOUNT + DECIMAL_DIFF {
      var k := VALIDATION_AMOUNT + DECIMAL_DIFF + 1 - charged;
      var bound := (VALIDATION_AMOUNT + DECIMAL_DIFF + 2) * ONE - VALIDATION_AMOUNT * rate;
      MulMono(net + 1, k, rate + ONE);
      assert VALIDATION_AMOUNT * ONE < (rate + ONE) * k;
      assert k * ONE <= bound;
      MulMono(k * ONE, bound, rate + ONE);
      assert (rate + ONE) * (k * ONE) == (rate + ONE) * k * ONE;
      assert (rate + ONE) * bound == rate * bound + ONE * bound;
      SquareOfRate(rate);
      assert false;
    }
  }

  lemma SquareOfRate(rate: nat)
    requires ONE <= 250 * rate
    ensures 12 * ONE * rate + 12 * ONE * ONE <= VALIDATION_AMOUNT * (rate * rate)
  {
    MulMono(ONE, 250 * rate, rate);
  }

  lemma LittleCharged(rate: nat, charged: nat, net: nat)
    requires 400 * rate <= ONE
    requires ONE * charged < VALIDATION_AMOUNT * rate + ONE
    requires (rate + ONE) * net <= VALIDATION_AMOUNT * ONE
    ensures charged + net <= VALIDATION_AMOUNT + DECIMAL_DIFF
  {
    if charged + net > VALIDATION_AMOUNT + DECIMAL_DIFF {
      var k := VALIDATION_AMOUNT + DECIMAL_DIFF + 1;
      var bound := VALIDATION_AMOUNT * rate + ONE + ONE * net;
      assert k * ONE < bound;
      MulMono(k * ONE, bound, rate + ONE);
      assert (rate + ONE) * bound == rate * (VALIDATION_AMOUNT * rate + ONE) + ONE * (VALIDATION_AMOUNT * rate + ONE)
                                     + ONE * ((rate + ONE) * net);
      MulMono(400 * rate, ONE, rate);
      assert false;
    }
  }

  // So at 0.4 percent and more no planet with holders is admitted, whatever the state it is in,
  // however much starflet owns and whoever asks, unless the cap is within ten of the contained tax.
  lemma HighTaxAdmitsNobody(r: Registry, sender: Addr, title: string, description: string,
                            contract: Addr, w: World, me: Addr, vaultToken: Addr, start: nat, tax: TaxPolicy)
    requires Good(w) && Taxed(w.config.asset) && Holding(w.shares, me) == 0 && w.ledger.supply != 0
    requires ONE <= 250 * tax.rate && tax.cap > Contained(tax) + DECIMAL_DIFF
    ensures RegistryWorld.Step(
              r, AddPlanet(sender, contract, title, description, TrialOf(w, me, vaultToken, start, tax))).Err?
  {
    RateDecidesTax(tax);
    TaxIsTooMuchExactlyWhen(w.config.asset, tax);
    TaxCanFailEveryPlanet(w, me, vaultToken, start, tax);
  }

  // Put together: an AddPlanet for such a planet commits in the registry and lists it.
  lemma HonestPlanetIsAdmitted(r: Registry, title: string, description: string,
                               contract: Addr, w: World, me: Addr, vaultToken: Addr, start: nat, tax: TaxPolicy)
    requires |title| <= MAX_TITLE && |description| <= MAX_DESCRIPTION
    requires Good(w) && w.config.asset.NativeToken? && Holding(w.shares, me) == 0
    requires VALIDATION_AMOUNT <= start && TaxFree(w.config.asset, tax)
    requires if w.ledger.supply == 0 then Net(w.ledger) < ONE else Rate(w.ledger) <= 10 * ONE + 1
    ensures var call := AddPlanet(r.admin, contract, title, description, TrialOf(w, me, vaultToken, start, tax));
            && RegistryWorld.Step(r, call).Ok?
            && contract in RegistryWorld.Next(r, call).planets
  {
    if w.ledger.supply == 0 {
      EmptyUntaxedPlanetPassesExactlyWhen(w, me, vaultToken, start, tax);
    } else {
      HonestPlanetPasses(w, me, vaultToken, start, tax);
    }
  }
}
