// A planet together with what the chain keeps for it, as a state machine over whole calls.
// A call either commits all of its effects or leaves the world as it was.

module PlanetWorld {
  import opened Wrappers
  import opened FixedPoint
  import opened Assets
  import opened VaultLedger
  import opened Shares

  datatype Config = Config(owner: Addr, commissionRate: nat, asset: AssetInfo, tokenCodeId: nat)

  // History of committed calls. Whole units: `bonded`, `unbonded`, and since the last settling execute
  // `unsettled`, what was claimed, `dust`, by how much the payments have cost less than what they were
  // prepared from, and `gifts`, what came in without the planet. `gains` counts settlements with a
  // gain and `payments` the payments since the last settlement; the rest are raw decimals.
  datatype Totals = Totals(
    bonded: nat, unbonded: nat, revenue: nat, loss: nat, accrued: nat, drained: nat, gains: nat,
    unsettled: nat, payments: nat, dust: int, gifts: nat)

  const NO_HISTORY := Totals(0, 0, 0, 0, 0, 0, 0, 0, 0, 0, 0)

  // `balance` is what the planet really owns of its asset.
  datatype World = World(config: Config, ledger: Ledger, shares: Holdings, balance: nat, totals: Totals)

  datatype Tx =
    | Bond(sender: Addr, amount: nat)
    | Unbond(sender: Addr, amount: nat, tax: TaxPolicy)
      // An arbitrary message that leaves the planet with `balanceAfter`, settled by the reply;
      // with `must` it is the must-execute reply, which planets built on this package can ask for.
    | Execute(sender: Addr, balanceAfter: nat, must: bool)
    | Claim(sender: Addr, tax: TaxPolicy)
      // `valid` is what the chain answers when the new owner's address is validated.
    | UpdateConfig(
        sender: Addr, owner: Option<Addr>, commissionRate: Option<nat>, tokenCodeId: Option<nat>, valid: bool)
      // Vault tokens change hands without the planet.
    | Transfer(sender: Addr, to: Addr, amount: nat)
      // Somebody sends units of the asset to the planet outside of its calls, or along with them.
    | Gift(amount: nat)

  function Genesis(config: Config): World {
    World(config, EMPTY, map[], 0, NO_HISTORY)
  }

  // What leaves the planet's balance when `worth` units are paid for `shares` tokens: a native
  // payment and the tax charged on it; a CW20 asset is transferred by the number of tokens burnt.
  function PayoutCost(asset: AssetInfo, tax: TaxPolicy, worth: nat, shares: nat): nat {
    if asset.Token? then shares
    else
      var net := DeductTax(asset, tax, worth).value;
      net + Levy(asset, tax, net)
  }

  function BondStep(w: World, sender: Addr, amount: nat): Result<World> {
    var (l, minted) :- Bonded(w.ledger, amount);
    Ok(w.(ledger := l,
          shares := Credit(w.shares, sender, minted),
          balance := w.balance + amount,
          totals := w.totals.(bonded := w.totals.bonded + amount)))
  }

  function UnbondStep(w: World, sender: Addr, amount: nat, tax: TaxPolicy): Result<World> {
    if Holding(w.shares, sender) < amount then Err(InsufficientShares) else
    var (l, worth) :- Unbonded(w.ledger, amount);
    var cost := PayoutCost(w.config.asset, tax, worth, amount);
    if w.balance < cost then Err(InsufficientFunds) else
    Ok(w.(ledger := l,
          shares := Debit(w.shares, sender, amount),
          balance := w.balance - cost,
          totals := w.totals.(unbonded := w.totals.unbonded + worth,
                              payments := w.totals.payments + 1,
                              dust := w.totals.dust + worth - cost)))
  }

  function ExecuteStep(w: World, sender: Addr, balanceAfter: nat, must: bool): Result<World> {
    if sender != w.config.owner then Err(Unauthorized) else
    var l :- Settled(w.ledger, w.config.commissionRate, balanceAfter, must);
    Ok(w.(ledger := l, balance := balanceAfter, totals := SettleTotals(w, balanceAfter)))
  }

  function ClaimStep(w: World, sender: Addr, tax: TaxPolicy): Result<World> {
    if sender != w.config.owner then Err(Unauthorized) else
    var (l, amount) := Claimed(w.ledger);
    var net :- DeductTax(w.config.asset, tax, amount);
    var cost := net + Levy(w.config.asset, tax, net);
    if w.balance < cost then Err(InsufficientFunds) else
    Ok(w.(ledger := l,
          balance := w.balance - cost,
          totals := w.totals.(drained := w.totals.drained + w.ledger.commission,
                              unsettled := w.totals.unsettled + amount,
                              payments := w.totals.payments + 1,
                              dust := w.totals.dust + amount - cost)))
  }

  function TransferStep(w: World, sender: Addr, to: Addr, amount: nat): Result<World> {
    if Holding(w.shares, sender) < amount then Err(InsufficientShares) else
    Ok(w.(shares := Credit(Debit(w.shares, sender, amount), to, amount)))
  }

  function ConfigStep(w: World, sender: Addr, owner: Option<Addr>, commissionRate: Option<nat>,
                      tokenCodeId: Option<nat>, valid: bool): Result<World>
  {
    if sender != w.config.owner then Err(Unauthorized) else
    if owner.Some? && !valid then Err(InvalidAddress) else
    Ok(w.(config := UpdatedConfig(w.config, owner, commissionRate, tokenCodeId)))
  }

  function GiftStep(w: World, amount: nat): World {
    w.(balance := w.balance + amount, totals := w.totals.(gifts := w.totals.gifts + amount))
  }

  // One call, carried out with all the messages it sends.
  function Step(w: World, tx: Tx): Result<World> {
    match tx
    case Bond(sender, amount) => BondStep(w, sender, amount)
    case Unbond(sender, amount, tax) => UnbondStep(w, sender, amount, tax)
    case Execute(sender, balanceAfter, must) => ExecuteStep(w, sender, balanceAfter, must)
    case Claim(sender, tax) => ClaimStep(w, sender, tax)
    case UpdateConfig(sender, owner, commissionRate, tokenCodeId, valid) =>
      ConfigStep(w, sender, owner, commissionRate, tokenCodeId, valid)
    case Transfer(sender, to, amount) => TransferStep(w, sender, to, amount)
    case Gift(amount) => Ok(GiftStep(w, amount))
  }

  function UpdatedConfig(c: Config, owner: Option<Addr>, commissionRate: Option<nat>, tokenCodeId: Option<nat>)
    : Config
  {
    c.(owner := if owner.Some? then owner.value else c.owner,
       commissionRate := if commissionRate.Some? then commissionRate.value else c.commissionRate,
       tokenCodeId := if tokenCodeId.Some? then tokenCodeId.value else c.tokenCodeId)
  }

  function SettleTotals(w: World, balanceAfter: nat): Totals {
    var found, t := FromUint(balanceAfter), w.totals.(unsettled := 0, payments := 0, dust := 0, gifts := 0);
    if found > w.ledger.vaults then
      var revenue := found - w.ledger.vaults;
      t.(revenue := t.revenue + revenue,
         accrued := t.accrued + DecMul(revenue, w.config.commissionRate),
         gains := t.gains + 1)
    else
      t.(loss := t.loss + (w.ledger.vaults - found))
  }

  // A failed call is rolled back.
  function Next(w: World, tx: Tx): World {
    var r := Step(w, tx);
    if r.Ok? then r.value else w
  }

  function Run(w: World, txs: seq<Tx>): World {
    if txs == [] then w else Next(Run(w, txs[..|txs| - 1]), txs[|txs| - 1])
  }

  // Tokens are only made and burnt together with the supply.
  lemma StepShares(w: World, tx: Tx)
    requires Total(w.shares) == w.ledger.supply && Step(w, tx).Ok?
    ensures Total(Step(w, tx).value.shares) == Step(w, tx).value.ledger.supply
  {
    match tx
    case Bond(sender, amount) =>
      TotalCredit(w.shares, sender, Bonded(w.ledger, amount).value.1);
    case Unbond(sender, amount, tax) => TotalDebit(w.shares, sender, amount);
    case Transfer(sender, to, amount) =>
      TotalDebit(w.shares, sender, amount);
      TotalCredit(Debit(w.shares, sender, amount), to, amount);
    case _ =>
  }
}

module PlanetRuns {
  import opened Wrappers
  import opened FixedPoint
  import opened Assets
  import opened VaultLedger
  import opened Shares
  import opened PlanetWorld

  // ---- what every call keeps

  ghost predicate Good(w: World) {
    && w.config.commissionRate <= ONE
    && Total(w.shares) == w.ledger.supply
    && Backed(w.ledger)
  }

  // The one assumption on callers: the owner never sets a commission rate above one.
  predicate Regulated(tx: Tx) {
    tx.UpdateConfig? && tx.commissionRate.Some? ==> tx.commissionRate.value <= ONE
  }

  predicate AllRegulated(txs: seq<Tx>) {
    forall tx :: tx in txs ==> Regulated(tx)
  }

  // No committed call lowers the share rate, except the unbond of the very last token of a planet
  // whose rate was above one: the rate of an empty planet is reset to one.
  lemma StepRate(w: World, tx: Tx)
    requires Good(w) && Regulated(tx) && Step(w, tx).Ok?
    ensures var w' := Step(w, tx).value;
            && Sound(w'.ledger)
            && (Rate(w'.ledger) < Rate(w.ledger) <==>
                tx.Unbond? && tx.amount == w.ledger.supply != 0 && ONE < Rate(w.ledger))
  {
    var l, l' := w.ledger, Step(w, tx).value.ledger;
    match tx
    case Bond(_, amount) => BondKeepsRate(l, amount);
    case Unbond(_, amount, _) => UnbondKeepsRate(l, amount);
    case Execute(_, balanceAfter, must) =>
      SettleKeepsNet(l, w.config.commissionRate, balanceAfter, must);
      RateFollowsNet(l, l');
    case Claim(_, _) => RateFollowsNet(l, l');
    case _ =>
  }

  lemma StepGood(w: World, tx: Tx)
    requires Good(w) && Regulated(tx)
    ensures Good(Next(w, tx))
  {
    if Step(w, tx).Ok? {
      StepShares(w, tx);
      StepRate(w, tx);
      BackedIsRateOne(w.ledger);
      BackedIsRateOne(Next(w, tx).ledger);
    }
  }

  lemma {:induction false} RunGood(w: World, txs: seq<Tx>)
    requires Good(w) && AllRegulated(txs)
    ensures Good(Run(w, txs))
  {
    if txs != [] {
      RunGood(w, txs[..|txs| - 1]);
      StepGood(Run(w, txs[..|txs| - 1]), txs[|txs| - 1]);
    }
  }

  // Backing invariant: in every state reached from instantiation the commission is part of the
  // vaults, each vault token is backed by a whole unit, and the supply is what the holders hold.
  lemma ReachableIsGood(config: Config, txs: seq<Tx>)
    requires config.commissionRate <= ONE && AllRegulated(txs)
    ensures Good(Run(Genesis(config), txs))
  {
    RunGood(Genesis(config), txs);
  }

  // A state that calls can lead to.
  ghost predicate Reachable(w: World) {
    exists config: Config, txs: seq<Tx> ::
      config.commissionRate <= ONE && AllRegulated(txs) && w == Run(Genesis(config), txs)
  }

  lemma RunIsReachable(config: Config, txs: seq<Tx>)
    requires config.commissionRate <= ONE && AllRegulated(txs)
    ensures Reachable(Run(Genesis(config), txs))
  {}

  // Hence a bond always commits and never mints more than was bonded, and an unbond commits
  // exactly when the sender holds the tokens and the planet's real balance covers the payment.
  lemma BondAndUnbondCommit(w: World, sender: Addr, amount: nat, tax: TaxPolicy)
    requires Good(w)
    ensures Step(w, Bond(sender, amount)).Ok?
    ensures Bonded(w.ledger, amount).value.1 <= amount
    ensures Step(w, Unbond(sender, amount, tax)).Ok? <==>
              && amount <= Holding(w.shares, sender)
              && PayoutCost(w.config.asset, tax, Quote(w.ledger, amount), amount) <= w.balance
  {
    BackedIsRateOne(w.ledger);
    BondKeepsRate(w.ledger, amount);
    MintAtMost(amount, Rate(w.ledger));
    TotalSet(w.shares, sender, 0);
    UnbondKeepsRate(w.ledger, amount);
  }

  lemma MintAtMost(amount: nat, rate: nat)
    requires ONE <= rate
    ensures UintDivDec(amount, rate) <= amount
  {
    MulMono(ONE, rate, amount);
    FloorAtMost(amount * ONE, rate, amount);
  }

  // ---- holders

  predicate Keeps(who: Addr, tx: Tx) {
    !(tx.Unbond? && tx.sender == who) && !(tx.Transfer? && tx.sender == who)
  }

  // Whatever the others do, what query_stake_info answers to a holder who keeps their tokens
  // never falls; while they hold any, neither does the share rate.
  lemma {:induction false} HolderNeverLoses(w: World, txs: seq<Tx>, who: Addr)
    requires Good(w) && AllRegulated(txs)
    requires forall tx :: tx in txs ==> Keeps(who, tx)
    ensures var w' := Run(w, txs);
            && Good(w')
            && Holding(w.shares, who) <= Holding(w'.shares, who)
            && (Holding(w.shares, who) != 0 ==> Rate(w.ledger) <= Rate(w'.ledger))
            && Quote(w.ledger, Holding(w.shares, who)) <= Quote(w'.ledger, Holding(w'.shares, who))
  {
    if txs != [] {
      var before, tx := Run(w, txs[..|txs| - 1]), txs[|txs| - 1];
      HolderNeverLoses(w, txs[..|txs| - 1], who);
      StepGood(before, tx);
      if Step(before, tx).Ok? && Holding(w.shares, who) != 0 {
        StepRate(before, tx);
        KeeperRemains(before, tx, who);
      }
      var w' := Run(w, txs);
      if Holding(w.shares, who) != 0 {
        QuoteMonotone(w.ledger, w'.ledger, Holding(w.shares, who), Holding(w'.shares, who));
      }
    }
  }

  // In every reachable state with holders, all of them could be paid what query_stake_info quotes,
  // and the commission on top, out of VAULTS, which exceeds that by less than S + n units raw.
  lemma QuotesAreCovered(config: Config, txs: seq<Tx>)
    requires config.commissionRate <= ONE && AllRegulated(txs)
    ensures var w := Run(Genesis(config), txs);
            && Good(w)
            && var owed := FromUint(Total(Quotes(Rate(w.ledger), w.shares))) + w.ledger.commission;
               w.ledger.supply != 0 ==>
                 owed <= w.ledger.vaults < owed + w.ledger.supply + FromUint(|w.shares|)
  {
    ReachableIsGood(config, txs);
    var w := Run(Genesis(config), txs);
    if w.ledger.supply != 0 {
      Solvency(w.ledger, w.shares);
    }
  }

  // While somebody keeps a token, nobody can unbond the whole supply.
  lemma KeeperRemains(w: World, tx: Tx, who: Addr)
    requires Good(w) && Step(w, tx).Ok? && Keeps(who, tx) && Holding(w.shares, who) != 0
    ensures tx.Unbond? ==> tx.amount < w.ledger.supply
  {
    if tx.Unbond? {
      TotalSet(w.shares, who, 0);
      TotalSet(w.shares[who := 0], tx.sender, 0);
    }
  }

  // ---- conservation

  ghost predicate Conserved(w: World) {
    var t, l := w.totals, w.ledger;
    && l.vaults + FromUint(t.unbonded) + t.loss == FromUint(t.bonded) + t.revenue
    && l.commission + t.loss + t.drained == t.accrued
  }

  lemma StepConserved(w: World, tx: Tx)
    requires Conserved(w)
    ensures Conserved(Next(w, tx))
  {
    if Step(w, tx).Ok? {
      match tx
      case Bond(_, amount) =>
      case Unbond(_, _, _) =>
      case Execute(_, _, _) =>
      case _ =>
    }
  }

  // VAULTS is what was bonded minus what was unbonded plus revenue minus loss; COMMISSION is what
  // was accrued minus what losses and claims took. This holds for any commission rate.
  lemma {:induction false} Conservation(config: Config, txs: seq<Tx>)
    ensures Conserved(Run(Genesis(config), txs))
  {
    if txs != [] {
      Conservation(config, txs[..|txs| - 1]);
      StepConserved(Run(Genesis(config), txs[..|txs| - 1]), txs[|txs| - 1]);
    }
  }

  // A loss is absorbed by the commission or the call does not commit: the holders' net is left
  // exactly as it was. Without `must` no execute commits without a gain.
  lemma LossIsAbsorbedOrRejected(w: World, balanceAfter: nat, must: bool)
    requires Good(w) && FromUint(balanceAfter) <= w.ledger.vaults
    ensures var loss := w.ledger.vaults - FromUint(balanceAfter);
            var r := Step(w, Execute(w.config.owner, balanceAfter, must));
            && (r.Ok? <==> must && loss <= w.ledger.commission)
            && (r.Ok? ==> Net(r.value.ledger) == Net(w.ledger) && r.value.ledger.supply == w.ledger.supply
                          && r.value.ledger.commission == w.ledger.commission - loss)
  {}

  // ---- commission

  ghost predicate AccrualError(w: World) {
    var t, q := w.totals, w.config.commissionRate;
    FromUint(t.accrued) <= t.revenue * q <= FromUint(t.accrued) + t.gains * (ONE - 1)
  }

  lemma {:induction false} AccrualBounds(config: Config, txs: seq<Tx>)
    requires forall tx :: tx in txs ==> !tx.UpdateConfig?
    ensures AccrualError(Run(Genesis(config), txs))
    ensures Run(Genesis(config), txs).config == config
  {
    if txs != [] {
      var before, tx := Run(Genesis(config), txs[..|txs| - 1]), txs[|txs| - 1];
      AccrualBounds(config, txs[..|txs| - 1]);
      if tx.Execute? && FromUint(tx.balanceAfter) > before.ledger.vaults {
        var revenue := FromUint(tx.balanceAfter) - before.ledger.vaults;
        FloorBounds(revenue * config.commissionRate, ONE);
        assert (before.totals.revenue + revenue) * config.commissionRate
            == before.totals.revenue * config.commissionRate + revenue * config.commissionRate;
      }
    }
  }

  // At one fixed rate, k gains accrue at most the commission on their sum, and fewer than k raw
  // units less: every gain rounds down once.
  lemma AccrualFallsShortByLessThanGains(config: Config, txs: seq<Tx>)
    requires forall tx :: tx in txs ==> !tx.UpdateConfig?
    ensures var t := Run(Genesis(config), txs).totals;
            var due := DecMul(t.revenue, config.commissionRate);
            t.accrued <= due && (if t.gains == 0 then due == 0 else due < t.accrued + t.gains)
  {
    AccrualBounds(config, txs);
    var t := Run(Genesis(config), txs).totals;
    FloorBounds(t.revenue * config.commissionRate, ONE);
  }

  // ---- the ledger against the real balance

  ghost predicate Exact(w: World) {
    var owned: int := w.balance + w.totals.unsettled - w.totals.dust - w.totals.gifts;
    owned >= 0 && w.ledger.vaults == FromUint(owned)
  }

  // The books are exact: in every reachable state of any planet, under any tax, VAULTS is the real
  // balance plus what was claimed since the last settlement, less what payments have left behind and
  // what others have sent in since.
  lemma {:induction false} BooksAreExact(config: Config, txs: seq<Tx>)
    ensures Exact(Run(Genesis(config), txs))
  {
    if txs != [] {
      BooksAreExact(config, txs[..|txs| - 1]);
      StepExact(Run(Genesis(config), txs[..|txs| - 1]), txs[|txs| - 1]);
    }
  }

  lemma StepExact(w: World, tx: Tx)
    requires Exact(w)
    ensures Exact(Next(w, tx))
  {
    if Step(w, tx).Ok? {
      match tx
      case Bond(_, _) =>
      case Unbond(_, _, _) =>
      case Execute(_, _, _) =>
      case _ =>
    }
  }

  lemma PayoutCostBound(w: World, amount: nat, tax: TaxPolicy)
    requires Good(w)
    ensures PayoutCost(w.config.asset, tax, Quote(w.ledger, amount), amount) <= Quote(w.ledger, amount)
  {
    if w.config.asset.Token? {
      BackedIsRateOne(w.ledger);
      MulMono(ONE, Rate(w.ledger), amount);
      FloorAtLeast(amount * Rate(w.ledger), ONE, amount);
    } else {
      DeductedPaymentFits(w.config.asset, tax, Quote(w.ledger, amount));
    }
  }

  lemma StepLeavesDust(w: World, tx: Tx)
    requires Good(w) && 0 <= w.totals.dust
    ensures 0 <= Next(w, tx).totals.dust
  {
    if Step(w, tx).Ok? {
      match tx
      case Unbond(sender, amount, tax) => PayoutCostBound(w, amount, tax);
      case Claim(sender, tax) =>
        DeductedPaymentFits(w.config.asset, tax, UintMulDec(1, w.ledger.commission));
      case _ =>
    }
  }

  lemma {:induction false} DustIsNotNegative(config: Config, txs: seq<Tx>)
    requires config.commissionRate <= ONE && AllRegulated(txs)
    ensures 0 <= Run(Genesis(config), txs).totals.dust
  {
    if txs != [] {
      DustIsNotNegative(config, txs[..|txs| - 1]);
      ReachableIsGood(config, txs[..|txs| - 1]);
      StepLeavesDust(Run(Genesis(config), txs[..|txs| - 1]), txs[|txs| - 1]);
    }
  }

  ghost predicate Covered(w: World) {
    w.ledger.vaults <= FromUint(w.balance + w.totals.unsettled)
  }

  // VAULTS never exceeds the real balance by more than the commission claimed since the last
  // settling execute: with no such claim the balance covers VAULTS.
  lemma BalanceCoversVaults(config: Config, txs: seq<Tx>)
    requires config.commissionRate <= ONE && AllRegulated(txs)
    ensures Covered(Run(Genesis(config), txs))
  {
    BooksAreExact(config, txs);
    DustIsNotNegative(config, txs);
  }

  predicate Untaxed(asset: AssetInfo, tx: Tx) {
    (tx.Unbond? ==> TaxFree(asset, tx.tax)) && (tx.Claim? ==> TaxFree(asset, tx.tax))
  }

  // Without tax the payments of a native planet leave nothing behind.
  lemma {:induction false} UntaxedLeavesNoDust(config: Config, txs: seq<Tx>)
    requires config.asset.NativeToken? && forall tx :: tx in txs ==> Untaxed(config.asset, tx)
    ensures var w := Run(Genesis(config), txs);
            w.config.asset == config.asset && w.totals.dust == 0
  {
    if txs != [] {
      var before, tx := Run(Genesis(config), txs[..|txs| - 1]), txs[|txs| - 1];
      UntaxedLeavesNoDust(config, txs[..|txs| - 1]);
      assert Untaxed(config.asset, tx);
      match tx
      case Unbond(sender, amount, tax) =>
        if Step(before, tx).Ok? {
          NoTax(config.asset, tax, Unbonded(before.ledger, amount).value.1);
        }
      case Claim(sender, tax) => NoTax(config.asset, tax, UintMulDec(1, before.ledger.commission));
      case _ =>
    }
  }

  // A tax rate of at most one, for the calls that pay.
  predicate ModestlyTaxed(tx: Tx) {
    (tx.Unbond? || tx.Claim?) ==> tx.tax.rate <= ONE
  }

  lemma StepDust(w: World, tx: Tx)
    requires w.config.asset.NativeToken? && ModestlyTaxed(tx)
    ensures var t, t' := w.totals, Next(w, tx).totals;
            t.dust <= 2 * t.payments ==> t'.dust <= 2 * t'.payments
    ensures Next(w, tx).config.asset == w.config.asset
  {
    match tx
    case Unbond(sender, amount, tax) =>
      if Step(w, tx).Ok? {
        LeavesAtMostTwo(w.config.asset, tax, Unbonded(w.ledger, amount).value.1);
      }
    case Claim(sender, tax) => LeavesAtMostTwo(w.config.asset, tax, UintMulDec(1, w.ledger.commission));
    case _ =>
  }

  lemma LeavesAtMostTwo(asset: AssetInfo, tax: TaxPolicy, gross: nat)
    requires asset.NativeToken? && tax.rate <= ONE
    ensures gross <= PayoutCost(asset, tax, gross, 0) + 2
  {
    DeductTaxLeavesLittle(asset, tax, gross);
    FloorAtMost(tax.rate + ONE - 1, ONE, 1);
  }

  // At tax rates up to one a payment of a native planet leaves at most two units behind.
  lemma {:induction false} DustIsSmall(config: Config, txs: seq<Tx>)
    requires config.asset.NativeToken? && forall tx :: tx in txs ==> ModestlyTaxed(tx)
    ensures var w := Run(Genesis(config), txs);
            w.config.asset == config.asset && w.totals.dust <= 2 * w.totals.payments
  {
    if txs != [] {
      DustIsSmall(config, txs[..|txs| - 1]);
      StepDust(Run(Genesis(config), txs[..|txs| - 1]), txs[|txs| - 1]);
    }
  }

  // try_claim pays commission out without lowering VAULTS. So the balance covers VAULTS exactly
  // when, since the last settling execute, payments have left behind and others have sent in as much
  // as was claimed; the next plain execute commits exactly when its gain makes up for the difference.
  lemma ClaimLeavesVaultsBehind(config: Config, txs: seq<Tx>, balanceAfter: nat)
    ensures var w := Run(Genesis(config), txs);
            && (w.ledger.vaults <= FromUint(w.balance) <==> w.totals.unsettled <= w.totals.dust + w.totals.gifts)
            && (Step(w, Execute(w.config.owner, balanceAfter, false)).Ok? <==>
                balanceAfter + w.totals.dust + w.totals.gifts > w.balance + w.totals.unsettled)
  {
    BooksAreExact(config, txs);
  }

  // Commission is only earned by an execute, which settles all claims, and a claim takes all of it.
  lemma {:induction false} NoCommissionWhileClaimsAreOpen(config: Config, txs: seq<Tx>)
    ensures var w := Run(Genesis(config), txs);
            w.totals.unsettled == 0 || w.ledger.commission == 0
  {
    if txs != [] {
      NoCommissionWhileClaimsAreOpen(config, txs[..|txs| - 1]);
    }
  }

  // So the balance covers what belongs to the holders exactly when it covers all of VAULTS, and both
  // exactly when nothing is claimed that dust and gifts do not make up for.
  lemma NetIsCoveredExactlyWhen(w: World)
    requires Reachable(w)
    ensures Good(w) && 0 <= w.totals.dust
    ensures var covered := w.totals.unsettled <= w.totals.dust + w.totals.gifts;
            && (Net(w.ledger) <= FromUint(w.balance) <==> covered)
            && (w.ledger.vaults <= FromUint(w.balance) <==> covered)
    ensures w.totals.unsettled > w.totals.dust + w.totals.gifts ==>
              Net(w.ledger) + FromUint(w.totals.dust + w.totals.gifts) == FromUint(w.balance + w.totals.unsettled)
  {
    var config: Config, txs: seq<Tx> :|
      config.commissionRate <= ONE && AllRegulated(txs) && w == Run(Genesis(config), txs);
    ReachableIsGood(config, txs);
    BooksAreExact(config, txs);
    DustIsNotNegative(config, txs);
    NoCommissionWhileClaimsAreOpen(config, txs);
  }

  lemma RunOfTwo(w: World, txs: seq<Tx>)
    requires |txs| == 2
    ensures Run(w, txs) == Next(Next(w, txs[0]), txs[1])
  {
    assert txs[..1][..0] == [];
    assert Run(w, txs[..1]) == Next(w, txs[0]);
  }

  lemma RunOfThree(w: World, txs: seq<Tx>)
    requires |txs| == 3
    ensures Run(w, txs) == Next(Next(Next(w, txs[0]), txs[1]), txs[2])
  {
    RunOfTwo(w, txs[..2]);
  }

  // One gain of ten, a claim of its commission of five, and VAULTS is left above the balance.
  lemma BalanceCanFallShort()
    ensures var config := Config("owner", ONE / 2, NativeToken("uusd"), 1);
            var tax := TaxPolicy(0, 0, true);
            var w := Run(Genesis(config), [Execute("owner", 10, false), Claim("owner", tax)]);
            w.balance == 5 && w.ledger.vaults == FromUint(10)
  {
    var config := Config("owner", ONE / 2, NativeToken("uusd"), 1);
    var tax := TaxPolicy(0, 0, true);
    RunOfTwo(Genesis(config), [Execute("owner", 10, false), Claim("owner", tax)]);
    var w1 := Next(Genesis(config), Execute("owner", 10, false));
    assert w1.ledger == Ledger(FromUint(10), FromUint(5), 0) && w1.balance == 10 && w1.config == config;
    ClaimOfUnits(w1, tax, 5);
  }

  lemma ClaimOfUnits(w: World, tax: TaxPolicy, units: nat)
    requires TaxFree(w.config.asset, tax) && w.ledger.commission == FromUint(units) && units <= w.balance
    ensures var w' := Next(w, Claim(w.config.owner, tax));
            && w'.ledger == w.ledger.(commission := 0) && w'.balance == w.balance - units
            && w'.totals.unsettled == w.totals.unsettled + units
            && w'.shares == w.shares && w'.config == w.config
  {
    NoTax(w.config.asset, tax, units);
  }

  // The CW20 branch of try_unbond transfers the number of tokens instead of their worth: the two
  // agree exactly while the premium on the unbonded tokens is below one unit, and otherwise the
  // difference stays with the planet.
  lemma TokenPayoutIsShares(w: World, amount: nat, tax: TaxPolicy)
    requires Good(w) && w.config.asset.Token?
    ensures PayoutCost(w.config.asset, tax, Quote(w.ledger, amount), amount) == Quote(w.ledger, amount)
       <==> amount * (Rate(w.ledger) - ONE) < ONE
  {
    BackedIsRateOne(w.ledger);
    assert amount * Rate(w.ledger) == amount * ONE + amount * (Rate(w.ledger) - ONE);
    FloorBounds(amount * Rate(w.ledger), ONE);
  }

  // Any number of tokens of a CW20 planet, come to be worth twice as many units, is paid with half of
  // that; the rest stays with a planet that has no holders and no books any more.
  lemma TokenHolderIsPaidShort(config: Config, who: Addr, n: nat, tax: TaxPolicy)
    requires config.asset.Token? && config.commissionRate == 0 && n != 0
    ensures var txs := [Bond(who, n), Execute(config.owner, 2 * n, false), Unbond(who, n, tax)];
            var w := Run(Genesis(config), txs);
            && w.totals.unbonded == 2 * n && w.totals.dust == n && w.balance == n
            && w.ledger == EMPTY && Holding(w.shares, who) == 0
  {
    var txs := [Bond(who, n), Execute(config.owner, 2 * n, false), Unbond(who, n, tax)];
    RunOfThree(Genesis(config), txs);
    var w1 := Next(Genesis(config), txs[0]);
    FirstBond(Genesis(config), who, n);
    PlainGain(w1, 2 * n);
    TokensAreTransferred(Next(w1, txs[1]), who, n, tax);
  }

  lemma FirstBond(w: World, who: Addr, amount: nat)
    requires w.ledger == EMPTY && w.shares == map[] && w.balance == 0
    ensures var w' := Next(w, Bond(who, amount));
            && w'.ledger == Ledger(FromUint(amount), 0, amount) && w'.config == w.config
            && w'.shares == map[who := amount] && w'.totals.unbonded == w.totals.unbonded
  {
    FloorAtLeast(amount * ONE, ONE, amount);
    FloorAtMost(amount * ONE, ONE, amount);
  }

  lemma PlainGain(w: World, balanceAfter: nat)
    requires w.config.commissionRate == 0 && FromUint(balanceAfter) > w.ledger.vaults
    ensures var w' := Next(w, Execute(w.config.owner, balanceAfter, false));
            && w'.ledger == Ledger(FromUint(balanceAfter), w.ledger.commission, w.ledger.supply)
            && w'.balance == balanceAfter && w'.config == w.config && w'.shares == w.shares
            && w'.totals.unbonded == w.totals.unbonded && w'.totals.dust == 0
  {
    assert DecMul(FromUint(balanceAfter) - w.ledger.vaults, w.config.commissionRate) == 0;
  }

  lemma TokensAreTransferred(w: World, who: Addr, n: nat, tax: TaxPolicy)
    requires w.config.asset.Token? && w.ledger == Ledger(FromUint(2 * n), 0, n) && n != 0
    requires Holding(w.shares, who) == n && w.balance == 2 * n
    ensures var w', t, t' := Next(w, Unbond(who, n, tax)), w.totals, Next(w, Unbond(who, n, tax)).totals;
            && t'.unbonded == t.unbonded + 2 * n && t'.dust == t.dust + n && w'.balance == n
            && w'.ledger == EMPTY && Holding(w'.shares, who) == 0
  {
    WorthOfDouble(w.ledger, n);
  }

  lemma WorthOfDouble(l: Ledger, n: nat)
    requires l == Ledger(FromUint(2 * n), 0, n) && n != 0
    ensures Unbonded(l, n) == Ok((EMPTY, 2 * n))
  {
    FloorAtLeast(FromUint(2 * n), n, 2 * ONE);
    FloorAtMost(FromUint(2 * n), n, 2 * ONE);
    assert ShareRate(l) == Ok(2 * ONE);
    FloorAtLeast(n * (2 * ONE), ONE, 2 * n);
    FloorAtMost(n * (2 * ONE), ONE, 2 * n);
  }

  // ---- what bonders get back

  // A bonder's principal is safe: whatever happens later, the tokens minted for it are worth at
  // least the amount less (r - 1) rounded up, for as long as they keep them; a bonder of a planet
  // without holders loses nothing at all.
  lemma PrincipalIsSafe(w: World, who: Addr, amount: nat, txs: seq<Tx>)
    requires Good(w) && AllRegulated(txs) && forall tx :: tx in txs ==> Keeps(who, tx)
    ensures var minted := Bonded(w.ledger, amount).value.1;
            var w' := Run(Next(w, Bond(who, amount)), txs);
            && Step(w, Bond(who, amount)).Ok? && Good(w') && minted <= Holding(w'.shares, who)
            && amount <= Quote(w'.ledger, minted) + Slack(w.ledger)
  {
    var tx := Bond(who, amount);
    var w1, minted := Next(w, tx), Bonded(w.ledger, amount).value.1;
    BondAndUnbondCommit(w, who, amount, TaxPolicy(0, 0, false));
    StepGood(w, tx);
    HolderNeverLoses(w1, txs, who);
    MintedIsWorth(w.ledger, amount);
    if minted != 0 {
      QuoteMonotone(w1.ledger, Run(w1, txs).ledger, minted, minted);
    }
  }

  function Slack(l: Ledger): nat
    requires Backed(l)
  {
    BackedIsRateOne(l);
    if l.supply == 0 then 0 else CeilDiv(Rate(l) - 1, ONE)
  }

  lemma MintedIsWorth(l: Ledger, amount: nat)
    requires Backed(l)
    ensures Bonded(l, amount).Ok?
    ensures var (l1, minted) := Bonded(l, amount).value;
            Sound(l1) && amount <= Quote(l1, minted) + Slack(l)
  {
    BackedIsRateOne(l);
    BondKeepsRate(l, amount);
    if l.supply != 0 {
      RoundTrip(l, amount);
    } else if amount != 0 {
      RoundTripFromEmpty(l, amount);
    }
  }

  predicate Trade(tx: Tx) {
    tx.Bond? || tx.Unbond? || tx.Transfer?
  }

  // Trading moves VAULTS by what is bonded and unbonded, and nothing else.
  lemma {:induction false} TradesKeepBooks(w: World, txs: seq<Tx>)
    requires Good(w) && forall tx :: tx in txs ==> Trade(tx)
    requires forall k :: 0 <= k < |txs| ==> Run(w, txs[..k]).ledger.supply != 0
    ensures var w' := Run(w, txs);
            && Good(w') && w'.ledger.commission == w.ledger.commission
            && w'.ledger.vaults + FromUint(w'.totals.unbonded) + FromUint(w.totals.bonded)
               == w.ledger.vaults + FromUint(w.totals.unbonded) + FromUint(w'.totals.bonded)
            && (w'.ledger.supply != 0 ==> Rate(w.ledger) <= Rate(w'.ledger))
  {
    if txs != [] {
      var n := |txs| - 1;
      var before, tx := Run(w, txs[..n]), txs[n];
      forall k | 0 <= k < n
        ensures Run(w, txs[..n][..k]).ledger.supply != 0
      {
        assert txs[..n][..k] == txs[..k];
      }
      TradesKeepBooks(w, txs[..n]);
      assert Trade(tx);
      StepGood(before, tx);
      if Step(before, tx).Ok? {
        StepRate(before, tx);
        TradeKeepsBooks(before, tx);
      }
    }
  }

  lemma TradeKeepsBooks(w: World, tx: Tx)
    requires Trade(tx) && Step(w, tx).Ok?
    ensures var w' := Step(w, tx).value;
            && w'.ledger.commission == w.ledger.commission
            && w'.ledger.vaults + FromUint(w'.totals.unbonded) + FromUint(w.totals.bonded)
               == w.ledger.vaults + FromUint(w.totals.unbonded) + FromUint(w'.totals.bonded)
  {}

  // No sequence of bonds, unbonds and transfers, by whomever, takes out more than it puts in plus
  // what the tokens it makes disappear were worth at the start, up to S raw units, as long as it
  // does not empty the planet on the way (it may at the end).
  lemma TradersTakeNoMore(w: World, txs: seq<Tx>)
    requires Good(w) && w.ledger.supply != 0 && forall tx :: tx in txs ==> Trade(tx)
    requires forall k :: 0 <= k < |txs| ==> Run(w, txs[..k]).ledger.supply != 0
    ensures var w', r := Run(w, txs), Rate(w.ledger);
            var out: int := FromUint(w'.totals.unbonded) - FromUint(w.totals.unbonded);
            var put: int := FromUint(w'.totals.bonded) - FromUint(w.totals.bonded);
            out < put + w.ledger.supply * r - w'.ledger.supply * r + w.ledger.supply
  {
    var w', r := Run(w, txs), Rate(w.ledger);
    TradesKeepBooks(w, txs);
    RateIsFloor(w.ledger);
    if w'.ledger.supply != 0 {
      RateAtLeast(w'.ledger, r);
    }
  }
}
