// contracts/swap-arbitrage as a state machine over whole calls. Its vault is kept in aUST, users
// pay and are paid in a native deposit coin, and the money market converts between the two.

module SwapWorld {
  import opened Wrappers
  import opened FixedPoint
  import opened Assets
  import opened PlanetWorld
  import opened Routes
  import opened Retry

  datatype TmpSwap = TmpSwap(routePath: string, minimumReceive: nat)
  datatype TmpBonder = TmpBonder(bonder: Addr, prevAmount: nat)

  // aUST is a CW20 token, but this contract redeems it by worth instead of transferring it by the
  // number of shares, and nothing taxes it. So its vault moves like that of a planet whose asset is
  // the one native coin that is never taxed, and it is entered as such in the planet's books.
  const AUST := ULUNA

  // `planet` is the vault with its aUST balance, `cash` what the contract owns of `denom`.
  datatype SwapState = SwapState(
    planet: World, denom: string, cash: nat,
    tmpSwap: Option<TmpSwap>, tmpBonder: Option<TmpBonder>)

  // What the outside answers during a Swap call: the exchange rate, the coins paid for the redeemed
  // aUST, what the router would pay for each attempt, and the aUST minted for the final deposit.
  // None is a failed call.
  datatype Env = Env(
    exchangeRate: nat, redeemed: Option<nat>, received: nat -> Option<nat>, minted: Option<nat>)

  datatype Call =
      // A bond of `amount` units of the asset it names, with `sent` deposit coins: nothing compares
      // the two. Other coins are not followed, whether they can be paid is part of `minted`.
    | BondCall(sender: Addr, asset: AssetInfo, amount: nat, sent: nat, tax: TaxPolicy, minted: Option<nat>)
    | UnbondCall(sender: Addr, amount: nat, tax: TaxPolicy, redeemed: Option<nat>)
    | SwapCall(path: string, amount: nat, tax: TaxPolicy, env: Env)
    | ClaimCall(sender: Addr, tax: TaxPolicy, redeemed: Option<nat>)
    | ConfigCall(
        sender: Addr, owner: Option<Addr>, commissionRate: Option<nat>, tokenCodeId: Option<nat>, valid: bool)
    | TransferCall(sender: Addr, to: Addr, amount: nat)
      // aUST and deposit coins that somebody sends to the contract.
    | GiftCall(aust: nat, coins: nat)

  // What is left of `gross` deposit coins for the recipient.
  function NetOf(denom: string, tax: TaxPolicy, gross: nat): nat {
    DeductTax(NativeToken(denom), tax, gross).value
  }

  // What sending `coin` deposit coins costs.
  function CostOf(denom: string, tax: TaxPolicy, coin: nat): nat {
    coin + Levy(NativeToken(denom), tax, coin)
  }

  // The coins sent are always covered by what they were deducted from.
  lemma SpentFits(denom: string, tax: TaxPolicy, gross: nat)
    ensures CostOf(denom, tax, NetOf(denom, tax, gross)) <= gross
  {
    DeductedPaymentFits(NativeToken(denom), tax, gross);
  }

  // And they are the most that can be sent out of it with the tax on them rounded up.
  lemma NetIsGreatest(denom: string, tax: TaxPolicy, gross: nat, n: nat)
    ensures n <= NetOf(denom, tax, gross) <==> CostOf(denom, tax.(roundUp := true), n) <= gross
  {
    DeductTaxIsGreatest(NativeToken(denom), tax.(roundUp := true), gross, n);
  }

  // What stays behind when all of `gross` is sent on.
  function Kept(denom: string, tax: TaxPolicy, gross: nat): nat {
    SpentFits(denom, tax, gross);
    gross - CostOf(denom, tax, NetOf(denom, tax, gross))
  }

  // The router: an attempt goes through if the contract can pay for it and the router can return
  // the minimum; otherwise it fails and leaves no trace.
  function RouterPays(denom: string, tax: TaxPolicy, cash: nat, msg: RouteMsg, received: Option<nat>): Option<nat> {
    var cost := CostOf(denom, tax, msg.coin);
    if cost <= cash && received.Some? && msg.minimumReceive <= received.value
    then Some(cash - cost + received.value)
    else None
  }

  function RouteOf(denom: string, tax: TaxPolicy, cash: nat, path: string, received: nat -> Option<nat>): Route {
    (k: nat, offer: nat) =>
      var msg := GenerateRouteMsg(path, NativeToken(denom), tax, offer);
      if msg.Ok? then RouterPays(denom, tax, cash, msg.value, received(k)) else None
  }

  // aUST and cash once the redeem submessage is over, whether it succeeded or not: its reply runs
  // in both cases and does not look.
  function Redeemed(w: SwapState, amount: nat, env: Env): (nat, nat)
    requires env.exchangeRate != 0
  {
    var aust := UintDivDec(amount, env.exchangeRate);
    if env.redeemed.Some? && aust <= w.planet.balance
    then (w.planet.balance - aust, w.cash + env.redeemed.value)
    else (w.planet.balance, w.cash)
  }

  // A Swap call up to its first route message: the balances at that point.
  function Prepared(w: SwapState, path: string, amount: nat, tax: TaxPolicy, env: Env): Result<(nat, nat)> {
    if env.exchangeRate == 0 then Err(DivisionByZero) else
    var (aust, cash) := Redeemed(w, amount, env);
    if cash + 10 < amount then Err(SwapAmountDiffers) else
    var _ :- GenerateRouteMsg(path, NativeToken(w.denom), tax, cash);
    Ok((aust, cash))
  }

  // The whole chain of replies of a Swap call, up to the settlement: the balances it leaves.
  function SwapBalances(w: SwapState, path: string, amount: nat, tax: TaxPolicy, env: Env): Result<(nat, nat)> {
    var (aust, prepared) :- Prepared(w, path, amount, tax, env);
    match Retried(0, prepared, RouteOf(w.denom, tax, prepared, path, env.received))
    case Exhausted(_) => Err(LimitMinimumReceived)
    case Filled(_, _, cash) =>
      if env.minted.None? then Err(CallFailed)
      else Ok((aust + env.minted.value, Kept(w.denom, tax, cash)))
  }

  // What depositing that asset costs the contract in deposit coins.
  function DepositCost(denom: string, asset: AssetInfo, tax: TaxPolicy, amount: nat): nat {
    if asset == NativeToken(denom) then CostOf(denom, tax, NetOf(denom, tax, amount)) else 0
  }

  function BondCalled(w: SwapState, sender: Addr, asset: AssetInfo, amount: nat, sent: nat, tax: TaxPolicy,
                      minted: Option<nat>): Result<SwapState>
  {
    if asset.Token? then Err(CannotDeductTax) else
    var cost := DepositCost(w.denom, asset, tax, amount);
    if w.cash + sent < cost then Err(InsufficientFunds) else
    if minted.None? then Err(CallFailed) else
    var p :- BondStep(w.planet, sender, minted.value);
    Ok(w.(planet := p, cash := w.cash + sent - cost,
          tmpBonder := Some(TmpBonder(sender, w.planet.balance))))
  }

  function UnbondCalled(w: SwapState, sender: Addr, amount: nat, tax: TaxPolicy, redeemed: Option<nat>)
    : Result<SwapState>
  {
    var p :- UnbondStep(w.planet, sender, amount, tax);
    if redeemed.None? then Err(CallFailed) else
    Ok(w.(planet := p, cash := w.cash + Kept(w.denom, tax, redeemed.value),
          tmpBonder := Some(TmpBonder(sender, w.cash))))
  }

  function SwapCalled(w: SwapState, path: string, amount: nat, tax: TaxPolicy, env: Env): Result<SwapState> {
    var (aust, cash) :- SwapBalances(w, path, amount, tax, env);
    var p :- ExecuteStep(w.planet, w.planet.config.owner, aust, false);
    Ok(w.(planet := p, cash := cash, tmpSwap := None))
  }

  function ClaimCalled(w: SwapState, sender: Addr, tax: TaxPolicy, redeemed: Option<nat>): Result<SwapState> {
    var p :- ClaimStep(w.planet, sender, tax);
    if redeemed.None? then Err(CallFailed) else
    Ok(w.(planet := p, cash := Kept(w.denom, tax, w.cash + redeemed.value)))
  }

  // One call, with its submessages and their replies.
  function Step(w: SwapState, call: Call): Result<SwapState> {
    match call
    case BondCall(sender, asset, amount, sent, tax, minted) => BondCalled(w, sender, asset, amount, sent, tax, minted)
    case UnbondCall(sender, amount, tax, redeemed) => UnbondCalled(w, sender, amount, tax, redeemed)
    case SwapCall(path, amount, tax, env) => SwapCalled(w, path, amount, tax, env)
    case ClaimCall(sender, tax, redeemed) => ClaimCalled(w, sender, tax, redeemed)
    case ConfigCall(sender, owner, commissionRate, tokenCodeId, valid) =>
      var p :- ConfigStep(w.planet, sender, owner, commissionRate, tokenCodeId, valid);
      Ok(w.(planet := p))
    case TransferCall(sender, to, amount) =>
      var p :- TransferStep(w.planet, sender, to, amount);
      Ok(w.(planet := p))
    case GiftCall(aust, coins) => Ok(w.(planet := GiftStep(w.planet, aust), cash := w.cash + coins))
  }

  function Next(w: SwapState, call: Call): SwapState {
    var r := Step(w, call);
    if r.Ok? then r.value else w
  }

  function Run(w: SwapState, calls: seq<Call>): SwapState {
    if calls == [] then w else Next(Run(w, calls[..|calls| - 1]), calls[|calls| - 1])
  }

  function Genesis(owner: Addr, commissionRate: nat, tokenCodeId: nat, denom: string): SwapState {
    SwapState(PlanetWorld.Genesis(Config(owner, commissionRate, AUST, tokenCodeId)), denom, 0, None, None)
  }
}

module SwapRuns {
  import opened Wrappers
  import opened FixedPoint
  import opened Assets
  import opened VaultLedger
  import opened Shares
  import opened PlanetWorld
  import opened PlanetRuns
  import opened Leaving
  import opened Routes
  import opened Retry
  import opened SwapWorld

  // ---- every call moves the vault like a planet call

  // The planet call that a committed call amounts to.
  function Image(w: SwapState, call: Call): Tx
    requires SwapWorld.Step(w, call).Ok?
  {
    match call
    case BondCall(sender, _, _, _, _, minted) => Bond(sender, minted.value)
    case UnbondCall(sender, amount, tax, _) => Unbond(sender, amount, tax)
    case SwapCall(path, amount, tax, env) =>
      Execute(w.planet.config.owner, SwapBalances(w, path, amount, tax, env).value.0, false)
    case ClaimCall(sender, tax, _) => Claim(sender, tax)
    case ConfigCall(sender, owner, commissionRate, tokenCodeId, valid) =>
      UpdateConfig(sender, owner, commissionRate, tokenCodeId, valid)
    case TransferCall(sender, to, amount) => Transfer(sender, to, amount)
    case GiftCall(aust, _) => Gift(aust)
  }

  // The planet calls of a run, leaving out the calls that were rolled back.
  function Trace(w: SwapState, calls: seq<Call>): seq<Tx> {
    if calls == [] then []
    else
      var before, call := SwapWorld.Run(w, calls[..|calls| - 1]), calls[|calls| - 1];
      Trace(w, calls[..|calls| - 1]) + if SwapWorld.Step(before, call).Ok? then [Image(before, call)] else []
  }

  lemma StepIsPlanet(w: SwapState, call: Call)
    requires SwapWorld.Step(w, call).Ok?
    ensures PlanetWorld.Step(w.planet, Image(w, call)) == Ok(SwapWorld.Step(w, call).value.planet)
  {}

  // What a committed call does to the vault, in terms of calls on a planet.
  lemma CallsOnVault(w: SwapState, call: Call)
    requires SwapWorld.Step(w, call).Ok?
    ensures var p, next := w.planet, SwapWorld.Step(w, call).value.planet;
            match call
            case BondCall(sender, _, _, _, _, minted) =>
              minted.Some? && PlanetWorld.Step(p, Bond(sender, minted.value)) == Ok(next)
            case UnbondCall(sender, amount, tax, _) => PlanetWorld.Step(p, Unbond(sender, amount, tax)) == Ok(next)
            case SwapCall(_, _, _, _) =>
              PlanetWorld.Step(p, Execute(p.config.owner, next.balance, false)) == Ok(next)
            case ClaimCall(sender, tax, _) => PlanetWorld.Step(p, Claim(sender, tax)) == Ok(next)
            case ConfigCall(sender, owner, commissionRate, tokenCodeId, valid) =>
              PlanetWorld.Step(p, UpdateConfig(sender, owner, commissionRate, tokenCodeId, valid)) == Ok(next)
            case TransferCall(sender, to, amount) => PlanetWorld.Step(p, Transfer(sender, to, amount)) == Ok(next)
            case GiftCall(aust, _) => PlanetWorld.Step(p, Gift(aust)) == Ok(next)
  {
    StepIsPlanet(w, call);
  }

  // When the calls other than Swap commit: the planet call does, and the outside has done its part. A
  // bond of deposit coins must be payable out of what the contract owns with the coins sent.
  lemma CallCommitsExactlyWhen(w: SwapState, call: Call)
    ensures var p, commits := w.planet, SwapWorld.Step(w, call).Ok?;
            match call
            case BondCall(sender, asset, amount, sent, tax, minted) =>
              commits <==> && asset.NativeToken? && minted.Some?
                           && PlanetWorld.Step(p, Bond(sender, minted.value)).Ok?
                           && (asset == NativeToken(w.denom) ==>
                                 CostOf(w.denom, tax, NetOf(w.denom, tax, amount)) <= w.cash + sent)
            case UnbondCall(sender, amount, tax, redeemed) =>
              commits <==> redeemed.Some? && PlanetWorld.Step(p, Unbond(sender, amount, tax)).Ok?
            case ClaimCall(sender, tax, redeemed) =>
              commits <==> redeemed.Some? && PlanetWorld.Step(p, Claim(sender, tax)).Ok?
            case ConfigCall(sender, owner, commissionRate, tokenCodeId, valid) =>
              commits <==> PlanetWorld.Step(p, UpdateConfig(sender, owner, commissionRate, tokenCodeId, valid)).Ok?
            case TransferCall(sender, to, amount) => commits <==> PlanetWorld.Step(p, Transfer(sender, to, amount)).Ok?
            case GiftCall(_, _) => commits
            case SwapCall(_, _, _, _) => true
  {}

  // Calls that move no deposit coins.
  lemma OtherCallsKeepCash(w: SwapState, call: Call)
    requires call.ConfigCall? || call.TransferCall? || call.GiftCall?
    ensures var w' := SwapWorld.Next(w, call);
            && w'.cash == w.cash + (if call.GiftCall? then call.coins else 0)
            && w' == w.(planet := w'.planet, cash := w'.cash)
  {}

  lemma RunOneMore(w: World, txs: seq<Tx>, tx: Tx)
    ensures PlanetWorld.Run(w, txs + [tx]) == PlanetWorld.Next(PlanetWorld.Run(w, txs), tx)
  {
    assert (txs + [tx])[..|txs|] == txs;
  }

  // The vault of the swap contract, with its aUST balance and its holders, runs as a planet.
  lemma {:induction false} SwapIsPlanet(w: SwapState, calls: seq<Call>)
    ensures PlanetWorld.Run(w.planet, Trace(w, calls)) == SwapWorld.Run(w, calls).planet
  {
    if calls != [] {
      var shorter, call := calls[..|calls| - 1], calls[|calls| - 1];
      var before := SwapWorld.Run(w, shorter);
      SwapIsPlanet(w, shorter);
      if SwapWorld.Step(before, call).Ok? {
        StepIsPlanet(before, call);
        RunOneMore(w.planet, Trace(w, shorter), Image(before, call));
      } else {
        assert Trace(w, calls) == Trace(w, shorter);
      }
    }
  }

  ghost predicate RegulatedCall(call: Call) {
    call.ConfigCall? && call.commissionRate.Some? ==> call.commissionRate.value <= ONE
  }

  ghost predicate KeptBy(who: Addr, call: Call) {
    !(call.UnbondCall? && call.sender == who) && !(call.TransferCall? && call.sender == who)
  }

  lemma {:induction false} TraceFollowsCalls(w: SwapState, calls: seq<Call>, who: Addr)
    ensures (forall call :: call in calls ==> RegulatedCall(call)) ==> AllRegulated(Trace(w, calls))
    ensures (forall call :: call in calls ==> KeptBy(who, call)) ==>
              forall tx :: tx in Trace(w, calls) ==> Keeps(who, tx)
  {
    if calls != [] {
      TraceFollowsCalls(w, calls[..|calls| - 1], who);
      assert calls[|calls| - 1] in calls;
    }
  }

  predicate NeverTaxed(asset: AssetInfo) {
    asset.NativeToken? && !Taxed(asset)
  }

  // VAULTS is the aUST of the contract plus the open claims, less the aUST that others have sent in.
  ghost predicate SoundVault(p: World) {
    && Good(p) && Reachable(p) && NeverTaxed(p.config.asset)
    && Exact(p) && p.totals.dust == 0
  }

  // In every reachable state the vault is backed, its books equal the aUST balance plus what was
  // claimed and less what others have sent in since the last swap, and no Swap is left open.
  lemma ReachableSwapState(owner: Addr, commissionRate: nat, tokenCodeId: nat, denom: string, calls: seq<Call>)
    requires commissionRate <= ONE && forall call :: call in calls ==> RegulatedCall(call)
    ensures var w := SwapWorld.Run(SwapWorld.Genesis(owner, commissionRate, tokenCodeId, denom), calls);
            && SoundVault(w.planet)
            && w.tmpSwap == None
            && ((forall call :: call in calls ==> !call.GiftCall?) ==> w.planet.totals.gifts == 0)
  {
    var w := SwapWorld.Genesis(owner, commissionRate, tokenCodeId, denom);
    VaultIsSound(w, Config(owner, commissionRate, AUST, tokenCodeId), calls);
    TmpSwapIsEmpty(w, calls);
    if forall call :: call in calls ==> !call.GiftCall? {
      NoGifts(w, calls);
    }
  }

  lemma VaultIsSound(w: SwapState, config: Config, calls: seq<Call>)
    requires w.planet == PlanetWorld.Genesis(config) && NeverTaxed(config.asset)
    requires config.commissionRate <= ONE
    requires forall call :: call in calls ==> RegulatedCall(call)
    ensures SoundVault(SwapWorld.Run(w, calls).planet)
  {
    SwapIsPlanet(w, calls);
    TraceFollowsCalls(w, calls, config.owner);
    UntaxedRunIsSound(config, Trace(w, calls));
  }

  lemma UntaxedRunIsSound(config: Config, txs: seq<Tx>)
    requires NeverTaxed(config.asset) && config.commissionRate <= ONE && AllRegulated(txs)
    ensures SoundVault(PlanetWorld.Run(PlanetWorld.Genesis(config), txs))
  {
    ReachableIsGood(config, txs);
    BooksAreExact(config, txs);
    UntaxedLeavesNoDust(config, txs);
  }

  lemma StepGifts(w: SwapState, call: Call)
    requires !call.GiftCall?
    ensures SwapWorld.Next(w, call).planet.totals.gifts <= w.planet.totals.gifts
  {}

  lemma {:induction false} NoGifts(w: SwapState, calls: seq<Call>)
    requires w.planet.totals.gifts == 0 && forall call :: call in calls ==> !call.GiftCall?
    ensures SwapWorld.Run(w, calls).planet.totals.gifts == 0
  {
    if calls != [] {
      NoGifts(w, calls[..|calls| - 1]);
      StepGifts(SwapWorld.Run(w, calls[..|calls| - 1]), calls[|calls| - 1]);
    }
  }

  lemma {:induction false} TmpSwapIsEmpty(w: SwapState, calls: seq<Call>)
    requires w.tmpSwap == None
    ensures SwapWorld.Run(w, calls).tmpSwap == None
  {
    if calls != [] {
      TmpSwapIsEmpty(w, calls[..|calls| - 1]);
    }
  }

  // query_stake_info: the aUST quote, in deposit coins.
  function DepositQuote(p: World, who: Addr, exchangeRate: nat): nat
    requires Sound(p.ledger)
  {
    UintMulDec(Quote(p.ledger, Holding(p.shares, who)), exchangeRate)
  }

  // That is the whole deposit coins that the quoted aUST is worth.
  lemma DepositQuoteIsGreatest(p: World, who: Addr, exchangeRate: nat, n: nat)
    requires Sound(p.ledger)
    ensures n <= DepositQuote(p, who, exchangeRate) <==>
            FromUint(n) <= Quote(p.ledger, Holding(p.shares, who)) * exchangeRate
  {
    var aust := Quote(p.ledger, Holding(p.shares, who));
    FloorBounds(aust * exchangeRate, ONE);
    GreatestMultiple(aust * exchangeRate, ONE, UintMulDec(aust, exchangeRate), n);
  }

  // A depositor who keeps their vault tokens never sees their quote fall, whatever swaps, bonds,
  // unbonds and claims the others make: in aUST, and in deposit coins while aUST does not lose value.
  lemma DepositorNeverLoses(w: SwapState, calls: seq<Call>, who: Addr, exchangeRate: nat, exchangeRate': nat)
    requires Good(w.planet) && forall call :: call in calls ==> RegulatedCall(call) && KeptBy(who, call)
    requires exchangeRate <= exchangeRate'
    ensures var p, p' := w.planet, SwapWorld.Run(w, calls).planet;
            && Good(p')
            && Quote(p.ledger, Holding(p.shares, who)) <= Quote(p'.ledger, Holding(p'.shares, who))
            && DepositQuote(p, who, exchangeRate) <= DepositQuote(p', who, exchangeRate')
  {
    var p, p' := w.planet, SwapWorld.Run(w, calls).planet;
    SwapIsPlanet(w, calls);
    TraceFollowsCalls(w, calls, who);
    HolderNeverLoses(p, Trace(w, calls), who);
    WorthMonotone(Quote(p.ledger, Holding(p.shares, who)), Quote(p'.ledger, Holding(p'.shares, who)),
                  exchangeRate, exchangeRate');
  }

  lemma WorthMonotone(x: nat, x': nat, rate: nat, rate': nat)
    requires x <= x' && rate <= rate'
    ensures UintMulDec(x, rate) <= UintMulDec(x', rate')
  {
    MulMono(x, x', rate);
    MulMono(rate, rate', x');
    FloorMono(x * rate, x' * rate', ONE);
  }

  // ---- leaving

  // Distinct depositors unbond all they hold in `w`, and the money market redeems for each of them.
  predicate Leave(w: SwapState, calls: seq<Call>) {
    && (forall i :: 0 <= i < |calls| ==>
          && calls[i].UnbondCall? && calls[i].amount == Holding(w.planet.shares, calls[i].sender)
          && calls[i].redeemed.Some?)
    && (forall i, j :: 0 <= i < j < |calls| ==> calls[i].sender != calls[j].sender)
  }

  function AsUnbonds(calls: seq<Call>): (txs: seq<Tx>)
    requires forall call :: call in calls ==> call.UnbondCall?
    ensures |txs| == |calls|
    ensures forall i :: 0 <= i < |calls| ==> txs[i] == Unbond(calls[i].sender, calls[i].amount, calls[i].tax)
  {
    seq(|calls|, i requires 0 <= i < |calls| => Unbond(calls[i].sender, calls[i].amount, calls[i].tax))
  }

  lemma RedeemedUnbond(w: SwapState, call: Call)
    requires call.UnbondCall? && call.redeemed.Some?
    ensures var tx := Unbond(call.sender, call.amount, call.tax);
            && (SwapWorld.Step(w, call).Ok? <==> PlanetWorld.Step(w.planet, tx).Ok?)
            && SwapWorld.Next(w, call).planet == PlanetWorld.Next(w.planet, tx)
  {}

  lemma {:induction false} LeaversRun(w: SwapState, calls: seq<Call>)
    requires forall call :: call in calls ==> call.UnbondCall? && call.redeemed.Some?
    ensures SwapWorld.Run(w, calls).planet == PlanetWorld.Run(w.planet, AsUnbonds(calls))
  {
    if calls != [] {
      var shorter, call := calls[..|calls| - 1], calls[|calls| - 1];
      LeaversRun(w, shorter);
      RedeemedUnbond(SwapWorld.Run(w, shorter), call);
      assert AsUnbonds(calls)[..|calls| - 1] == AsUnbonds(shorter);
    }
  }

  ghost predicate AllLeave(w: SwapState, calls: seq<Call>) {
    forall k :: 0 <= k < |calls| ==> SwapWorld.Step(SwapWorld.Run(w, calls[..k]), calls[k]).Ok?
  }

  lemma LeaveAsHolders(w: SwapState, calls: seq<Call>)
    requires Leave(w, calls)
    ensures Exits(w.planet, AsUnbonds(calls))
    ensures AllLeave(w, calls) <==> AllCommit(w.planet, AsUnbonds(calls))
    ensures forall k :: 0 <= k < |calls| ==>
              SwapWorld.Run(w, calls[..k]).planet == PlanetWorld.Run(w.planet, AsUnbonds(calls)[..k])
  {
    var txs := AsUnbonds(calls);
    AllCommitInRun(w.planet, txs);
    forall k | 0 <= k < |calls|
      ensures SwapWorld.Run(w, calls[..k]).planet == PlanetWorld.Run(w.planet, txs[..k])
      ensures SwapWorld.Step(SwapWorld.Run(w, calls[..k]), calls[k]).Ok? <==>
              PlanetWorld.Step(PlanetWorld.Run(w.planet, txs[..k]), txs[k]).Ok?
    {
      LeaversRun(w, calls[..k]);
      assert AsUnbonds(calls[..k]) == txs[..k];
      RedeemedUnbond(SwapWorld.Run(w, calls[..k]), calls[k]);
    }
  }

  // A vault whose aUST covers the depositors' net can pay all of them in any order, each of them at
  // least the aUST they were quoted.
  lemma DepositorsCanLeave(w: SwapState, leave: seq<Call>)
    requires Good(w.planet) && Leave(w, leave) && Net(w.planet.ledger) <= FromUint(w.planet.balance)
    ensures AllLeave(w, leave)
    ensures forall k :: 0 <= k < |leave| ==> QuoteKept(w, leave, k)
  {
    LeaveAsHolders(w, leave);
    CoveredLeave(w.planet, AsUnbonds(leave));
    forall k | 0 <= k < |leave|
      ensures QuoteKept(w, leave, k)
    {
      DepositorKeepsQuote(w, leave, k);
    }
  }

  lemma DepositorKeepsQuote(w: SwapState, leave: seq<Call>, k: nat)
    requires Good(w.planet) && Leave(w, leave) && k < |leave|
    ensures QuoteKept(w, leave, k)
  {
    LeaveAsHolders(w, leave);
    QuoteInTurn(w.planet, AsUnbonds(leave), k);
  }

  ghost predicate QuoteKept(w: SwapState, leave: seq<Call>, k: nat)
    requires Good(w.planet) && k < |leave| && leave[k].UnbondCall?
  {
    var p := SwapWorld.Run(w, leave[..k]).planet;
    Good(p) && Quote(w.planet.ledger, leave[k].amount) <= Quote(p.ledger, leave[k].amount)
  }

  // In reachable states the aUST covers the depositors' net exactly when no more is claimed since the
  // last settlement than others have sent in: without gifts, exactly when no claim is open. Then
  // all depositors can leave; when S + n units raw are missing and all of them try, one is stuck.
  lemma ClaimsDecideWhichDepositorsLeave(w: SwapState, leave: seq<Call>)
    requires SoundVault(w.planet) && Leave(w, leave)
    ensures var l, t := w.planet.ledger, w.planet.totals;
            && (Net(l) <= FromUint(w.planet.balance) <==> t.unsettled <= t.gifts)
            && (t.unsettled <= t.gifts ==>
                  AllLeave(w, leave) && forall k :: 0 <= k < |leave| ==> QuoteKept(w, leave, k))
            && (FromUint(t.gifts) + l.supply + FromUint(|leave|) <= FromUint(t.unsettled) && l.supply != 0 ==>
                  LeavesNobody(w.planet.shares, AsUnbonds(leave)) ==> !AllLeave(w, leave))
  {
    var txs := AsUnbonds(leave);
    LeaveAsHolders(w, leave);
    ClaimsDecideWhoLeaves(w.planet, txs);
    if w.planet.totals.unsettled <= w.planet.totals.gifts {
      DepositorsCanLeave(w, leave);
    }
    if LeavesNobody(w.planet.shares, txs) && w.planet.ledger.supply != 0 {
      assert AllLeaveUntaxed(w.planet, txs);
    }
  }

  // ---- Swap

  // A Swap call is all or nothing: either everything is as it was, or the vault has been set to a
  // strictly larger balance, exactly the rounded commission on the revenue has been added, nobody's
  // tokens have moved, the share rate has not fallen and no Swap is left open.
  lemma SwapIsAllOrNothing(w: SwapState, path: string, amount: nat, tax: TaxPolicy, env: Env)
    requires Good(w.planet)
    ensures var w' := SwapWorld.Next(w, SwapCall(path, amount, tax, env));
            w' == w || (w'.tmpSwap == None && w'.tmpBonder == w.tmpBonder && VaultGained(w.planet, w'.planet))
  {
    var swapped := SwapCalled(w, path, amount, tax, env);
    if swapped.Ok? {
      ExecuteGains(w.planet, swapped.value.planet.balance);
    }
  }

  ghost predicate VaultGained(p: World, p': World) {
    && p'.shares == p.shares && p'.config == p.config && p'.ledger.supply == p.ledger.supply
    && p'.ledger.vaults == FromUint(p'.balance) > p.ledger.vaults
    && p'.ledger.commission ==
         p.ledger.commission + DecMul(p'.ledger.vaults - p.ledger.vaults, p.config.commissionRate)
    && Sound(p.ledger) && Sound(p'.ledger) && Rate(p.ledger) <= Rate(p'.ledger)
  }

  lemma ExecuteGains(p: World, balance: nat)
    requires Good(p) && ExecuteStep(p, p.config.owner, balance, false).Ok?
    ensures VaultGained(p, ExecuteStep(p, p.config.owner, balance, false).value)
  {
    StepRate(p, Execute(p.config.owner, balance, false));
  }

  // When a Swap call commits: the exchange rate is not zero, the path is a route, at most ten units
  // are missing after the redeem, one of the attempts goes through, the deposit is accepted and the
  // aUST it leaves is worth more than the vault.
  lemma SwapCommitsExactlyWhen(w: SwapState, path: string, amount: nat, tax: TaxPolicy, env: Env)
    ensures SwapWorld.Step(w, SwapCall(path, amount, tax, env)).Ok? <==>
            && env.exchangeRate != 0
            && var (aust, prepared) := Redeemed(w, amount, env);
               && amount <= prepared + 10
               && (exists first, second :: StartsWithRoute(path, first, second))
               && SomeAttemptFills(prepared, RouteOf(w.denom, tax, prepared, path, env.received))
               && env.minted.Some? && FromUint(aust + env.minted.value) > w.planet.ledger.vaults
  {
    if env.exchangeRate != 0 {
      RouteAccepted(path, w.denom, tax, Redeemed(w, amount, env).1);
      var prepared := Redeemed(w, amount, env).1;
      FillsExactlyWhen(prepared, RouteOf(w.denom, tax, prepared, path, env.received));
      SettlesExactlyWhen(w, path, amount, tax, env);
    }
  }

  // The redeem of a Swap spends as much aUST as the amount pays for at the exchange rate. If the money
  // market refuses, or the contract owns less aUST, the call goes on with the balances as they were.
  lemma RedeemIsGreatest(w: SwapState, amount: nat, env: Env, n: nat)
    requires env.exchangeRate != 0
    ensures var (aust, cash) := Redeemed(w, amount, env);
            if env.redeemed.Some? && FromUint(amount) < (w.planet.balance + 1) * env.exchangeRate then
              && aust <= w.planet.balance
              && (n <= w.planet.balance - aust <==> n * env.exchangeRate <= FromUint(amount))
              && cash == w.cash + env.redeemed.value
            else aust == w.planet.balance && cash == w.cash
  {
    var q := UintDivDec(amount, env.exchangeRate);
    FloorBounds(FromUint(amount), env.exchangeRate);
    GreatestMultiple(FromUint(amount), env.exchangeRate, q, n);
    GreatestMultiple(FromUint(amount), env.exchangeRate, q, w.planet.balance + 1);
  }

  // A committed Swap deposits what tax leaves of all the coins that its successful attempt has left,
  // and ends with the aUST the redeem left plus what the deposit minted.
  lemma SwapDepositsAll(w: SwapState, path: string, amount: nat, tax: TaxPolicy, env: Env)
    requires SwapWorld.Step(w, SwapCall(path, amount, tax, env)).Ok?
    ensures var w' := SwapWorld.Next(w, SwapCall(path, amount, tax, env));
            && env.exchangeRate != 0 && env.minted.Some?
            && var (aust, prepared) := Redeemed(w, amount, env);
               var r := Retried(0, prepared, RouteOf(w.denom, tax, prepared, path, env.received));
               && r.Filled?
               && w'.planet.balance == aust + env.minted.value
               && w'.cash + CostOf(w.denom, tax, NetOf(w.denom, tax, r.balance)) == r.balance
               && (TaxFree(NativeToken(w.denom), tax) ==> w'.cash == 0)
  {
    var (aust, prepared) := Redeemed(w, amount, env);
    var r := Retried(0, prepared, RouteOf(w.denom, tax, prepared, path, env.received));
    SpentFits(w.denom, tax, r.balance);
    if TaxFree(NativeToken(w.denom), tax) {
      NoTax(NativeToken(w.denom), tax, r.balance);
    }
  }

  lemma RouteAccepted(path: string, denom: string, tax: TaxPolicy, amount: nat)
    ensures GenerateRouteMsg(path, NativeToken(denom), tax, amount).Ok? <==>
            exists first, second :: StartsWithRoute(path, first, second)
  {
    AcceptedPaths(path, NativeToken(denom), tax, amount);
  }

  lemma SettlesExactlyWhen(w: SwapState, path: string, amount: nat, tax: TaxPolicy, env: Env)
    requires env.exchangeRate != 0
    ensures SwapWorld.Step(w, SwapCall(path, amount, tax, env)).Ok? <==>
            var (aust, prepared) := Redeemed(w, amount, env);
            && amount <= prepared + 10
            && GenerateRouteMsg(path, NativeToken(w.denom), tax, prepared).Ok?
            && Retried(0, prepared, RouteOf(w.denom, tax, prepared, path, env.received)).Filled?
            && env.minted.Some? && FromUint(aust + env.minted.value) > w.planet.ledger.vaults
  {}

  // Whether an attempt can shrink the deposit balance is a matter of the route and the tax alone:
  // whatever the router answers, it does not, exactly when the coin and the tax on it fit in the
  // offer (or the attempt cannot be paid at all). Only native_swap, offered undeducted, can miss that.
  lemma RouteNeverShrinksCash(denom: string, tax: TaxPolicy, cash: nat, path: string, offer: nat)
    requires GenerateRouteMsg(path, NativeToken(denom), tax, offer).Ok?
    ensures var msg := GenerateRouteMsg(path, NativeToken(denom), tax, offer).value;
            var fits := CostOf(denom, tax, msg.coin) <= offer;
            && (fits || CostOf(denom, tax, msg.coin) > cash <==>
                forall received: Option<nat> :: RouterPays(denom, tax, cash, msg, received).Some? ==>
                  cash <= RouterPays(denom, tax, cash, msg, received).value)
            && (fits <==> Split(path)[0] != "native_swap" || Levy(NativeToken(denom), tax, offer) == 0)
  {
    var msg := GenerateRouteMsg(path, NativeToken(denom), tax, offer).value;
    SpentFits(denom, tax, offer);
    if CostOf(denom, tax, msg.coin) > offer && CostOf(denom, tax, msg.coin) <= cash {
      assert RouterPays(denom, tax, cash, msg, Some(offer)).Some?;
    }
  }

  // Attempt k, if it is paid at all, sends no more than it offers.
  predicate AttemptIsSafe(denom: string, tax: TaxPolicy, prepared: nat, path: string, k: nat) {
    || Split(path)[0] != "native_swap"
    || Levy(NativeToken(denom), tax, Offered(prepared, k)) == 0
    || CostOf(denom, tax, Offered(prepared, k)) > prepared
  }

  // A Swap that routes this amount leaves the deposit balance no smaller, whatever the router answers.
  ghost predicate NeverShrinks(denom: string, tax: TaxPolicy, prepared: nat, path: string) {
    forall received: nat -> Option<nat> ::
      var r := Retried(0, prepared, RouteOf(denom, tax, prepared, path, received));
      r.Filled? ==> prepared <= r.balance
  }

  lemma SafeAttempt(denom: string, tax: TaxPolicy, prepared: nat, path: string, received: nat -> Option<nat>, k: nat)
    requires AttemptIsSafe(denom, tax, prepared, path, k)
    ensures var left := RouteOf(denom, tax, prepared, path, received)(k, Offered(prepared, k));
            left.Some? ==> prepared <= left.value
  {
    var offer := Offered(prepared, k);
    if GenerateRouteMsg(path, NativeToken(denom), tax, offer).Ok? {
      RouteNeverShrinksCash(denom, tax, prepared, path, offer);
    }
  }

  function OnlyAt(k: nat, answer: nat): nat -> Option<nat> {
    (i: nat) => if i == k then Some(answer) else None
  }

  // When all attempts but an unsafe one fail, and the router returns just the minimum for that one,
  // the balance shrinks by the tax on the coin.
  lemma UnsafeAttemptShrinks(denom: string, tax: TaxPolicy, prepared: nat, path: string, k: nat)
    requires GenerateRouteMsg(path, NativeToken(denom), tax, prepared).Ok?
    requires k <= LastAttempt(prepared) && !AttemptIsSafe(denom, tax, prepared, path, k)
    ensures var offer := Offered(prepared, k);
            var levy := Levy(NativeToken(denom), tax, offer);
            && 0 < levy <= prepared
            && Retried(0, prepared, RouteOf(denom, tax, prepared, path, OnlyAt(k, offer)))
               == Filled(k, offer, prepared - levy)
  {
    var offer := Offered(prepared, k);
    var received := OnlyAt(k, offer);
    NativeSwapMsg(denom, tax, prepared, path, offer);
    AttemptPays(denom, tax, prepared, path, received, k, offer);
    var route := RouteOf(denom, tax, prepared, path, received);
    forall i, other | i != k
      ensures route(i, other).None?
    {
      AttemptFails(denom, tax, prepared, path, received, i, other);
    }
    OnlyFillsAt(k, prepared, route);
  }

  lemma NativeSwapMsg(denom: string, tax: TaxPolicy, prepared: nat, path: string, offer: nat)
    requires GenerateRouteMsg(path, NativeToken(denom), tax, prepared).Ok? && Split(path)[0] == "native_swap"
    ensures var msg := GenerateRouteMsg(path, NativeToken(denom), tax, offer);
            msg.Ok? && msg.value.coin == msg.value.minimumReceive == offer
  {}

  lemma AttemptPays(denom: string, tax: TaxPolicy, cash: nat, path: string, received: nat -> Option<nat>,
                    k: nat, offer: nat)
    requires var msg := GenerateRouteMsg(path, NativeToken(denom), tax, offer);
             msg.Ok? && msg.value.coin == msg.value.minimumReceive == offer
    requires received(k) == Some(offer) && CostOf(denom, tax, offer) <= cash
    ensures RouteOf(denom, tax, cash, path, received)(k, offer)
         == Some(cash - Levy(NativeToken(denom), tax, offer))
  {
    var msg := GenerateRouteMsg(path, NativeToken(denom), tax, offer).value;
    assert RouterPays(denom, tax, cash, msg, Some(offer)) == Some(cash - Levy(NativeToken(denom), tax, offer));
  }

  lemma AttemptFails(denom: string, tax: TaxPolicy, cash: nat, path: string, received: nat -> Option<nat>,
                     k: nat, offer: nat)
    requires received(k).None?
    ensures RouteOf(denom, tax, cash, path, received)(k, offer).None?
  {}

  lemma OnlyFillsAt(k: nat, amount: nat, route: Route)
    requires k <= LastAttempt(amount) && route(k, Offered(amount, k)).Some?
    requires forall i, offer :: i != k ==> route(i, offer).None?
    ensures Retried(0, amount, route) == Filled(k, Offered(amount, k), route(k, Offered(amount, k)).value)
  {
    RetryOutcome(amount, route);
  }

  // A swap can shrink the deposit balance exactly when native_swap goes first and one of the offers
  // that can be reached is taxed and, with the tax on it, still covered by the balance.
  lemma SwapNeverShrinksExactlyWhen(denom: string, tax: TaxPolicy, prepared: nat, path: string)
    requires GenerateRouteMsg(path, NativeToken(denom), tax, prepared).Ok?
    ensures NeverShrinks(denom, tax, prepared, path) <==>
            forall k :: 0 <= k <= LastAttempt(prepared) ==> AttemptIsSafe(denom, tax, prepared, path, k)
  {
    if forall k :: 0 <= k <= LastAttempt(prepared) ==> AttemptIsSafe(denom, tax, prepared, path, k) {
      forall received: nat -> Option<nat>
        ensures var r := Retried(0, prepared, RouteOf(denom, tax, prepared, path, received));
                r.Filled? ==> prepared <= r.balance
      {
        var route := RouteOf(denom, tax, prepared, path, received);
        RetryOutcome(prepared, route);
        var r := Retried(0, prepared, route);
        if r.Filled? {
          SafeAttempt(denom, tax, prepared, path, received, r.attempt);
        }
      }
    } else {
      var k :| 0 <= k <= LastAttempt(prepared) && !AttemptIsSafe(denom, tax, prepared, path, k);
      UnsafeAttemptShrinks(denom, tax, prepared, path, k);
    }
  }

  // At a rate of at most one, that is to say: native_swap goes first, the amount is at least the limit,
  // so that half of it can be offered, and that half is taxed. The first offer is always safe.
  lemma SwapNeverShrinksInShort(denom: string, tax: TaxPolicy, prepared: nat, path: string)
    requires GenerateRouteMsg(path, NativeToken(denom), tax, prepared).Ok? && tax.rate <= ONE
    ensures NeverShrinks(denom, tax, prepared, path) <==>
            || Split(path)[0] != "native_swap"
            || prepared < LIMIT_MINIMUM
            || Levy(NativeToken(denom), tax, prepared / 2) == 0
  {
    SwapNeverShrinksExactlyWhen(denom, tax, prepared, path);
    LevyIsModest(NativeToken(denom), tax, prepared / 2);
    if prepared >= LIMIT_MINIMUM {
      assert Offered(prepared, 1) == prepared / 2;
      assert AttemptIsSafe(denom, tax, prepared, path, 1) <==>
             Split(path)[0] != "native_swap" || Levy(NativeToken(denom), tax, prepared / 2) == 0;
    }
    forall k | 0 <= k <= LastAttempt(prepared)
      ensures AttemptIsSafe(denom, tax, prepared, path, k) || (
                Split(path)[0] == "native_swap" && LIMIT_MINIMUM <= prepared
                && Levy(NativeToken(denom), tax, prepared / 2) != 0)
    {
      if k > 0 {
        OfferedFalls(prepared / 2, k - 1);
        LevyMonotone(NativeToken(denom), tax, Offered(prepared, k), prepared / 2);
      }
    }
  }

  lemma {:induction false} OfferedFalls(amount: nat, k: nat)
    ensures Offered(amount, k) <= amount
  {
    if k > 0 {
      OfferedFalls(amount / 2, k - 1);
    }
  }

  // ---- what happens to the deposit coins

  // An unbonder is paid out of what was redeemed: what the contract owned before stays untouched,
  // and what it gains is what the deduction left behind.
  lemma UnbondKeepsCash(w: SwapState, sender: Addr, amount: nat, tax: TaxPolicy, redeemed: nat)
    requires SwapWorld.Step(w, UnbondCall(sender, amount, tax, Some(redeemed))).Ok?
    ensures var w' := SwapWorld.Next(w, UnbondCall(sender, amount, tax, Some(redeemed)));
            var paid := NetOf(w.denom, tax, redeemed);
            && w.cash <= w'.cash && w'.cash + CostOf(w.denom, tax, paid) == w.cash + redeemed
            && (TaxFree(NativeToken(w.denom), tax) ==> paid == redeemed && w'.cash == w.cash)
  {
    SpentFits(w.denom, tax, redeemed);
    if TaxFree(NativeToken(w.denom), tax) {
      NoTax(NativeToken(w.denom), tax, redeemed);
    }
  }

  // A bond is deposited at the amount it names, whatever was sent along. One of the deposit coin
  // leaves the deposit balance no smaller exactly when the coins sent cover the coin deposited and its
  // tax; sending the amount is enough, and without tax it is needed. Another asset never shrinks it.
  lemma BondKeepsCashExactlyWhen(w: SwapState, sender: Addr, asset: AssetInfo, amount: nat, sent: nat,
                                 tax: TaxPolicy, minted: nat)
    requires SwapWorld.Step(w, BondCall(sender, asset, amount, sent, tax, Some(minted))).Ok?
    ensures var w' := SwapWorld.Next(w, BondCall(sender, asset, amount, sent, tax, Some(minted)));
            if asset == NativeToken(w.denom) then
              && (w.cash <= w'.cash <==> CostOf(w.denom, tax, NetOf(w.denom, tax, amount)) <= sent)
              && (amount <= sent ==> w.cash <= w'.cash)
              && (TaxFree(asset, tax) ==> (w.cash <= w'.cash <==> amount <= sent))
            else asset.NativeToken? && w'.cash == w.cash + sent
  {
    SpentFits(w.denom, tax, amount);
    if TaxFree(NativeToken(w.denom), tax) {
      NoTax(NativeToken(w.denom), tax, amount);
    }
  }

  // A claim pays the owner out of all the deposit coins, so on top of the redeemed commission also
  // what bonds, unbonds and swaps have left behind; without tax exactly that, and nothing stays.
  lemma ClaimSweepsCash(w: SwapState, sender: Addr, tax: TaxPolicy, redeemed: nat)
    requires SwapWorld.Step(w, ClaimCall(sender, tax, Some(redeemed))).Ok?
    ensures var w' := SwapWorld.Next(w, ClaimCall(sender, tax, Some(redeemed)));
            var sent := NetOf(w.denom, tax, w.cash + redeemed);
            && sender == w.planet.config.owner
            && w'.cash + CostOf(w.denom, tax, sent) == w.cash + redeemed
            && NetOf(w.denom, tax, redeemed) <= sent
            && (TaxFree(NativeToken(w.denom), tax) ==>
                  w'.cash == 0 && sent == w.cash + redeemed && (redeemed < sent <==> w.cash != 0))
  {
    SpentFits(w.denom, tax, w.cash + redeemed);
    DeductTaxMonotone(NativeToken(w.denom), tax, redeemed, w.cash + redeemed);
    if TaxFree(NativeToken(w.denom), tax) {
      NoTax(NativeToken(w.denom), tax, w.cash + redeemed);
    }
  }
}
