// contracts/swap-arbitrage: its stored items and handlers. Each reply continues from what the
// handler before it stored.

module SwapArbitrage {
  import opened Wrappers
  import opened FixedPoint
  import opened Assets
  import opened VaultLedger
  import opened PlanetWorld
  import opened PlanetContract
  import opened Routes
  import opened Retry
  import opened SwapWorld

  // What a reply to a route message sends out next.
  datatype SwapMsg = Offer(route: RouteMsg) | DepositStable(coin: nat)

  class SwapArbitrage {
    const planet: Planet
    const denom: string
    var tmpSwap: Option<TmpSwap>
    var tmpBonder: Option<TmpBonder>

    constructor (owner: Addr, commissionRate: nat, tokenCodeId: nat, denom: string)
      ensures fresh(planet) && planet.Books(0) == EMPTY
      ensures planet.Stored() == Config(owner, commissionRate, AUST, tokenCodeId) && this.denom == denom
      ensures tmpSwap == None && tmpBonder == None
    {
      planet := new Planet(owner, commissionRate, AUST, tokenCodeId);
      this.denom := denom;
      tmpSwap, tmpBonder := None, None;
    }

    // The coin that is sent to the money market, of whatever denomination the bonder names; the aUST
    // owned until now is remembered.
    method TryBond(sender: Addr, asset: AssetInfo, amount: nat, tax: TaxPolicy, austBalance: nat)
      returns (r: Result<(string, nat)>)
      modifies this`tmpBonder
      ensures match DeductTax(asset, tax, amount)
              case Ok(net) =>
                r == Ok((asset.denom, net)) && tmpBonder == Some(TmpBonder(sender, austBalance))
              case Err(e) => r == Err(e) && tmpBonder == old(tmpBonder)
    {
      var net :- DeductTax(asset, tax, amount);
      tmpBonder := Some(TmpBonder(sender, austBalance));
      return Ok((asset.denom, net));
    }

    // MSG_REPLY_BOND: bonds the aUST that came in since.
    method ReplyBond(supply: nat, austBalance: nat) returns (r: Result<seq<Msg>>)
      modifies planet`vaults
      ensures var books := old(planet.Books(supply));
              if tmpBonder.None? then r == Err(NotFound)
              else if austBalance < tmpBonder.value.prevAmount then r == Err(Underflow)
              else match Bonded(books, austBalance - tmpBonder.value.prevAmount)
                   case Ok((l, minted)) =>
                     r == Ok([Mint(tmpBonder.value.bonder, minted)]) && planet.Books(l.supply) == l
                   case Err(e) => r == Err(e)
    {
      if tmpBonder.None? { return Err(NotFound); }
      if austBalance < tmpBonder.value.prevAmount { return Err(Underflow); }
      r := planet.TryBond(supply, tmpBonder.value.bonder, austBalance - tmpBonder.value.prevAmount);
    }

    // receive_cw20 with the unbond hook: the aUST to redeem; the deposit coins owned until now are
    // remembered.
    method ReceiveUnbond(supply: nat, sender: Addr, amount: nat, cash: nat) returns (r: Result<nat>)
      requires amount <= supply
      modifies this`tmpBonder, planet`vaults
      ensures match Unbonded(old(planet.Books(supply)), amount)
              case Ok((l, worth)) =>
                r == Ok(worth) && planet.Books(l.supply) == l && tmpBonder == Some(TmpBonder(sender, cash))
              case Err(e) => r == Err(e)
    {
      var shareRate :- planet.ComputeShareRate(supply);
      var worth := UintMulDec(amount, shareRate);
      var _ :- planet.SubVaults(FromUint(worth));
      tmpBonder := Some(TmpBonder(sender, cash));
      return Ok(worth);
    }

    // MSG_REPLY_UNBOND: sends the deposit coins that came in since to the unbonder.
    method ReplyUnbond(cash: nat, tax: TaxPolicy) returns (r: Result<Msg>)
      ensures r == if tmpBonder.None? then Err(NotFound)
                   else if cash < tmpBonder.value.prevAmount then Err(Underflow)
                   else Ok(BankSend(tmpBonder.value.bonder, NetOf(denom, tax, cash - tmpBonder.value.prevAmount)))
    {
      if tmpBonder.None? { return Err(NotFound); }
      if cash < tmpBonder.value.prevAmount { return Err(Underflow); }
      return Ok(BankSend(tmpBonder.value.bonder, NetOf(denom, tax, cash - tmpBonder.value.prevAmount)));
    }

    method TryClaim(sender: Addr) returns (r: Result<nat>)
      modifies planet`commission
      ensures sender != planet.owner ==> r == Err(Unauthorized) && planet.commission == old(planet.commission)
      ensures sender == planet.owner ==>
                var (l, amount) := Claimed(old(planet.Books(0)));
                r == Ok(amount) && planet.Books(0) == l
    {
      if sender != planet.owner { return Err(Unauthorized); }
      var all := planet.SubAllCommission();
      return Ok(UintMulDec(1, all));
    }

    // MSG_REPLY_CLAIM: all the deposit coins that the contract owns go to the owner.
    method ReplyClaim(cash: nat, tax: TaxPolicy) returns (msg: Msg)
      ensures msg == BankSend(planet.owner, NetOf(denom, tax, cash))
    {
      return BankSend(planet.owner, NetOf(denom, tax, cash));
    }

    // The aUST to redeem for a swap of `amount`.
    method TrySwap(path: string, amount: nat, exchangeRate: nat) returns (r: Result<nat>)
      modifies this`tmpSwap
      ensures tmpSwap == Some(TmpSwap(path, amount))
      ensures r == if exchangeRate == 0 then Err(DivisionByZero) else Ok(UintDivDec(amount, exchangeRate))
    {
      tmpSwap := Some(TmpSwap(path, amount));
      if exchangeRate == 0 { return Err(DivisionByZero); }
      return Ok(UintDivDec(amount, exchangeRate));
    }

    // MSG_REPLY_PREPARE_SWAP: whatever became of the redeem, all the deposit coins are offered.
    method ReplyPrepare(cash: nat, tax: TaxPolicy) returns (r: Result<RouteMsg>)
      modifies this`tmpSwap
      ensures match old(tmpSwap)
              case None => r == Err(NotFound)
              case Some(swap) =>
                if cash + 10 < swap.minimumReceive then r == Err(SwapAmountDiffers)
                else
                  && tmpSwap == Some(TmpSwap(swap.routePath, cash))
                  && r == GenerateRouteMsg(swap.routePath, NativeToken(denom), tax, cash)
    {
      if tmpSwap.None? { return Err(NotFound); }
      var path := tmpSwap.value.routePath;
      if cash + 10 < tmpSwap.value.minimumReceive { return Err(SwapAmountDiffers); }
      tmpSwap := Some(TmpSwap(path, cash));
      return GenerateRouteMsg(path, NativeToken(denom), tax, cash);
    }

    // MSG_REPLY_SWAP: after a success all deposit coins go back to the money market; after a
    // failure half of the last offer is offered, unless that was below the limit.
    method ReplySwap(success: bool, cash: nat, tax: TaxPolicy) returns (r: Result<SwapMsg>)
      modifies this`tmpSwap
      ensures match old(tmpSwap)
              case None => r == Err(NotFound)
              case Some(swap) =>
                if success then tmpSwap == None && r == Ok(DepositStable(NetOf(denom, tax, cash)))
                else if swap.minimumReceive < LIMIT_MINIMUM then r == Err(LimitMinimumReceived)
                else
                  var half := swap.minimumReceive / 2;
                  && tmpSwap == Some(TmpSwap(swap.routePath, half))
                  && match GenerateRouteMsg(swap.routePath, NativeToken(denom), tax, half)
                     case Ok(msg) => r == Ok(Offer(msg))
                     case Err(e) => r == Err(e)
    {
      if tmpSwap.None? { return Err(NotFound); }
      var swap := tmpSwap.value;
      if success {
        tmpSwap := None;
        return Ok(DepositStable(NetOf(denom, tax, cash)));
      }
      var half := swap.minimumReceive / 2;
      if swap.minimumReceive < LIMIT_MINIMUM {
        tmpSwap := None;
        return Err(LimitMinimumReceived);
      }
      tmpSwap := Some(TmpSwap(swap.routePath, half));
      var msg :- GenerateRouteMsg(swap.routePath, NativeToken(denom), tax, half);
      return Ok(Offer(msg));
    }
  }
}

// The chain around the swap contract: aUST, deposit coins, vault tokens, the money market and the
// router, with every call committed in full or rolled back.
module SwapHost {
  import opened Wrappers
  import opened Assets
  import opened Shares
  import opened PlanetWorld
  import opened PlanetHost
  import opened Routes
  import opened Retry
  import opened SwapWorld
  import opened SwapArbitrage

  class SwapHost {
    const swap: SwapArbitrage
    var chain: Chain
    var cash: nat
    ghost var totals: Totals

    ghost predicate Valid()
      reads this, swap, swap.planet
    {
      chain.held == 0 && Total(chain.shares) == chain.supply &&
      swap.planet.asset.NativeToken? && !Taxed(swap.planet.asset)
    }

    ghost function Vault(): World
      reads this, swap, swap.planet
    {
      World(swap.planet.Stored(), swap.planet.Books(chain.supply), chain.shares, chain.balance, totals)
    }

    ghost function View(): SwapState
      reads this, swap, swap.planet
    {
      SwapState(Vault(), swap.denom, cash, swap.tmpSwap, swap.tmpBonder)
    }

    constructor (owner: Addr, commissionRate: nat, tokenCodeId: nat, denom: string)
      ensures Valid() && fresh(swap) && fresh(swap.planet)
      ensures View() == SwapWorld.Genesis(owner, commissionRate, tokenCodeId, denom)
    {
      swap := new SwapArbitrage(owner, commissionRate, tokenCodeId, denom);
      chain := Chain(0, map[], 0, 0);
      cash := 0;
      totals := NO_HISTORY;
    }

    // Before any roll-back: a call does what the specification says, or fails for its reason.
    ghost predicate Follows(expected: Result<SwapState>, r: Result<()>)
      reads this, swap, swap.planet
    {
      match expected
      case Ok(w) =>
        && r == Ok(()) && chain.held == 0
        && Vault() == w.planet && swap.denom == w.denom && cash == w.cash
        && swap.tmpSwap == w.tmpSwap && swap.tmpBonder == w.tmpBonder
      case Err(_) => r.Err?
    }

    // The vault's part of that, before the deposit coins are paid.
    ghost predicate VaultFollows(expected: Result<World>, r: Result<()>)
      reads this, swap, swap.planet
    {
      match expected
      case Ok(p) => r == Ok(()) && Vault() == p && chain.held == 0
      case Err(_) => r.Err?
    }

    method Deliver(call: Call) returns (r: Result<()>)
      requires Valid()
      modifies this, swap, swap.planet
      ensures Valid()
      ensures match SwapWorld.Step(old(View()), call)
              case Ok(w) => r == Ok(()) && View() == w
              case Err(_) => r.Err? && View() == old(View())
    {
      var was, coins := chain, cash;
      var tmpSwap, tmpBonder := swap.tmpSwap, swap.tmpBonder;
      var config := swap.planet.Stored();
      var vaults, commission := swap.planet.vaults, swap.planet.commission;
      ghost var before, books := View(), totals;
      r := Perform(call);
      if r.Ok? {
        StepIsImage(before, call);
      } else {
        swap.planet.Restore(config, vaults, commission);
        swap.tmpSwap, swap.tmpBonder := tmpSwap, tmpBonder;
        chain, cash := was, coins;
        totals := books;
      }
    }

    lemma StepIsImage(w: SwapState, call: Call)
      requires Total(w.planet.shares) == w.planet.ledger.supply && SwapWorld.Step(w, call).Ok?
      ensures var p := SwapWorld.Step(w, call).value.planet;
              Total(p.shares) == p.ledger.supply && p.config.asset == w.planet.config.asset
    {
      match call
      case BondCall(sender, _, _, _, _, minted) => StepShares(w.planet, Bond(sender, minted.value));
      case UnbondCall(sender, amount, tax, _) => StepShares(w.planet, Unbond(sender, amount, tax));
      case TransferCall(sender, to, amount) => StepShares(w.planet, Transfer(sender, to, amount));
      case _ =>
    }

    method Perform(call: Call) returns (r: Result<()>)
      requires Valid()
      modifies this, swap, swap.planet
      ensures Follows(SwapWorld.Step(old(View()), call), r)
    {
      match call
      case BondCall(sender, asset, amount, sent, tax, minted) =>
        r := PerformBond(sender, asset, amount, sent, tax, minted);
      case UnbondCall(sender, amount, tax, redeemed) => r := PerformUnbond(sender, amount, tax, redeemed);
      case SwapCall(path, amount, tax, env) => r := PerformSwap(path, amount, tax, env);
      case ClaimCall(sender, tax, redeemed) => r := PerformClaim(sender, tax, redeemed);
      case ConfigCall(sender, owner, commissionRate, tokenCodeId, valid) =>
        r := swap.planet.TryUpdateConfig(sender, owner, commissionRate, tokenCodeId, valid);
      case TransferCall(sender, to, amount) =>
        if Holding(chain.shares, sender) < amount { return Err(InsufficientShares); }
        chain := chain.(shares := Credit(Debit(chain.shares, sender, amount), to, amount));
        r := Ok(());
      case GiftCall(aust, coins) =>
        chain, cash := chain.(balance := chain.balance + aust), cash + coins;
        totals := totals.(gifts := totals.gifts + aust);
        r := Ok(());
    }

    // The bank carries out a payment of all that is left of `gross` deposit coins.
    method Pay(tax: TaxPolicy, coin: nat, gross: nat)
      requires gross <= cash && coin == NetOf(swap.denom, tax, gross)
      modifies this`cash
      ensures cash == old(cash) - gross + Kept(swap.denom, tax, gross)
    {
      SpentFits(swap.denom, tax, gross);
      cash := cash - CostOf(swap.denom, tax, coin);
    }

    // The vault's side of a bond: the aUST that came in is bonded for the remembered sender.
    method BondArrived(sender: Addr, minted: nat) returns (r: Result<()>)
      requires Valid() && swap.tmpBonder == Some(TmpBonder(sender, chain.balance))
      modifies this`chain, this`totals, swap.planet`vaults
      ensures VaultFollows(BondStep(old(Vault()), sender, minted), r)
    {
      chain := chain.(balance := chain.balance + minted);
      totals := totals.(bonded := totals.bonded + minted);
      var msgs :- swap.ReplyBond(chain.supply, chain.balance);
      chain := chain.(supply := chain.supply + msgs[0].amount,
                      shares := Credit(chain.shares, msgs[0].to, msgs[0].amount));
      return Ok(());
    }

    method PerformBond(sender: Addr, asset: AssetInfo, amount: nat, sent: nat, tax: TaxPolicy, minted: Option<nat>)
      returns (r: Result<()>)
      requires Valid()
      modifies this, swap, swap.planet
      ensures Follows(BondCalled(old(View()), sender, asset, amount, sent, tax, minted), r)
    {
      cash := cash + sent;
      var coin :- swap.TryBond(sender, asset, amount, tax, chain.balance);
      if coin.0 == swap.denom {
        if cash < CostOf(swap.denom, tax, coin.1) { return Err(InsufficientFunds); }
        cash := cash - CostOf(swap.denom, tax, coin.1);
      }
      if minted.None? { return Err(CallFailed); }
      r := BondArrived(sender, minted.value);
    }

    // The vault's side of an unbond: tokens are moved in and burnt, and their worth is redeemed.
    method BurnAndRedeem(sender: Addr, amount: nat, ghost tax: TaxPolicy) returns (r: Result<()>)
      requires Valid()
      modifies this`chain, this`totals, swap`tmpBonder, swap.planet`vaults
      ensures VaultFollows(UnbondStep(old(Vault()), sender, amount, tax), r)
      ensures r.Ok? ==> swap.tmpBonder == Some(TmpBonder(sender, cash))
    {
      if Holding(chain.shares, sender) < amount { return Err(InsufficientShares); }
      TotalSet(chain.shares, sender, 0);
      chain := chain.(shares := Debit(chain.shares, sender, amount), held := amount);
      var worth :- swap.ReceiveUnbond(chain.supply, sender, amount, cash);
      r := BurnHeld(amount, worth);
    }

    method BurnHeld(amount: nat, worth: nat) returns (r: Result<()>)
      requires amount <= chain.held && amount <= chain.supply
      modifies this`chain, this`totals
      ensures r == if old(chain).balance < worth then Err(InsufficientFunds) else Ok(())
      ensures r.Ok? ==>
                && chain == Chain(old(chain).supply - amount, old(chain).shares,
                                  old(chain).held - amount, old(chain).balance - worth)
                && totals == old(totals).(unbonded := old(totals).unbonded + worth,
                                          payments := old(totals).payments + 1)
    {
      chain := chain.(supply := chain.supply - amount, held := chain.held - amount);
      if chain.balance < worth { return Err(InsufficientFunds); }
      chain := chain.(balance := chain.balance - worth);
      totals := totals.(unbonded := totals.unbonded + worth, payments := totals.payments + 1);
      return Ok(());
    }

    method PerformUnbond(sender: Addr, amount: nat, tax: TaxPolicy, redeemed: Option<nat>) returns (r: Result<()>)
      requires Valid()
      modifies this, swap, swap.planet
      ensures Follows(UnbondCalled(old(View()), sender, amount, tax, redeemed), r)
    {
      var _ :- BurnAndRedeem(sender, amount, tax);
      if redeemed.None? { return Err(CallFailed); }
      PayUnbonder(tax, redeemed.value);
      return Ok(());
    }

    method PayUnbonder(tax: TaxPolicy, redeemed: nat)
      requires swap.tmpBonder.Some? && swap.tmpBonder.value.prevAmount == cash
      modifies this`cash
      ensures cash == old(cash) + Kept(swap.denom, tax, redeemed)
    {
      cash := cash + redeemed;
      var msg := swap.ReplyUnbond(cash, tax);
      Pay(tax, msg.value.amount, redeemed);
    }

    // The vault's side of a claim: the whole units of the commission are redeemed.
    method DrainAndRedeem(sender: Addr, ghost tax: TaxPolicy) returns (r: Result<()>)
      requires Valid()
      modifies this`chain, this`totals, swap.planet`commission
      ensures VaultFollows(ClaimStep(old(Vault()), sender, tax), r)
    {
      ghost var commission := swap.planet.commission;
      var amount :- swap.TryClaim(sender);
      if chain.balance < amount { return Err(InsufficientFunds); }
      chain := chain.(balance := chain.balance - amount);
      totals := totals.(drained := totals.drained + commission, unsettled := totals.unsettled + amount,
                        payments := totals.payments + 1);
      return Ok(());
    }

    method PerformClaim(sender: Addr, tax: TaxPolicy, redeemed: Option<nat>) returns (r: Result<()>)
      requires Valid()
      modifies this, swap, swap.planet
      ensures Follows(ClaimCalled(old(View()), sender, tax, redeemed), r)
    {
      ghost var expected := ClaimCalled(View(), sender, tax, redeemed);
      ghost var vault := ClaimStep(Vault(), sender, tax);
      assert redeemed.None? || vault.Err? ==> expected.Err?;
      assert redeemed.Some? && vault.Ok? ==>
        expected == Ok(View().(planet := vault.value, cash := Kept(swap.denom, tax, cash + redeemed.value)));
      r := DrainAndRedeem(sender, tax);
      if redeemed.None? { return Err(CallFailed); }
      if r.Ok? { PayOwner(tax, redeemed.value); }
    }

    method PayOwner(tax: TaxPolicy, redeemed: nat)
      modifies this`cash
      ensures cash == Kept(swap.denom, tax, old(cash) + redeemed)
    {
      cash := cash + redeemed;
      var msg := swap.ReplyClaim(cash, tax);
      Pay(tax, msg.amount, cash);
    }

    // The last reply: the vault is settled at the aUST found.
    method SettleVault(balance: nat, ghost before: World) returns (r: Result<()>)
      requires chain.held == 0 && Vault() == before.(balance := chain.balance)
      modifies this`chain, this`totals, swap.planet`vaults, swap.planet`commission
      ensures VaultFollows(ExecuteStep(before, before.config.owner, balance, false), r)
    {
      chain := chain.(balance := balance);
      var _ :- swap.planet.ReplyExecute(chain.balance, false);
      totals := SettleTotals(before, balance);
      return Ok(());
    }

    // The redeem submessage of a Swap.
    method RedeemForSwap(aust: nat, redeemed: Option<nat>)
      modifies this`chain, this`cash
      ensures var paid := redeemed.Some? && aust <= old(chain).balance;
              && chain == old(chain).(balance := old(chain).balance - if paid then aust else 0)
              && cash == old(cash) + if paid then redeemed.value else 0
    {
      if redeemed.Some? && aust <= chain.balance {
        chain := chain.(balance := chain.balance - aust);
        cash := cash + redeemed.value;
      }
    }

    // Redeem and prepare: the first route message.
    method PrepareSwap(path: string, amount: nat, tax: TaxPolicy, env: Env) returns (r: Result<RouteMsg>)
      modifies this`chain, this`cash, swap`tmpSwap
      ensures match Prepared(old(View()), path, amount, tax, env)
              case Ok((aust, coins)) =>
                && r == GenerateRouteMsg(path, NativeToken(swap.denom), tax, cash) && r.Ok?
                && chain.balance == aust && cash == coins && swap.tmpSwap == Some(TmpSwap(path, coins))
              case Err(_) => r.Err?
      ensures chain == old(chain).(balance := chain.balance)
    {
      var aust :- swap.TrySwap(path, amount, env.exchangeRate);
      RedeemForSwap(aust, env.redeemed);
      r := swap.ReplyPrepare(cash, tax);
    }

    // Redeem, prepare, route and deposit: the aUST that the settlement will find.
    method SwapAndDeposit(path: string, amount: nat, tax: TaxPolicy, env: Env) returns (r: Result<nat>)
      modifies this`chain, this`cash, swap`tmpSwap
      ensures match SwapBalances(old(View()), path, amount, tax, env)
              case Ok((aust, coins)) => r == Ok(aust) && cash == coins && swap.tmpSwap == None
              case Err(_) => r.Err?
      ensures chain == old(chain).(balance := chain.balance)
    {
      var msg :- PrepareSwap(path, amount, tax, env);
      var coin :- RunRoutes(path, tax, msg, env.received);
      if env.minted.None? { return Err(CallFailed); }
      Pay(tax, coin, cash);
      return Ok(chain.balance + env.minted.value);
    }

    method PerformSwap(path: string, amount: nat, tax: TaxPolicy, env: Env) returns (r: Result<()>)
      requires Valid()
      modifies this, swap, swap.planet
      ensures Follows(SwapCalled(old(View()), path, amount, tax, env), r)
    {
      ghost var before := View();
      var aust :- SwapAndDeposit(path, amount, tax, env);
      r := SettleVault(aust, before.planet);
    }

    // The route messages and their replies, until one of them goes through: the coin to deposit.
    method RunRoutes(path: string, tax: TaxPolicy, msg: RouteMsg, received: nat -> Option<nat>)
      returns (r: Result<nat>)
      requires swap.tmpSwap == Some(TmpSwap(path, cash))
      requires GenerateRouteMsg(path, NativeToken(swap.denom), tax, cash) == Ok(msg)
      modifies this`cash, swap`tmpSwap
      ensures match Retried(0, old(cash), RouteOf(swap.denom, tax, old(cash), path, received))
              case Filled(_, _, balance) =>
                cash == balance && r == Ok(NetOf(swap.denom, tax, balance)) && swap.tmpSwap == None
              case Exhausted(_) => r == Err(LimitMinimumReceived)
    {
      ghost var route := RouteOf(swap.denom, tax, cash, path, received);
      var prepared := cash;
      var next := Offer(msg);
      var k: nat := 0;
      while next.Offer?
        invariant next.Offer? ==>
            && cash == prepared && swap.tmpSwap.Some? && swap.tmpSwap.value.routePath == path
            && GenerateRouteMsg(path, NativeToken(swap.denom), tax, swap.tmpSwap.value.minimumReceive) == Ok(next.route)
            && Retried(0, prepared, route) == Retried(k, swap.tmpSwap.value.minimumReceive, route)
        invariant next.DepositStable? ==>
            && swap.tmpSwap == None && next.coin == NetOf(swap.denom, tax, cash)
            && Retried(0, prepared, route).Filled? && Retried(0, prepared, route).balance == cash
        decreases if next.Offer? then swap.tmpSwap.value.minimumReceive + 1 else 0
      {
        var paid := RouterPays(swap.denom, tax, cash, next.route, received(k));
        if paid.Some? { cash := paid.value; }
        AnyAmountIsAccepted(path, NativeToken(swap.denom), tax, swap.tmpSwap.value.minimumReceive,
                        swap.tmpSwap.value.minimumReceive / 2);
        next :- swap.ReplySwap(paid.Some?, cash, tax);
        k := k + 1;
      }
      return Ok(next.coin);
    }

    // Whether a path is accepted does not depend on the amount.
    lemma AnyAmountIsAccepted(path: string, deposit: AssetInfo, tax: TaxPolicy, amount: nat, other: nat)
      requires GenerateRouteMsg(path, deposit, tax, amount).Ok?
      ensures GenerateRouteMsg(path, deposit, tax, other).Ok?
    {}
  }
}
