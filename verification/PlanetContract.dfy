// packages/planet: the stored items of state.rs and the handlers of contract.rs, which update
// them in place and answer with the messages the chain must carry out.

module PlanetContract {
  import opened Wrappers
  import opened FixedPoint
  import opened Assets
  import opened VaultLedger
  import opened PlanetWorld

  // Mint and Burn go to the vault token, TransferAsset to a CW20 asset.
  datatype Msg =
    | Mint(to: Addr, amount: nat)
    | Burn(amount: nat)
    | BankSend(to: Addr, amount: nat)
    | TransferAsset(to: Addr, amount: nat)

  // The message that pays an unbonder.
  function PayoutMsg(asset: AssetInfo, tax: TaxPolicy, to: Addr, worth: nat, shares: nat): Msg {
    if asset.Token? then TransferAsset(to, shares)
    else BankSend(to, DeductTax(asset, tax, worth).value)
  }

  // It goes to whom it should, and leads to what PayoutCost reckons with.
  lemma PayoutMsgPays(asset: AssetInfo, tax: TaxPolicy, to: Addr, worth: nat, shares: nat)
    ensures var msg, cost := PayoutMsg(asset, tax, to, worth, shares), PayoutCost(asset, tax, worth, shares);
            && msg.to == to
            && (msg == TransferAsset(to, cost) || (msg.BankSend? && cost == msg.amount + Levy(asset, tax, msg.amount)))
            && (msg.TransferAsset? <==> asset.Token?)
  {}

  class Planet {
    const asset: AssetInfo
    var owner: Addr
    var commissionRate: nat
    var tokenCodeId: nat
    var vaults: nat
    var commission: nat

    // The stored books, next to the supply that the vault token reports.
    ghost function Books(supply: nat): Ledger
      reads this
    {
      Ledger(vaults, commission, supply)
    }

    function Stored(): Config
      reads this
    {
      Config(owner, commissionRate, asset, tokenCodeId)
    }

    constructor (owner: Addr, commissionRate: nat, asset: AssetInfo, tokenCodeId: nat)
      ensures Books(0) == EMPTY && Stored() == Config(owner, commissionRate, asset, tokenCodeId)
    {
      this.owner, this.commissionRate, this.asset, this.tokenCodeId := owner, commissionRate, asset, tokenCodeId;
      vaults, commission := 0, 0;
    }

    // ---- state.rs

    method AddVaults(amount: nat)
      modifies this`vaults
      ensures vaults == old(vaults) + amount
    {
      vaults := vaults + amount;
    }

    method SubVaults(amount: nat) returns (r: Result<()>)
      modifies this`vaults
      ensures r == if amount <= old(vaults) then Ok(()) else Err(Underflow)
      ensures vaults == if r.Ok? then old(vaults) - amount else old(vaults)
    {
      if vaults < amount { return Err(Underflow); }
      vaults := vaults - amount;
      return Ok(());
    }

    method SetVaults(amount: nat)
      modifies this`vaults
      ensures vaults == amount
    {
      vaults := amount;
    }

    method AddCommission(amount: nat)
      modifies this`commission
      ensures commission == old(commission) + amount
    {
      commission := commission + amount;
    }

    method SubCommission(amount: nat) returns (r: Result<()>)
      modifies this`commission
      ensures r == if amount <= old(commission) then Ok(()) else Err(Underflow)
      ensures commission == if r.Ok? then old(commission) - amount else old(commission)
    {
      if commission < amount { return Err(Underflow); }
      commission := commission - amount;
      return Ok(());
    }

    method SubAllCommission() returns (amount: nat)
      modifies this`commission
      ensures amount == old(commission) && commission == 0
    {
      amount := commission;
      commission := 0;
    }

    // ---- contract.rs

    function ComputeShareRate(supply: nat): (r: Result<nat>)
      reads this
      ensures r == ShareRate(Books(supply))
    {
      if supply == 0 then Ok(ONE)
      else if vaults < commission then Err(Underflow)
      else
        DecDivCancels(vaults - commission, supply);
        Ok(DecDiv(vaults - commission, FromUint(supply)))
    }

    method TryBond(supply: nat, sender: Addr, amount: nat) returns (r: Result<seq<Msg>>)
      modifies this`vaults
      ensures match Bonded(old(Books(supply)), amount)
              case Ok((l, minted)) => r == Ok([Mint(sender, minted)]) && Books(l.supply) == l
              case Err(e) => r == Err(e) && Books(supply) == old(Books(supply))
    {
      var shareRate :- ComputeShareRate(supply);
      if shareRate == 0 { return Err(DivisionByZero); }
      var minted := UintDivDec(amount, shareRate);
      AddVaults(FromUint(amount));
      return Ok([Mint(sender, minted)]);
    }

    // The vault token calls this with `amount` tokens that it has moved to the planet.
    method TryUnbond(supply: nat, sender: Addr, amount: nat, tax: TaxPolicy) returns (r: Result<seq<Msg>>)
      requires amount <= supply
      modifies this`vaults
      ensures match Unbonded(old(Books(supply)), amount)
              case Ok((l, worth)) =>
                r == Ok([PayoutMsg(asset, tax, sender, worth, amount), Burn(amount)]) && Books(l.supply) == l
              case Err(e) => r == Err(e) && Books(supply) == old(Books(supply))
    {
      var shareRate :- ComputeShareRate(supply);
      var worth := UintMulDec(amount, shareRate);
      var _ :- SubVaults(FromUint(worth));
      return Ok([PayoutMsg(asset, tax, sender, worth, amount), Burn(amount)]);
    }

    // The commission is stored as zero before the payment is prepared: when that fails, only the
    // roll-back of the call restores it.
    method TryClaim(sender: Addr, tax: TaxPolicy) returns (r: Result<seq<Msg>>)
      modifies this`commission
      ensures sender != owner ==> r == Err(Unauthorized) && commission == old(commission)
      ensures sender == owner ==>
                var (l, amount) := Claimed(old(Books(0)));
                Books(0) == l &&
                match DeductTax(asset, tax, amount)
                case Ok(net) => r == Ok([BankSend(sender, net)])
                case Err(e) => r == Err(e)
    {
      if sender != owner { return Err(Unauthorized); }
      var all := SubAllCommission();
      var net :- DeductTax(asset, tax, UintMulDec(1, all));
      return Ok([BankSend(sender, net)]);
    }

    method TryUpdateConfig(sender: Addr, newOwner: Option<Addr>, newRate: Option<nat>, newCodeId: Option<nat>,
                           valid: bool)
      returns (r: Result<()>)
      modifies this`owner, this`commissionRate, this`tokenCodeId
      ensures r == if sender != old(owner) then Err(Unauthorized)
                   else if newOwner.Some? && !valid then Err(InvalidAddress) else Ok(())
      ensures Stored() ==
              if r.Ok? then UpdatedConfig(old(Stored()), newOwner, newRate, newCodeId) else old(Stored())
    {
      if sender != owner { return Err(Unauthorized); }
      if newOwner.Some? {
        if !valid { return Err(InvalidAddress); }
        owner := newOwner.value;
      }
      if newRate.Some? { commissionRate := newRate.value; }
      if newCodeId.Some? { tokenCodeId := newCodeId.value; }
      return Ok(());
    }

    // reply to an execute that left the planet with `balance` units of its asset
    method ReplyExecute(balance: nat, must: bool) returns (r: Result<()>)
      modifies this`vaults, this`commission
      ensures match Settled(old(Books(0)), commissionRate, balance, must)
              case Ok(l) => r == Ok(()) && Books(0) == l
              case Err(e) => r == Err(e) && Books(0) == old(Books(0))
    {
      var found := FromUint(balance);
      if found > vaults {
        var revenue := found - vaults;
        AddCommission(DecMul(revenue, commissionRate));
      } else if must {
        var loss := vaults - found;
        var _ :- SubCommission(loss);
      } else {
        return Err(FailedExecute);
      }
      SetVaults(found);
      return Ok(());
    }

    // What the chain needs to roll a call back.
    method Restore(config: Config, vaults: nat, commission: nat)
      requires config.asset == asset
      modifies this
      ensures Stored() == config && Books(0) == Ledger(vaults, commission, 0)
    {
      owner, commissionRate, tokenCodeId := config.owner, config.commissionRate, config.tokenCodeId;
      this.vaults, this.commission := vaults, commission;
    }
  }
}

// The chain around one planet: it moves funds and vault tokens, carries out the messages a handler
// answers with, and rolls the call back when anything fails.
module PlanetHost {
  import opened Wrappers
  import opened Assets
  import opened VaultLedger
  import opened Shares
  import opened PlanetWorld
  import opened PlanetContract

  // `held` are the vault tokens that a CW20 Send has moved to the planet within the call.
  datatype Chain = Chain(supply: nat, shares: Holdings, held: nat, balance: nat)

  function Carry(c: Chain, asset: AssetInfo, tax: TaxPolicy, msg: Msg): Result<Chain> {
    match msg
    case Mint(to, amount) =>
      Ok(c.(supply := c.supply + amount, shares := Credit(c.shares, to, amount)))
    case Burn(amount) =>
      if c.held < amount || c.supply < amount then Err(InsufficientShares)
      else Ok(c.(supply := c.supply - amount, held := c.held - amount))
    case BankSend(_, amount) =>
      var cost := amount + Levy(asset, tax, amount);
      if c.balance < cost then Err(InsufficientFunds) else Ok(c.(balance := c.balance - cost))
    case TransferAsset(_, amount) =>
      if c.balance < amount then Err(InsufficientFunds) else Ok(c.(balance := c.balance - amount))
  }

  function CarryAll(c: Chain, asset: AssetInfo, tax: TaxPolicy, msgs: seq<Msg>): Result<Chain>
    decreases |msgs|
  {
    if msgs == [] then Ok(c)
    else
      var c' :- Carry(c, asset, tax, msgs[0]);
      CarryAll(c', asset, tax, msgs[1..])
  }

  class PlanetHost {
    const planet: Planet
    var chain: Chain
    ghost var totals: Totals

    ghost predicate Valid()
      reads this
    {
      chain.held == 0 && Total(chain.shares) == chain.supply
    }

    ghost function View(): World
      reads this, planet
    {
      World(planet.Stored(), planet.Books(chain.supply), chain.shares, chain.balance, totals)
    }

    constructor (owner: Addr, commissionRate: nat, asset: AssetInfo, tokenCodeId: nat)
      ensures Valid() && fresh(planet) && View() == Genesis(Config(owner, commissionRate, asset, tokenCodeId))
    {
      planet := new Planet(owner, commissionRate, asset, tokenCodeId);
      chain := Chain(0, map[], 0, 0);
      totals := NO_HISTORY;
    }

    method Dispatch(tax: TaxPolicy, msgs: seq<Msg>) returns (r: Result<()>)
      modifies this`chain
      ensures match CarryAll(old(chain), planet.asset, tax, msgs)
              case Ok(c) => r == Ok(()) && chain == c
              case Err(e) => r == Err(e)
    {
      var i := 0;
      while i < |msgs|
        invariant 0 <= i <= |msgs|
        invariant CarryAll(chain, planet.asset, tax, msgs[i..]) == CarryAll(old(chain), planet.asset, tax, msgs)
      {
        assert msgs[i..][1..] == msgs[i + 1..];
        var c :- Carry(chain, planet.asset, tax, msgs[i]);
        chain := c;
        i := i + 1;
      }
      return Ok(());
    }

    // One call, as a transition of the specification: committed in full or not at all.
    method Deliver(tx: Tx) returns (r: Result<()>)
      requires Valid()
      modifies this, planet
      ensures Valid()
      ensures match Step(old(View()), tx)
              case Ok(w) => r == Ok(()) && View() == w
              case Err(e) => r == Err(e) && View() == old(View())
    {
      var was := chain;
      var config := planet.Stored();
      var vaults, commission := planet.vaults, planet.commission;
      ghost var before, books := View(), totals;
      r := Perform(tx);
      if r.Ok? {
        StepShares(before, tx);
      } else {
        planet.Restore(config, vaults, commission);
        chain := was;
        totals := books;
      }
    }

    // Before any roll-back: a call does what the specification says, or fails for its reason.
    ghost predicate Follows(expected: Result<World>, r: Result<()>)
      reads this, planet
    {
      match expected
      case Ok(w) => r == Ok(()) && View() == w && chain.held == 0
      case Err(e) => r == Err(e)
    }

    method Perform(tx: Tx) returns (r: Result<()>)
      requires Valid()
      modifies this, planet
      ensures Follows(Step(old(View()), tx), r)
    {
      match tx
      case Bond(sender, amount) => r := PerformBond(sender, amount);
      case Unbond(sender, amount, tax) => r := PerformUnbond(sender, amount, tax);
      case Execute(sender, balanceAfter, must) => r := PerformExecute(sender, balanceAfter, must);
      case Claim(sender, tax) => r := PerformClaim(sender, tax);
      case UpdateConfig(sender, owner, commissionRate, tokenCodeId, valid) =>
        r := planet.TryUpdateConfig(sender, owner, commissionRate, tokenCodeId, valid);
      case Transfer(sender, to, amount) =>
        if Holding(chain.shares, sender) < amount { return Err(InsufficientShares); }
        chain := chain.(shares := Credit(Debit(chain.shares, sender, amount), to, amount));
        r := Ok(());
      case Gift(amount) =>
        chain := chain.(balance := chain.balance + amount);
        totals := totals.(gifts := totals.gifts + amount);
        r := Ok(());
    }

    method PerformBond(sender: Addr, amount: nat) returns (r: Result<()>)
      requires Valid()
      modifies this, planet
      ensures Follows(BondStep(old(View()), sender, amount), r)
    {
      chain := chain.(balance := chain.balance + amount);
      totals := totals.(bonded := totals.bonded + amount);
      var msgs :- planet.TryBond(chain.supply, sender, amount);
      r := Dispatch(TaxPolicy(0, 0, false), msgs);
    }

    method PerformUnbond(sender: Addr, amount: nat, tax: TaxPolicy) returns (r: Result<()>)
      requires Valid()
      modifies this, planet
      ensures Follows(UnbondStep(old(View()), sender, amount, tax), r)
    {
      if Holding(chain.shares, sender) < amount { return Err(InsufficientShares); }
      TotalSet(chain.shares, sender, 0);
      chain := chain.(shares := Debit(chain.shares, sender, amount), held := amount);
      ghost var l := planet.Books(chain.supply);
      var msgs :- planet.TryUnbond(chain.supply, sender, amount, tax);
      ghost var worth := Unbonded(l, amount).value.1;
      totals := totals.(unbonded := totals.unbonded + worth, payments := totals.payments + 1,
                        dust := totals.dust + worth - PayoutCost(planet.asset, tax, worth, amount));
      PayoutIsCarried(chain, planet.asset, tax, sender, worth, amount);
      CarryTwo(chain, planet.asset, tax, msgs[0], msgs[1]);
      r := Dispatch(tax, msgs);
    }

    lemma PayoutIsCarried(c: Chain, asset: AssetInfo, tax: TaxPolicy, to: Addr, worth: nat, shares: nat)
      ensures var cost := PayoutCost(asset, tax, worth, shares);
              Carry(c, asset, tax, PayoutMsg(asset, tax, to, worth, shares))
              == if c.balance < cost then Err(InsufficientFunds) else Ok(c.(balance := c.balance - cost))
    {}

    lemma CarryTwo(c: Chain, asset: AssetInfo, tax: TaxPolicy, first: Msg, second: Msg)
      ensures CarryAll(c, asset, tax, [first, second]) ==
              match Carry(c, asset, tax, first)
              case Ok(c') => Carry(c', asset, tax, second)
              case Err(e) => Err(e)
    {
      assert [first, second][1..] == [second];
      var r := Carry(c, asset, tax, first);
      if r.Ok? {
        assert CarryAll(r.value, asset, tax, [second]) == Carry(r.value, asset, tax, second);
      }
    }

    method PerformExecute(sender: Addr, balanceAfter: nat, must: bool) returns (r: Result<()>)
      requires Valid()
      modifies this, planet
      ensures Follows(ExecuteStep(old(View()), sender, balanceAfter, must), r)
    {
      if sender != planet.owner { return Err(Unauthorized); }
      ghost var settled := SettleTotals(View(), balanceAfter);
      chain := chain.(balance := balanceAfter);
      var _ :- planet.ReplyExecute(chain.balance, must);
      totals := settled;
      return Ok(());
    }

    method PerformClaim(sender: Addr, tax: TaxPolicy) returns (r: Result<()>)
      requires Valid()
      modifies this, planet
      ensures Follows(ClaimStep(old(View()), sender, tax), r)
    {
      ghost var l := planet.Books(chain.supply);
      var msgs :- planet.TryClaim(sender, tax);
      ghost var paid := Claimed(l).1;
      totals := totals.(drained := totals.drained + l.commission, unsettled := totals.unsettled + paid,
                        payments := totals.payments + 1,
                        dust := totals.dust + paid - PayoutCost(planet.asset, tax, paid, 0));
      r := Dispatch(tax, msgs);
    }
  }
}
