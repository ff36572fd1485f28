// What each call on a planet does, in terms of the world it finds: when it commits, whose tokens
// move, what is paid, and what stays as it was.

module PlanetCalls {
  import opened Wrappers
  import opened FixedPoint
  import opened Assets
  import opened VaultLedger
  import opened Shares
  import opened PlanetWorld
  import opened PlanetRuns

  // Only the sender's holding changes, by so much.
  ghost predicate OnlyMoves(h: Holdings, h': Holdings, who: Addr, change: int) {
    && Holding(h', who) == Holding(h, who) + change
    && forall other :: other != who ==> Holding(h', other) == Holding(h, other)
  }

  // A bond always commits. The sender alone gets the tokens, as many as the amount pays for.
  lemma BondMints(w: World, sender: Addr, amount: nat, n: nat)
    requires Good(w)
    ensures Step(w, Bond(sender, amount)).Ok?
    ensures var w' := Step(w, Bond(sender, amount)).value;
            var minted: int := w'.ledger.supply - w.ledger.supply;
            && (n <= minted <==> n * Rate(w.ledger) <= FromUint(amount))
            && OnlyMoves(w.shares, w'.shares, sender, minted)
            && w'.ledger.vaults == w.ledger.vaults + FromUint(amount)
            && w'.ledger.commission == w.ledger.commission
            && w'.balance == w.balance + amount && w'.config == w.config
  {
    BackedIsRateOne(w.ledger);
    MintIsGreatest(w.ledger, amount, n);
  }

  // A committed unbond burns the sender's tokens and pays what is left of their worth after tax, or
  // as many units as tokens of a CW20 asset.
  lemma UnbondPays(w: World, sender: Addr, amount: nat, tax: TaxPolicy, n: nat)
    requires Good(w) && Step(w, Unbond(sender, amount, tax)).Ok?
    ensures var w' := Step(w, Unbond(sender, amount, tax)).value;
            var worth: int := w'.totals.unbonded - w.totals.unbonded;
            && 0 <= worth && (n <= worth <==> FromUint(n) <= amount * Rate(w.ledger))
            && OnlyMoves(w.shares, w'.shares, sender, 0 - amount)
            && w'.ledger == Ledger(w.ledger.vaults - FromUint(worth), w.ledger.commission, w.ledger.supply - amount)
            && w'.config == w.config
            && (w.config.asset.Token? ==> w'.balance == w.balance - amount)
            && (w.config.asset.NativeToken? ==>
                  var net := DeductTax(w.config.asset, tax, worth).value;
                  w'.balance == w.balance - net - Levy(w.config.asset, tax, net))
  {
    TotalSet(w.shares, sender, 0);
    WorthIsGreatest(w.ledger, amount, n);
  }

  // An execute commits exactly when its sender is the owner and it leaves a gain, or must settle and
  // the commission covers the loss. A gain accrues commission at the configured rate.
  lemma ExecuteSettles(w: World, sender: Addr, balanceAfter: nat, must: bool, n: nat)
    requires Good(w)
    ensures var r, l, found := Step(w, Execute(sender, balanceAfter, must)), w.ledger, FromUint(balanceAfter);
            && (r.Ok? <==> sender == w.config.owner &&
                           (found > l.vaults || (must && l.vaults <= found + l.commission)))
            && (r.Ok? ==>
                  var l' := r.value.ledger;
                  && l'.vaults == found && l'.supply == l.supply
                  && r.value.balance == balanceAfter && r.value.shares == w.shares && r.value.config == w.config
                  && (found <= l.vaults ==> l'.commission + l.vaults == l.commission + found)
                  && (found > l.vaults ==>
                        (n <= l'.commission - l.commission <==>
                         FromUint(n) <= (found - l.vaults) * w.config.commissionRate)))
  {
    if FromUint(balanceAfter) > w.ledger.vaults {
      CommissionIsGreatest(w.ledger, w.config.commissionRate, balanceAfter, must, n);
    }
  }

  // What a claim of so many units costs the planet.
  function ClaimCost(asset: AssetInfo, tax: TaxPolicy, amount: nat): nat
    requires asset.NativeToken?
  {
    var net := DeductTax(asset, tax, amount).value;
    net + Levy(asset, tax, net)
  }

  // A claim commits exactly when its sender owns a native planet whose balance covers the whole units
  // of the commission, taxed. It drains the commission, leaving less than one unit unpaid, and
  // touches neither VAULTS nor any tokens.
  lemma ClaimPays(w: World, sender: Addr, tax: TaxPolicy, amount: nat, n: nat)
    requires FromUint(amount) <= w.ledger.commission < FromUint(amount) + ONE
    ensures var r, asset := Step(w, Claim(sender, tax)), w.config.asset;
            && (r.Ok? <==> sender == w.config.owner && asset.NativeToken? &&
                           ClaimCost(asset, tax, amount) <= w.balance)
            && (r.Ok? ==>
                  var w' := r.value;
                  var claimed: int := w'.totals.unsettled - w.totals.unsettled;
                  && claimed == amount && (n <= claimed <==> FromUint(n) <= w.ledger.commission)
                  && w'.totals.drained == w.totals.drained + w.ledger.commission
                  && w'.balance == w.balance - ClaimCost(asset, tax, amount)
                  && w'.ledger == Ledger(w.ledger.vaults, 0, w.ledger.supply)
                  && w'.shares == w.shares && w'.config == w.config)
  {
    ClaimIsGreatest(w.ledger, n);
    ClaimIsGreatest(w.ledger, amount);
    ClaimIsGreatest(w.ledger, amount + 1);
  }

  // A transfer commits exactly when the sender holds the tokens, and moves just them.
  lemma TransferMoves(w: World, sender: Addr, to: Addr, amount: nat)
    ensures var r := Step(w, Transfer(sender, to, amount));
            && (r.Ok? <==> amount <= Holding(w.shares, sender))
            && (r.Ok? ==>
                  var w' := r.value;
                  && w' == w.(shares := w'.shares)
                  && forall who :: Holding(w'.shares, who) == Holding(w.shares, who)
                                     - (if who == sender then amount else 0)
                                     + (if who == to then amount else 0))
  {}

  // A config update commits exactly when the owner sends it and a new owner's address is valid. What
  // is given is what is configured afterwards, what is not given stays, and nothing else changes.
  lemma ConfigIsReplaced(w: World, sender: Addr, owner: Option<Addr>, commissionRate: Option<nat>,
                         tokenCodeId: Option<nat>, valid: bool)
    ensures var r := Step(w, UpdateConfig(sender, owner, commissionRate, tokenCodeId, valid));
            && (r.Ok? <==> sender == w.config.owner && (owner.None? || valid))
            && (r.Ok? ==>
                  var c, c' := w.config, r.value.config;
                  && r.value == w.(config := c') && c'.asset == c.asset
                  && (owner == Some(c'.owner) || (owner == None && c'.owner == c.owner))
                  && (commissionRate == Some(c'.commissionRate) ||
                      (commissionRate == None && c'.commissionRate == c.commissionRate))
                  && (tokenCodeId == Some(c'.tokenCodeId) ||
                      (tokenCodeId == None && c'.tokenCodeId == c.tokenCodeId)))
  {}

  // So the next gain accrues at the new rate, and only the new owner can make it.
  lemma NewConfigTakesEffect(w: World, sender: Addr, owner: Addr, commissionRate: nat, someone: Addr,
                             balanceAfter: nat, must: bool, n: nat)
    requires Good(w) && commissionRate <= ONE && sender == w.config.owner
    requires FromUint(balanceAfter) > w.ledger.vaults
    ensures var w1 := Next(w, UpdateConfig(sender, Some(owner), Some(commissionRate), None, true));
            var r := Step(w1, Execute(someone, balanceAfter, must));
            && (r.Ok? <==> someone == owner)
            && (r.Ok? ==>
                  (n <= r.value.ledger.commission - w.ledger.commission <==>
                   FromUint(n) <= (FromUint(balanceAfter) - w.ledger.vaults) * commissionRate))
  {
    var w1 := Next(w, UpdateConfig(sender, Some(owner), Some(commissionRate), None, true));
    ConfigIsReplaced(w, sender, Some(owner), Some(commissionRate), None, true);
    ExecuteSettles(w1, someone, balanceAfter, must, n);
  }

  // Nobody but the owner can execute, claim or configure.
  lemma OnlyTheOwner(w: World, tx: Tx)
    requires (tx.Execute? || tx.Claim? || tx.UpdateConfig?) && tx.sender != w.config.owner
    ensures Step(w, tx) == Err(Unauthorized)
  {}

  // What query_stake_info answers is the whole units that the holder's tokens are worth at the rate.
  lemma QuoteIsGreatest(l: Ledger, shares: nat, n: nat)
    requires Sound(l)
    ensures n <= Quote(l, shares) <==> FromUint(n) <= shares * Rate(l)
  {
    WorthBounds(shares, Rate(l));
    GreatestMultiple(shares * Rate(l), ONE, UintMulDec(shares, Rate(l)), n);
  }
}
