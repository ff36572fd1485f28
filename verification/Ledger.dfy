// The vault ledger of packages/planet: what each handler does to VAULTS, COMMISSION and the
// vault-token supply, and what a single step keeps.

module VaultLedger {
  import opened Wrappers
  import opened FixedPoint

  // `vaults` and `commission` are raw decimals, `supply` counts whole vault-token units.
  datatype Ledger = Ledger(vaults: nat, commission: nat, supply: nat)

  const EMPTY := Ledger(0, 0, 0)

  // Commission is part of the vaults.
  predicate Sound(l: Ledger) {
    l.commission <= l.vaults
  }

  // The part of the vaults that belongs to the holders.
  function Net(l: Ledger): nat
    requires Sound(l)
  {
    l.vaults - l.commission
  }

  // Every vault token is backed by at least one whole unit.
  predicate Backed(l: Ledger) {
    Sound(l) && FromUint(l.supply) <= Net(l)
  }

  // compute_share_rate: the decimal quotient of the code is this floor, see DecDivCancels.
  function ShareRate(l: Ledger): Result<nat> {
    if l.supply == 0 then Ok(ONE)
    else if l.vaults < l.commission then Err(Underflow)
    else Ok((l.vaults - l.commission) / l.supply)
  }

  // try_bond: the ledger after `amount` units arrive, and the tokens minted for them.
  function Bonded(l: Ledger, amount: nat): Result<(Ledger, nat)> {
    var rate :- ShareRate(l);
    if rate == 0 then Err(DivisionByZero)
    else
      var minted := UintDivDec(amount, rate);
      Ok((l.(vaults := l.vaults + FromUint(amount), supply := l.supply + minted), minted))
  }

  // try_unbond: the ledger after `shares` tokens are burnt, and the units they are worth.
  function Unbonded(l: Ledger, shares: nat): Result<(Ledger, nat)> {
    var rate :- ShareRate(l);
    var worth := UintMulDec(shares, rate);
    if l.vaults < FromUint(worth) || l.supply < shares then Err(Underflow)
    else Ok((l.(vaults := l.vaults - FromUint(worth), supply := l.supply - shares), worth))
  }

  // reply to an execute: the vaults become the balance found; a gain pays commission, a loss is
  // taken out of the commission when the execute must settle, and aborts otherwise.
  function Settled(l: Ledger, commissionRate: nat, balance: nat, must: bool): Result<Ledger> {
    var found := FromUint(balance);
    if found > l.vaults then
      Ok(Ledger(found, l.commission + DecMul(found - l.vaults, commissionRate), l.supply))
    else if must then
      if l.commission < l.vaults - found then Err(Underflow)
      else Ok(Ledger(found, l.commission - (l.vaults - found), l.supply))
    else Err(FailedExecute)
  }

  // try_claim: all commission is drained, its whole units are paid, and VAULTS stays as it is.
  function Claimed(l: Ledger): (Ledger, nat) {
    (l.(commission := 0), UintMulDec(1, l.commission))
  }

  // ---- the share rate

  // The rate of a sound ledger; total, unlike ShareRate.
  function Rate(l: Ledger): (r: nat)
    requires Sound(l)
  {
    ShareRate(l).value
  }

  lemma RateIsFloor(l: Ledger)
    requires Sound(l) && l.supply != 0
    ensures Rate(l) == Net(l) / l.supply
    ensures l.supply * Rate(l) <= Net(l) < l.supply * Rate(l) + l.supply
  {
    FloorBounds(Net(l), l.supply);
  }

  // A ledger reaches a rate exactly when its tokens, at that rate, are covered.
  lemma RateAtLeast(l: Ledger, r: nat)
    requires Sound(l) && l.supply != 0
    ensures r <= Rate(l) <==> l.supply * r <= Net(l)
  {
    RateIsFloor(l);
    if r <= Rate(l) {
      MulMono(r, Rate(l), l.supply);
    } else {
      MulMono(Rate(l) + 1, r, l.supply);
    }
  }

  // Being backed is the same as a rate of at least one.
  lemma BackedIsRateOne(l: Ledger)
    requires Sound(l)
    ensures Backed(l) <==> ONE <= Rate(l)
  {
    if l.supply != 0 {
      RateAtLeast(l, ONE);
    }
  }

  // The floors that bond and unbond leave behind.
  lemma MintBounds(amount: nat, rate: nat)
    requires rate != 0
    ensures var m := UintDivDec(amount, rate);
            m * rate <= FromUint(amount) < m * rate + rate
  {
    FloorBounds(amount * ONE, rate);
  }

  lemma WorthBounds(shares: nat, rate: nat)
    ensures var u := UintMulDec(shares, rate);
            FromUint(u) <= shares * rate < FromUint(u) + ONE
  {
    FloorBounds(shares * rate, ONE);
  }

  // ---- one step

  // Bonding a sound ledger fails exactly when its rate has been rounded to zero,
  // and otherwise every old and new token stays covered at the old rate.
  lemma BondKeepsRate(l: Ledger, amount: nat)
    requires Sound(l)
    ensures Bonded(l, amount).Ok? <==> Rate(l) != 0
    ensures Bonded(l, amount).Ok? ==>
              var (l', minted) := Bonded(l, amount).value;
              Sound(l') && (l'.supply != 0 ==> Rate(l) <= Rate(l'))
  {
    if Rate(l) != 0 {
      var (l', m) := Bonded(l, amount).value;
      MintBounds(amount, Rate(l));
      assert l'.supply * Rate(l) == l.supply * Rate(l) + m * Rate(l);
      if l.supply != 0 { RateIsFloor(l); }
      if l'.supply != 0 { RateAtLeast(l', Rate(l)); }
    }
  }

  // Unbonding tokens that exist always succeeds, and what stays is covered at the old rate.
  lemma UnbondKeepsRate(l: Ledger, shares: nat)
    requires Sound(l)
    ensures Unbonded(l, shares).Ok? <==> shares <= l.supply
    ensures Unbonded(l, shares).Ok? ==>
              var (l', worth) := Unbonded(l, shares).value;
              Sound(l') && (l'.supply != 0 ==> Rate(l) <= Rate(l'))
  {
    var r := Rate(l);
    WorthBounds(shares, r);
    if shares <= l.supply {
      var rest := l.supply - shares;
      assert l.supply * r == shares * r + rest * r;
      if l.supply != 0 {
        RateIsFloor(l);
        assert FromUint(UintMulDec(shares, r)) <= Net(l);
        var (l', u) := Unbonded(l, shares).value;
        if l'.supply != 0 { RateAtLeast(l', r); }
      }
    }
  }

  // ---- what each handler computes, without naming its quotients

  // A bond mints as many tokens as the amount pays for at the rate, and not one less; an empty
  // ledger mints a token for each unit.
  lemma MintIsGreatest(l: Ledger, amount: nat, n: nat)
    requires Sound(l) && Rate(l) != 0
    ensures Bonded(l, amount).Ok?
    ensures var (l', minted) := Bonded(l, amount).value;
            && (n <= minted <==> n * Rate(l) <= FromUint(amount))
            && (l.supply == 0 ==> minted == amount)
            && l' == Ledger(l.vaults + FromUint(amount), l.commission, l.supply + minted)
  {
    MintBounds(amount, Rate(l));
    GreatestMultiple(FromUint(amount), Rate(l), UintDivDec(amount, Rate(l)), n);
    if l.supply == 0 {
      FloorAtLeast(amount * ONE, ONE, amount);
      FloorAtMost(amount * ONE, ONE, amount);
    }
  }

  // An unbond is worth the whole units that the tokens are worth at the rate.
  lemma WorthIsGreatest(l: Ledger, shares: nat, n: nat)
    requires Sound(l) && shares <= l.supply
    ensures Unbonded(l, shares).Ok?
    ensures var (l', worth) := Unbonded(l, shares).value;
            && (n <= worth <==> FromUint(n) <= shares * Rate(l))
            && FromUint(worth) <= l.vaults
            && l' == Ledger(l.vaults - FromUint(worth), l.commission, l.supply - shares)
  {
    UnbondKeepsRate(l, shares);
    WorthBounds(shares, Rate(l));
    GreatestMultiple(shares * Rate(l), ONE, UintMulDec(shares, Rate(l)), n);
  }

  // A claim pays all whole units of the commission, and takes the rest of it too.
  lemma ClaimIsGreatest(l: Ledger, n: nat)
    ensures var (l', amount) := Claimed(l);
            && (n <= amount <==> FromUint(n) <= l.commission)
            && FromUint(amount) <= l.commission < FromUint(amount) + ONE
            && l' == Ledger(l.vaults, 0, l.supply)
  {
    FloorBounds(l.commission, ONE);
    GreatestMultiple(l.commission, ONE, UintMulDec(1, l.commission), n);
  }

  // A gain accrues as many raw units as its product with the commission rate holds.
  lemma CommissionIsGreatest(l: Ledger, commissionRate: nat, balance: nat, must: bool, n: nat)
    requires FromUint(balance) > l.vaults
    ensures Settled(l, commissionRate, balance, must).Ok?
    ensures var l' := Settled(l, commissionRate, balance, must).value;
            && l.commission <= l'.commission
            && (n <= l'.commission - l.commission <==>
                FromUint(n) <= (FromUint(balance) - l.vaults) * commissionRate)
            && l'.vaults == FromUint(balance) && l'.supply == l.supply
  {
    var product := (FromUint(balance) - l.vaults) * commissionRate;
    FloorBounds(product, ONE);
    GreatestMultiple(product, ONE, product / ONE, n);
  }

  lemma GreatestMultiple(total: nat, d: nat, q: nat, n: nat)
    requires q * d <= total < q * d + d
    ensures n <= q <==> n * d <= total
  {
    if n <= q {
      MulMono(n, q, d);
    } else {
      MulMono(q + 1, n, d);
    }
  }

  // With a commission rate of at most one a settlement never takes from the holders.
  lemma SettleKeepsNet(l: Ledger, commissionRate: nat, balance: nat, must: bool)
    requires Sound(l) && commissionRate <= ONE
    requires Settled(l, commissionRate, balance, must).Ok?
    ensures var l' := Settled(l, commissionRate, balance, must).value;
            && Sound(l') && Net(l) <= Net(l') && l'.supply == l.supply
            && (FromUint(balance) <= l.vaults ==> Net(l') == Net(l))
  {
    if FromUint(balance) > l.vaults {
      CommissionFits(FromUint(balance) - l.vaults, commissionRate);
    }
  }

  lemma CommissionFits(revenue: nat, commissionRate: nat)
    requires commissionRate <= ONE
    ensures DecMul(revenue, commissionRate) <= revenue
  {
    MulMono(commissionRate, ONE, revenue);
    FloorAtMost(revenue * commissionRate, ONE, revenue);
  }

  // The bound on the commission rate is needed: it is exactly what makes every gain
  // leave something to the holders.
  lemma CommissionRateBound(commissionRate: nat)
    ensures commissionRate <= ONE <==>
            forall l, balance :: Sound(l) && FromUint(balance) > l.vaults ==>
              Sound(Settled(l, commissionRate, balance, false).value) &&
              Net(l) <= Net(Settled(l, commissionRate, balance, false).value)
  {
    if commissionRate <= ONE {
      forall l, balance | Sound(l) && FromUint(balance) > l.vaults
        ensures Sound(Settled(l, commissionRate, balance, false).value) &&
                Net(l) <= Net(Settled(l, commissionRate, balance, false).value)
      {
        SettleKeepsNet(l, commissionRate, balance, false);
      }
    } else {
      assert Settled(EMPTY, commissionRate, 1, false).value.commission == commissionRate;
      assert !Sound(Settled(EMPTY, commissionRate, 1, false).value);
    }
  }

  lemma RateFollowsNet(l: Ledger, l': Ledger)
    requires Sound(l) && Sound(l') && Net(l) <= Net(l') && l.supply == l'.supply
    ensures Rate(l) <= Rate(l')
  {
    if l.supply != 0 {
      RateIsFloor(l);
      RateAtLeast(l', Rate(l));
    }
  }

  // ---- bond, then unbond what was minted

  // Bonding into a live ledger and leaving at once never pays more than was put in, and costs
  // at most (rate - 1) rounded up to whole units, although the mint divides by a rate that is
  // already rounded down and the bond itself can raise that rate.
  lemma RoundTrip(l: Ledger, amount: nat)
    requires Sound(l) && l.supply != 0 && Rate(l) != 0
    ensures Bonded(l, amount).Ok?
    ensures var (l1, minted) := Bonded(l, amount).value;
            && Unbonded(l1, minted).Ok?
            && var paid := Unbonded(l1, minted).value.1;
               paid <= amount <= paid + CeilDiv(Rate(l) - 1, ONE)
  {
    BondKeepsRate(l, amount);
    var (l1, m) := Bonded(l, amount).value;
    UnbondKeepsRate(l1, m);
    var r, r' := Rate(l), Rate(l1);
    var u := UintMulDec(m, r');
    RateIsFloor(l);
    RateIsFloor(l1);
    MintBounds(amount, r);
    WorthBounds(m, r');
    RoundTripArithmetic(l.supply, Net(l), amount, r, m, r', u);
    CeilBounds(r - 1, ONE);
  }

  lemma RoundTripArithmetic(s: nat, n: nat, a: nat, r: nat, m: nat, r': nat, u: nat)
    requires s != 0 && 0 < r <= r'
    requires s * r <= n < s * r + s
    requires m * r <= a * ONE < m * r + r
    requires (s + m) * r' <= n + a * ONE
    requires u * ONE <= m * r' < u * ONE + ONE
    ensures u <= a
    ensures a * ONE <= u * ONE + ONE + r - 2
  {
    MulMono(r, r', m);
    var k := r' - r;
    assert m * r' == m * r + m * k;
    assert (s + m) * r' == s * r + s * k + m * r';
    if k > 0 {
      MulMono(1, k, s);
      assert m * r' < a * ONE;
    }
  }

  // Bonding into an empty ledger mints one token per unit; the first holder also owns whatever
  // net was left behind, and gets exactly the bond back when that rounds to less than a unit.
  lemma RoundTripFromEmpty(l: Ledger, amount: nat)
    requires Sound(l) && l.supply == 0 && amount != 0
    ensures Bonded(l, amount).Ok? && Bonded(l, amount).value.1 == amount
    ensures var (l1, minted) := Bonded(l, amount).value;
            && Unbonded(l1, minted).Ok?
            && var paid := Unbonded(l1, minted).value.1;
               amount <= paid && (paid == amount <==> amount * (Net(l) / amount) < ONE)
  {
    FloorAtLeast(amount * ONE, ONE, amount);
    FloorAtMost(amount * ONE, ONE, amount);
    BondKeepsRate(l, amount);
    var (l1, m) := Bonded(l, amount).value;
    UnbondKeepsRate(l1, m);
    RateIsFloor(l1);
    RateOfFirstBond(Net(l), amount);
    WorthBounds(amount, Rate(l1));
    assert amount * Rate(l1) == amount * ONE + amount * (Net(l) / amount);
  }

  lemma RateOfFirstBond(n: nat, amount: nat)
    requires amount != 0
    ensures (n + amount * ONE) / amount == ONE + n / amount
    ensures amount * (ONE + n / amount) == amount * ONE + amount * (n / amount)
  {
    var k := n / amount;
    FloorBounds(n, amount);
    assert amount * (ONE + k) == amount * ONE + amount * k;
    FloorAtLeast(n + amount * ONE, amount, ONE + k);
    FloorAtMost(n + amount * ONE, amount, ONE + k);
  }
}
