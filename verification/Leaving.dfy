// Holders of a planet leaving it for real: whether its balance pays for all of them.

module Leaving {
  import opened Wrappers
  import opened FixedPoint
  import opened Assets
  import opened VaultLedger
  import opened Shares
  import opened PlanetWorld
  import opened PlanetRuns

  // Distinct holders unbond all they hold in `w`, under whatever tax rules.
  predicate Exits(w: World, txs: seq<Tx>) {
    && (forall i :: 0 <= i < |txs| ==>
          txs[i].Unbond? && txs[i].amount == Holding(w.shares, txs[i].sender))
    && (forall i, j :: 0 <= i < j < |txs| ==> txs[i].sender != txs[j].sender)
  }

  // One call after the other, all of them commit.
  predicate AllCommit(w: World, txs: seq<Tx>)
    decreases |txs|
  {
    txs == [] || (Step(w, txs[0]).Ok? && AllCommit(Next(w, txs[0]), txs[1..]))
  }

  lemma {:induction false} RunFront(w: World, txs: seq<Tx>)
    requires txs != []
    ensures Run(w, txs) == Run(Next(w, txs[0]), txs[1..])
  {
    if |txs| == 1 {
      assert txs[..0] == [];
    } else {
      RunFront(w, txs[..|txs| - 1]);
      assert txs[..|txs| - 1][1..] == txs[1..][..|txs[1..]| - 1];
    }
  }

  // In terms of runs: none of the calls fails in the state that the calls before it have left.
  lemma {:induction false} AllCommitInRun(w: World, txs: seq<Tx>)
    ensures AllCommit(w, txs) <==> forall k :: 0 <= k < |txs| ==> Step(Run(w, txs[..k]), txs[k]).Ok?
    decreases |txs|
  {
    if txs != [] {
      var w1, rest := Next(w, txs[0]), txs[1..];
      AllCommitInRun(w1, rest);
      assert txs[..0] == [];
      forall k | 0 <= k < |rest|
        ensures Run(w, txs[..k + 1]) == Run(w1, rest[..k]) && rest[k] == txs[k + 1]
      {
        RunFront(w, txs[..k + 1]);
        assert txs[..k + 1][1..] == rest[..k];
      }
      FromSecond(w, txs);
    }
  }

  lemma FromSecond(w: World, txs: seq<Tx>)
    requires txs != [] && Run(w, txs[..0]) == w
    requires forall k :: 0 <= k < |txs| - 1 ==>
               Run(w, txs[..k + 1]) == Run(Next(w, txs[0]), txs[1..][..k]) && txs[1..][k] == txs[k + 1]
    ensures (forall k :: 0 <= k < |txs| ==> Step(Run(w, txs[..k]), txs[k]).Ok?) <==>
            && Step(w, txs[0]).Ok?
            && forall k :: 0 <= k < |txs[1..]| ==>
                 Step(Run(Next(w, txs[0]), txs[1..][..k]), txs[1..][k]).Ok?
  {
    var w1, rest := Next(w, txs[0]), txs[1..];
    if forall k :: 0 <= k < |txs| ==> Step(Run(w, txs[..k]), txs[k]).Ok? {
      assert Step(Run(w, txs[..0]), txs[0]).Ok?;
      forall k | 0 <= k < |rest|
        ensures Step(Run(w1, rest[..k]), rest[k]).Ok?
      {
        assert Step(Run(w, txs[..k + 1]), txs[k + 1]).Ok?;
      }
    }
    if Step(w, txs[0]).Ok? && forall k :: 0 <= k < |rest| ==> Step(Run(w1, rest[..k]), rest[k]).Ok? {
      forall k | 0 <= k < |txs|
        ensures Step(Run(w, txs[..k]), txs[k]).Ok?
      {
        if k > 0 {
          assert Step(Run(w1, rest[..k - 1]), rest[k - 1]).Ok?;
        }
      }
    }
  }

  // ---- what the leavers hold and cost

  function Amounts(txs: seq<Tx>): (a: seq<nat>)
    requires forall tx :: tx in txs ==> tx.Unbond?
    ensures |a| == |txs| && forall i :: 0 <= i < |txs| ==> a[i] == txs[i].amount
  {
    if txs == [] then [] else [txs[0].amount] + Amounts(txs[1..])
  }

  // Everybody who holds anything is among the senders.
  ghost predicate LeavesNobody(h: Holdings, txs: seq<Tx>) {
    forall who :: Holding(h, who) != 0 ==> exists i :: 0 <= i < |txs| && txs[i].Unbond? && txs[i].sender == who
  }

  lemma {:induction false} NobodyLeft(h: Holdings)
    requires forall who :: Holding(h, who) == 0
    ensures Total(h) == 0
    decreases |h|
  {
    if h != map[] {
      var who :| who in h;
      TotalWithout(h, who);
      assert Holding(h, who) == 0;
      forall other
        ensures Holding(h - {who}, other) == 0
      {
        assert Holding(h, other) == 0;
      }
      NobodyLeft(h - {who});
    }
  }

  // Distinct leavers hold at most the supply, and all of it when nobody else holds any.
  lemma {:induction false} LeaversHold(h: Holdings, txs: seq<Tx>)
    requires forall i :: 0 <= i < |txs| ==> txs[i].Unbond? && txs[i].amount == Holding(h, txs[i].sender)
    requires forall i, j :: 0 <= i < j < |txs| ==> txs[i].sender != txs[j].sender
    ensures Sum(Amounts(txs)) <= Total(h)
    ensures LeavesNobody(h, txs) ==> Sum(Amounts(txs)) == Total(h)
    decreases |txs|
  {
    if txs == [] {
      if LeavesNobody(h, txs) {
        forall who
          ensures Holding(h, who) == 0
        {}
        NobodyLeft(h);
      }
    } else {
      var first := txs[0].sender;
      var rest := h[first := 0];
      TotalSet(h, first, 0);
      forall i | 0 <= i < |txs[1..]|
        ensures txs[1..][i].amount == Holding(rest, txs[1..][i].sender)
      {
        assert txs[1..][i] == txs[i + 1];
      }
      LeaversHold(rest, txs[1..]);
      assert Amounts(txs)[1..] == Amounts(txs[1..]);
      if LeavesNobody(h, txs) {
        forall who | Holding(rest, who) != 0
          ensures exists i :: 0 <= i < |txs[1..]| && txs[1..][i].Unbond? && txs[1..][i].sender == who
        {
          assert Holding(h, who) != 0;
          var i :| 0 <= i < |txs| && txs[i].Unbond? && txs[i].sender == who;
          assert txs[1..][i - 1] == txs[i];
        }
      }
    }
  }

  // What the payments of such amounts cost a planet, tax included.
  function Costs(asset: AssetInfo, txs: seq<Tx>, paid: seq<nat>): nat
    requires |paid| == |txs| && forall tx :: tx in txs ==> tx.Unbond?
  {
    if txs == [] then 0
    else PayoutCost(asset, txs[0].tax, paid[0], txs[0].amount) + Costs(asset, txs[1..], paid[1..])
  }

  lemma {:induction false} CostsWithinWorth(asset: AssetInfo, txs: seq<Tx>, paid: seq<nat>)
    requires |paid| == |txs| && forall i :: 0 <= i < |txs| ==> txs[i].Unbond? && txs[i].amount <= paid[i]
    ensures Costs(asset, txs, paid) <= Sum(paid)
    ensures asset.NativeToken? && (forall tx :: tx in txs ==> TaxFree(asset, tx.tax)) ==>
              Costs(asset, txs, paid) == Sum(paid)
  {
    if txs != [] {
      if asset.NativeToken? {
        DeductedPaymentFits(asset, txs[0].tax, paid[0]);
        if TaxFree(asset, txs[0].tax) {
          NoTax(asset, txs[0].tax, paid[0]);
        }
      }
      CostsWithinWorth(asset, txs[1..], paid[1..]);
    }
  }

  // What each leaver's tokens are worth when it is their turn.
  function Worths(w: World, txs: seq<Tx>): (worths: seq<nat>)
    requires Good(w) && Exits(w, txs)
    ensures |worths| == |txs|
  {
    WorthsExist(w, txs);
    Drain(w.ledger, Amounts(txs)).value.1
  }

  lemma WorthsExist(w: World, txs: seq<Tx>)
    requires Good(w) && Exits(w, txs)
    ensures Sum(Amounts(txs)) <= w.ledger.supply
    ensures LeavesNobody(w.shares, txs) ==> Sum(Amounts(txs)) == w.ledger.supply
    ensures Drain(w.ledger, Amounts(txs)).Ok?
    ensures |Drain(w.ledger, Amounts(txs)).value.1| == |txs|
  {
    LeaversHold(w.shares, txs);
    DrainBounds(w.ledger, Amounts(txs), Rate(w.ledger));
  }

  // Each is at least the quote from before the first one left; together they stay within the net,
  // and miss it by less than S + n units raw when nobody stays.
  lemma WorthsBounds(w: World, txs: seq<Tx>)
    requires Good(w) && Exits(w, txs)
    ensures var worths := Worths(w, txs);
            && (forall i :: 0 <= i < |txs| ==> txs[i].amount <= Quote(w.ledger, txs[i].amount) <= worths[i])
            && FromUint(Sum(worths)) <= Net(w.ledger)
            && (LeavesNobody(w.shares, txs) && w.ledger.supply != 0 ==>
                  Net(w.ledger) < FromUint(Sum(worths)) + w.ledger.supply + FromUint(|txs|))
  {
    var amounts := Amounts(txs);
    WorthsExist(w, txs);
    DrainBounds(w.ledger, amounts, Rate(w.ledger));
    BackedIsRateOne(w.ledger);
    forall i | 0 <= i < |txs|
      ensures txs[i].amount <= Quote(w.ledger, txs[i].amount) <= Worths(w, txs)[i]
    {
      assert amounts[i] == txs[i].amount;
      MulMono(ONE, Rate(w.ledger), txs[i].amount);
      FloorAtLeast(txs[i].amount * Rate(w.ledger), ONE, txs[i].amount);
    }
    if LeavesNobody(w.shares, txs) && w.ledger.supply != 0 {
      DrainInAnyOrder(w.ledger, amounts);
    }
  }

  // ---- who can leave

  // What it costs the planet to pay all of them.
  function Bill(w: World, txs: seq<Tx>): nat
    requires Good(w) && Exits(w, txs)
  {
    Costs(w.config.asset, txs, Worths(w, txs))
  }

  lemma FirstLeaves(w: World, txs: seq<Tx>)
    requires Good(w) && Exits(w, txs) && txs != []
    ensures var w1 := Next(w, txs[0]);
            if Step(w, txs[0]).Err? then w.balance < Bill(w, txs)
            else
              && Good(w1) && Exits(w1, txs[1..])
              && Bill(w, txs) - Bill(w1, txs[1..]) == w.balance - w1.balance
  {
    var tx := txs[0];
    WorthsExist(w, txs);
    assert Amounts(txs)[1..] == Amounts(txs[1..]);
    BondAndUnbondCommit(w, tx.sender, tx.amount, tx.tax);
    if Step(w, tx).Ok? {
      StepGood(w, tx);
    }
  }

  // A list of leavers can be paid to the end exactly when the balance covers what they cost.
  lemma {:induction false} AllLeaveExactlyWhen(w: World, txs: seq<Tx>)
    requires Good(w) && Exits(w, txs)
    ensures AllCommit(w, txs) <==> Bill(w, txs) <= w.balance
    decreases |txs|
  {
    if txs != [] {
      FirstLeaves(w, txs);
      if Step(w, txs[0]).Ok? {
        AllLeaveExactlyWhen(Next(w, txs[0]), txs[1..]);
      }
    }
  }

  // When the balance covers the holders' net, everybody can leave for real, in any order and under
  // any tax. Each unbond commits, is worth at least the quote from before the first one left, and a
  // native planet sends at least what that quote would pay after tax; a CW20 planet sends as many
  // units as the leaver held tokens.
  lemma EveryoneCanLeave(w: World, txs: seq<Tx>, k: nat)
    requires Good(w) && Exits(w, txs) && Net(w.ledger) <= FromUint(w.balance) && k < |txs|
    ensures AllCommit(w, txs)
    ensures var wk, asset, tx := Run(w, txs[..k]), w.config.asset, txs[k];
            && Good(wk) && wk.config == w.config && Step(wk, tx).Ok?
            && var quote, worth := Quote(w.ledger, tx.amount), Quote(wk.ledger, tx.amount);
               && quote <= worth
               && (asset.NativeToken? ==>
                     DeductTax(asset, tx.tax, quote).value <= DeductTax(asset, tx.tax, worth).value)
               && (asset.Token? ==> PayoutCost(asset, tx.tax, worth, tx.amount) == Holding(w.shares, tx.sender))
  {
    CoveredLeave(w, txs);
    AllCommitInRun(w, txs);
    QuoteInTurn(w, txs, k);
    UnbondsKeepConfig(w, txs[..k]);
    if w.config.asset.NativeToken? {
      DeductTaxMonotone(w.config.asset, txs[k].tax, Quote(w.ledger, txs[k].amount),
                        Quote(Run(w, txs[..k]).ledger, txs[k].amount));
    }
  }

  lemma CoveredLeave(w: World, txs: seq<Tx>)
    requires Good(w) && Exits(w, txs) && Net(w.ledger) <= FromUint(w.balance)
    ensures AllCommit(w, txs)
  {
    WorthsBounds(w, txs);
    CostsWithinWorth(w.config.asset, txs, Worths(w, txs));
    AllLeaveExactlyWhen(w, txs);
  }

  lemma {:induction false} UnbondsKeepConfig(w: World, txs: seq<Tx>)
    requires forall tx :: tx in txs ==> tx.Unbond?
    ensures Run(w, txs).config == w.config
  {
    if txs != [] {
      UnbondsKeepConfig(w, txs[..|txs| - 1]);
    }
  }

  lemma QuoteInTurn(w: World, txs: seq<Tx>, k: nat)
    requires Good(w) && Exits(w, txs) && k < |txs|
    ensures var wk := Run(w, txs[..k]);
            Good(wk) && Quote(w.ledger, txs[k].amount) <= Quote(wk.ledger, txs[k].amount)
  {
    var wk := Run(w, txs[..k]);
    forall tx | tx in txs[..k]
      ensures Keeps(txs[k].sender, tx)
    {}
    HolderNeverLoses(w, txs[..k], txs[k].sender);
    if txs[k].amount != 0 {
      QuoteMonotone(w.ledger, wk.ledger, txs[k].amount, txs[k].amount);
    }
  }

  // All holders of an untaxed native planet, who hold something.
  ghost predicate AllLeaveUntaxed(w: World, txs: seq<Tx>) {
    && w.ledger.supply != 0 && LeavesNobody(w.shares, txs)
    && w.config.asset.NativeToken?
    && forall tx :: tx in txs ==> tx.Unbond? && TaxFree(w.config.asset, tx.tax)
  }

  // When it falls short of the net by S + n units raw, somebody is not paid, if all n holders of an
  // untaxed native planet try to leave, in whatever order.
  lemma SomebodyIsNotPaid(w: World, txs: seq<Tx>)
    requires Good(w) && Exits(w, txs) && AllLeaveUntaxed(w, txs)
    requires FromUint(w.balance) + w.ledger.supply + FromUint(|txs|) <= Net(w.ledger)
    ensures !AllCommit(w, txs)
  {
    WorthsBounds(w, txs);
    CostsWithinWorth(w.config.asset, txs, Worths(w, txs));
    AllLeaveExactlyWhen(w, txs);
  }

  // In reachable states both bounds are about the claims since the last settlement: all holders can
  // leave while what payments left behind and others sent in since makes up for the claims, and if
  // it misses them by S + n units raw somebody cannot.
  lemma ClaimsDecideWhoLeaves(w: World, exits: seq<Tx>)
    requires Reachable(w) && Exits(w, exits)
    ensures Good(w) && 0 <= w.totals.dust
    ensures var open, back := w.totals.unsettled, w.totals.dust + w.totals.gifts;
            && (Net(w.ledger) <= FromUint(w.balance) <==> open <= back)
            && (open <= back ==> AllCommit(w, exits))
            && (FromUint(back) + w.ledger.supply + FromUint(|exits|) <= FromUint(open) ==>
                  AllLeaveUntaxed(w, exits) ==> !AllCommit(w, exits))
  {
    NetIsCoveredExactlyWhen(w);
    CoverageDecides(w, exits, w.totals.unsettled, w.totals.dust + w.totals.gifts);
  }

  lemma CoverageDecides(w: World, exits: seq<Tx>, open: nat, back: nat)
    requires Good(w) && Exits(w, exits)
    requires if open <= back then Net(w.ledger) <= FromUint(w.balance)
             else Net(w.ledger) + FromUint(back) == FromUint(w.balance + open)
    ensures open <= back ==> AllCommit(w, exits)
    ensures AllLeaveUntaxed(w, exits) && FromUint(back) + w.ledger.supply + FromUint(|exits|) <= FromUint(open) ==>
              !AllCommit(w, exits)
  {
    if open <= back {
      CoveredLeave(w, exits);
    } else if AllLeaveUntaxed(w, exits) && FromUint(back) + w.ledger.supply + FromUint(|exits|) <= FromUint(open) {
      SomebodyIsNotPaid(w, exits);
    }
  }

  // The only holder bonds a hundred, the planet gains ten, the owner claims a commission of five:
  // now the holder's tokens are worth 110, the planet owns 105, and the holder cannot leave.
  lemma ClaimCanTrapTheHolder(claimTax: TaxPolicy, tax: TaxPolicy)
    ensures var config := Config("o", ONE / 2, NativeToken(LUNA), 1);
            var w := Run(Genesis(config), [Bond("h", 100), Execute("o", 110, false), Claim("o", claimTax)]);
            && Holding(w.shares, "h") == w.ledger.supply == 100
            && w.balance == 105 && w.totals.unsettled == 5
            && Step(w, Unbond("h", 100, tax)) == Err(InsufficientFunds)
  {
    var config := Config("o", ONE / 2, NativeToken(LUNA), 1);
    RunOfThree(Genesis(config), [Bond("h", 100), Execute("o", 110, false), Claim("o", claimTax)]);
    var w1 := Next(Genesis(config), Bond("h", 100));
    assert w1.ledger == Ledger(FromUint(100), 0, 100);
    var w2 := Next(w1, Execute("o", 110, false));
    assert w2.ledger == Ledger(FromUint(110), FromUint(5), 100);
    ClaimOfUnits(w2, claimTax, 5);
    var w3 := Next(w2, Claim("o", claimTax));
    TooDear(w3, "h", tax);
  }

  lemma TooDear(w: World, who: Addr, tax: TaxPolicy)
    requires TaxFree(w.config.asset, tax) && w.ledger == Ledger(FromUint(110), 0, 100)
    requires Holding(w.shares, who) == 100 && w.balance < 110
    ensures Step(w, Unbond(who, 100, tax)) == Err(InsufficientFunds)
  {
    assert Unbonded(w.ledger, 100) == Ok((EMPTY, 110));
    NoTax(w.config.asset, tax, 110);
  }
}
