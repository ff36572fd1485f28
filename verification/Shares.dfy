// Vault-token holdings, the quotes of query_stake_info, and what all holders are owed together.

module Shares {
  import opened Wrappers
  import opened FixedPoint
  import opened VaultLedger

  type Holdings = map<Addr, nat>

  function Holding(h: Holdings, who: Addr): nat {
    if who in h then h[who] else 0
  }

  function Credit(h: Holdings, who: Addr, amount: nat): Holdings {
    h[who := Holding(h, who) + amount]
  }

  function Debit(h: Holdings, who: Addr, amount: nat): Holdings
    requires amount <= Holding(h, who)
  {
    h[who := Holding(h, who) - amount]
  }

  ghost function Total(h: Holdings): nat {
    if h == map[] then 0
    else
      var who :| who in h;
      h[who] + Total(h - {who})
  }

  lemma {:induction false} TotalWithout(h: Holdings, who: Addr)
    requires who in h
    ensures Total(h) == h[who] + Total(h - {who})
    decreases |h|
  {
    var first :| first in h && Total(h) == h[first] + Total(h - {first});
    if first != who {
      TotalWithout(h - {first}, who);
      TotalWithout(h - {who}, first);
      assert h - {first} - {who} == h - {who} - {first};
    }
  }

  lemma TotalSet(h: Holdings, who: Addr, amount: nat)
    ensures Total(h[who := amount]) == Total(h) - Holding(h, who) + amount
    ensures Holding(h, who) <= Total(h)
  {
    TotalWithout(h[who := amount], who);
    assert h[who := amount] - {who} == h - {who};
    if who in h {
      TotalWithout(h, who);
    } else {
      assert h - {who} == h;
    }
  }

  lemma TotalCredit(h: Holdings, who: Addr, amount: nat)
    ensures Total(Credit(h, who, amount)) == Total(h) + amount
  {
    TotalSet(h, who, Holding(h, who) + amount);
  }

  lemma TotalDebit(h: Holdings, who: Addr, amount: nat)
    requires amount <= Holding(h, who)
    ensures Total(Debit(h, who, amount)) == Total(h) - amount
  {
    TotalSet(h, who, Holding(h, who) - amount);
  }

  // ---- quotes

  // query_stake_info for a holder of `shares` tokens
  function Quote(l: Ledger, shares: nat): nat
    requires Sound(l)
  {
    UintMulDec(shares, Rate(l))
  }

  // The quotes of all holders at a given rate.
  ghost function Quotes(rate: nat, h: Holdings): Holdings {
    map who | who in h :: UintMulDec(h[who], rate)
  }

  lemma QuoteMonotone(l: Ledger, l': Ledger, shares: nat, shares': nat)
    requires Sound(l) && Sound(l') && Rate(l) <= Rate(l') && shares <= shares'
    ensures Quote(l, shares) <= Quote(l', shares')
  {
    MulMono(shares, shares', Rate(l));
    MulMono(Rate(l), Rate(l'), shares');
    FloorMono(shares * Rate(l), shares' * Rate(l'), ONE);
  }

  // The quotes of any holders, in raw units, stay below what their tokens are worth at the rate,
  // by less than one unit each.
  lemma {:induction false} QuotesBounds(rate: nat, h: Holdings)
    ensures FromUint(Total(Quotes(rate, h))) <= Total(h) * rate
    ensures Total(h) * rate + |h| <= FromUint(Total(Quotes(rate, h))) + FromUint(|h|)
    decreases |h|
  {
    if h != map[] {
      var who :| who in h;
      var rest := h - {who};
      QuotesBounds(rate, rest);
      QuotesWithout(rate, h, who);
      TotalWithout(h, who);
      AddWorth(h[who], Total(rest), rate);
    } else {
      assert Quotes(rate, h) == map[];
    }
  }

  lemma AddWorth(x: nat, rest: nat, rate: nat)
    ensures (x + rest) * rate == x * rate + rest * rate
    ensures FromUint(UintMulDec(x, rate)) <= x * rate < FromUint(UintMulDec(x, rate)) + ONE
  {
    WorthBounds(x, rate);
  }

  lemma QuotesWithout(rate: nat, h: Holdings, who: Addr)
    requires who in h
    ensures Total(Quotes(rate, h)) == UintMulDec(h[who], rate) + Total(Quotes(rate, h - {who}))
    ensures |h| == |h - {who}| + 1
  {
    TotalWithout(Quotes(rate, h), who);
    assert Quotes(rate, h - {who}) == Quotes(rate, h) - {who};
    assert h.Keys == (h - {who}).Keys + {who};
  }

  // Aggregate solvency: what query_stake_info promises all holders together, plus the commission,
  // is covered by the vaults, and falls short of them by less than S + n units raw.
  lemma Solvency(l: Ledger, h: Holdings)
    requires Sound(l) && l.supply != 0 && Total(h) == l.supply
    ensures var owed := FromUint(Total(Quotes(Rate(l), h))) + l.commission;
            owed <= l.vaults < owed + l.supply + FromUint(|h|)
  {
    QuotesBounds(Rate(l), h);
    RateIsFloor(l);
  }

  // ---- draining

  function Sum(shares: seq<nat>): nat {
    if shares == [] then 0 else shares[0] + Sum(shares[1..])
  }

  // Unbonds the whole of each listed holding, one after the other.
  function Drain(l: Ledger, shares: seq<nat>): Result<(Ledger, seq<nat>)>
    decreases |shares|
  {
    if shares == [] then Ok((l, []))
    else
      var (l1, paid) :- Unbonded(l, shares[0]);
      var (l2, rest) :- Drain(l1, shares[1..]);
      Ok((l2, [paid] + rest))
  }

  // Payments and what is left, for any list the supply covers: `r` is a rate that is already covered.
  lemma {:induction false} DrainBounds(l: Ledger, shares: seq<nat>, r: nat)
    requires Sound(l) && Sum(shares) <= l.supply
    requires l.supply != 0 ==> r <= Rate(l)
    ensures Drain(l, shares).Ok?
    ensures var (l', paid) := Drain(l, shares).value;
            && Sound(l') && l'.supply == l.supply - Sum(shares) && l'.commission == l.commission
            && |paid| == |shares|
            && (forall i :: 0 <= i < |shares| ==> UintMulDec(shares[i], r) <= paid[i])
            && Net(l) == Net(l') + FromUint(Sum(paid))
            && Sum(shares) * r + |shares| <= FromUint(Sum(paid)) + FromUint(|shares|)
    decreases |shares|
  {
    if shares != [] {
      var h := shares[0];
      UnbondKeepsRate(l, h);
      var (l1, u) := Unbonded(l, h).value;
      DrainBounds(l1, shares[1..], r);
      var (l2, rest) := Drain(l1, shares[1..]).value;
      assert ([u] + rest)[1..] == rest;
      PaidAtLeast(h, Sum(shares[1..]), r, Rate(l));
    }
  }

  lemma PaidAtLeast(h: nat, rest: nat, r: nat, rate: nat)
    requires h == 0 || r <= rate
    ensures (h + rest) * r == h * r + rest * r
    ensures UintMulDec(h, r) <= UintMulDec(h, rate)
    ensures h * r < FromUint(UintMulDec(h, rate)) + ONE
  {
    if h != 0 {
      MulMono(r, rate, h);
      FloorMono(h * r, h * rate, ONE);
    }
    WorthBounds(h, rate);
  }

  // Everybody can leave, in any order: if the listed holdings make up the supply, every unbond
  // succeeds, nobody gets less than the quote they had before the first one left, and the dust
  // that stays with the planet is less than S + n units raw.
  lemma DrainInAnyOrder(l: Ledger, shares: seq<nat>)
    requires Sound(l) && l.supply != 0 && Sum(shares) == l.supply
    ensures Drain(l, shares).Ok?
    ensures var (l', paid) := Drain(l, shares).value;
            && l'.supply == 0 && |paid| == |shares|
            && (forall i :: 0 <= i < |shares| ==> Quote(l, shares[i]) <= paid[i])
            && Sound(l') && Net(l') < l.supply + FromUint(|shares|)
  {
    DrainBounds(l, shares, Rate(l));
    RateIsFloor(l);
  }

  // The holdings in the order in which their owners leave.
  function InOrder(h: Holdings, order: seq<Addr>): seq<nat> {
    seq(|order|, i requires 0 <= i < |order| => Holding(h, order[i]))
  }

  ghost predicate Enumerates(order: seq<Addr>, h: Holdings) {
    && (forall i, j :: 0 <= i < j < |order| ==> order[i] != order[j])
    && (forall who :: who in h <==> who in order)
  }

  lemma EnumeratesRest(order: seq<Addr>, h: Holdings)
    requires Enumerates(order, h) && order != []
    ensures order[0] in h && Enumerates(order[1..], h - {order[0]})
    ensures InOrder(h, order)[1..] == InOrder(h - {order[0]}, order[1..])
  {
    assert order[0] in order;
    forall who
      ensures who in h - {order[0]} <==> who in order[1..]
    {
      assert who in order <==> who == order[0] || who in order[1..];
    }
  }

  // Any order of leaving makes up the supply.
  lemma {:induction false} InOrderSum(h: Holdings, order: seq<Addr>)
    requires Enumerates(order, h)
    ensures Sum(InOrder(h, order)) == Total(h)
    decreases |order|
  {
    if order == [] {
      assert h == map[];
    } else {
      EnumeratesRest(order, h);
      InOrderSum(h - {order[0]}, order[1..]);
      TotalWithout(h, order[0]);
    }
  }

  // So all holders of the vault token can leave one after the other, in whatever order, and nobody
  // is paid less than their quote from before the first one left; less than S + n units raw stay.
  lemma HoldersDrainInAnyOrder(l: Ledger, h: Holdings, order: seq<Addr>)
    requires Sound(l) && l.supply != 0 && Total(h) == l.supply && Enumerates(order, h)
    ensures Drain(l, InOrder(h, order)).Ok?
    ensures var (l', paid) := Drain(l, InOrder(h, order)).value;
            && |paid| == |order| && l'.supply == 0
            && (forall i :: 0 <= i < |order| ==> Quote(l, Holding(h, order[i])) <= paid[i])
            && Sound(l') && Net(l') < l.supply + FromUint(|order|)
  {
    InOrderSum(h, order);
    DrainInAnyOrder(l, InOrder(h, order));
  }
}
