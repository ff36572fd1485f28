// Route strings of contracts/swap-arbitrage, such as "astroport_to_loop": split at "_to_", the
// first two pieces name the exchanges of a cycle from the deposit asset to uluna and back.

module Routes {
  import opened Wrappers
  import opened Assets

  const SEPARATOR := "_to_"

  // The first position of the separator, or |s|.
  function Find(s: string): (i: nat)
    ensures i <= |s|
    ensures i < |s| ==> SEPARATOR <= s[i..]
    ensures forall j :: 0 <= j < i ==> !(SEPARATOR <= s[j..])
  {
    if s == "" || SEPARATOR <= s then 0
    else
      var i := Find(s[1..]);
      assert forall j :: 0 < j <= |s| ==> s[j..] == s[1..][j - 1..];
      i + 1
  }

  // str::split("_to_")
  function Split(s: string): (pieces: seq<string>)
    ensures pieces != []
    decreases |s|
  {
    var i := Find(s);
    if i == |s| then [s] else [s[..i]] + Split(s[i + |SEPARATOR|..])
  }

  function Join(pieces: seq<string>): string
    requires pieces != []
  {
    if |pieces| == 1 then pieces[0] else pieces[0] + SEPARATOR + Join(pieces[1..])
  }

  // How Split takes a string apart at its first separator.
  lemma SplitHead(s: string)
    ensures var i, pieces := Find(s), Split(s);
            && pieces[0] == s[..i]
            && if i == |s| then |pieces| == 1
               else
                 var rest := s[i + |SEPARATOR|..];
                 pieces[1..] == Split(rest) && s == pieces[0] + SEPARATOR + rest
  {}

  lemma SeparatorInPrefix(s: string, i: nat, j: nat)
    requires j <= i <= |s| && SEPARATOR <= s[..i][j..]
    ensures SEPARATOR <= s[j..]
  {
    assert s[..i][j..] == s[j..i];
    assert s[j..] == s[j..i] + s[i..];
  }

  lemma PieceHasNoSeparator(s: string)
    ensures Find(s[..Find(s)]) == Find(s)
  {
    var i := Find(s);
    var j := Find(s[..i]);
    if j < i {
      SeparatorInPrefix(s, i, j);
      assert false;
    }
  }

  // Splitting loses nothing, and leaves no separator inside a piece.
  lemma {:induction false} SplitJoins(s: string)
    ensures Join(Split(s)) == s
    ensures forall piece :: piece in Split(s) ==> Find(piece) == |piece|
    decreases |s|
  {
    SplitHead(s);
    PieceHasNoSeparator(s);
    var i := Find(s);
    if i < |s| {
      SplitJoins(s[i + |SEPARATOR|..]);
      assert forall piece :: piece in Split(s) ==> piece == Split(s)[0] || piece in Split(s)[1..];
    } else {
      assert s[..i] == s;
    }
  }

  // ---- exchanges

  datatype Dex = Native | Terraswap | Astroport | Loop

  function Name(d: Dex): string {
    match d
    case Native => "native_swap"
    case Terraswap => "terra_swap"
    case Astroport => "astroport"
    case Loop => "loop"
  }

  function Print(first: Dex, second: Dex): string {
    Name(first) + SEPARATOR + Name(second)
  }

  datatype SwapOperation =
    | NativeSwapOp(offerDenom: string, askDenom: string)
    | TerraSwapOp(offer: AssetInfo, ask: AssetInfo)
    | AstroportOp(offer: AssetInfo, ask: AssetInfo)
    | LoopOp(offer: AssetInfo, ask: AssetInfo)

  // get_target_asset_info
  function Target(op: SwapOperation): AssetInfo {
    match op
    case NativeSwapOp(_, ask) => NativeToken(ask)
    case TerraSwapOp(_, ask) => ask
    case AstroportOp(_, ask) => ask
    case LoopOp(_, ask) => ask
  }

  // What an operation takes in, read the same way as its target.
  function Source(op: SwapOperation): AssetInfo {
    match op
    case NativeSwapOp(offer, _) => NativeToken(offer)
    case TerraSwapOp(offer, _) => offer
    case AstroportOp(offer, _) => offer
    case LoopOp(offer, _) => offer
  }

  // get_swap_oprations_path
  function Operation(name: string, offer: AssetInfo, ask: AssetInfo): Result<SwapOperation> {
    if name == Name(Native) then Ok(NativeSwapOp(offer.ToString(), ask.ToString()))
    else if name == Name(Terraswap) then Ok(TerraSwapOp(offer, ask))
    else if name == Name(Astroport) then Ok(AstroportOp(offer, ask))
    else if name == Name(Loop) then Ok(LoopOp(offer, ask))
    else Err(InvalidRoute)
  }

  datatype RouteMsg = RouteMsg(denom: string, coin: nat, operations: seq<SwapOperation>, minimumReceive: nat)

  const ULUNA := NativeToken(LUNA)

  // generate_route_msg: a path of one piece, an unknown exchange, or a CW20 deposit asset that
  // would have to be taxed aborts the call.
  function GenerateRouteMsg(path: string, deposit: AssetInfo, tax: TaxPolicy, amount: nat): Result<RouteMsg> {
    var dex := Split(path);
    var coin :- if dex[0] == Name(Native) then Ok(amount) else DeductTax(deposit, tax, amount);
    var first :- Operation(dex[0], deposit, ULUNA);
    if |dex| < 2 then Err(InvalidRoute) else
    var second :- Operation(dex[1], ULUNA, deposit);
    Ok(RouteMsg(deposit.ToString(), coin, [first, second], amount))
  }

  // ---- which routes are accepted

  lemma NoSeparatorAt(s: string, j: nat)
    requires j + 1 < |s| && (s[j] != '_' || s[j + 1] != 't')
    ensures !(SEPARATOR <= s[j..])
  {
    assert s[j..][0] == s[j] && s[j..][1] == s[j + 1];
  }

  // The separator cannot start inside a name, not even by running into what follows it.
  lemma NameStandsAlone(d: Dex, rest: string)
    ensures Find(Name(d) + SEPARATOR + rest) == |Name(d)|
    ensures Find(Name(d)) == |Name(d)|
  {
    var name := Name(d);
    var s := name + SEPARATOR + rest;
    NoUnderscoreT(d);
    forall j | 0 <= j < |name|
      ensures !(SEPARATOR <= s[j..])
    {
      NoSeparatorAt(s, j);
    }
    forall j | 0 <= j < |name|
      ensures !(SEPARATOR <= name[j..])
    {
      if j + 1 < |name| { NoSeparatorAt(name, j); }
    }
    assert s[|name|..] == SEPARATOR + rest;
  }

  lemma NoUnderscoreT(d: Dex)
    ensures forall j :: 0 <= j < |Name(d)| && Name(d)[j] == '_' ==> j + 1 < |Name(d)| && Name(d)[j + 1] != 't'
  {
    match d {
      case Native => assert forall j :: 0 <= j < 11 && Name(Native)[j] == '_' ==> j == 6;
      case Terraswap => assert forall j :: 0 <= j < 10 && Name(Terraswap)[j] == '_' ==> j == 5;
      case Astroport =>
      case Loop =>
    }
  }

  lemma SplitAtName(d: Dex, rest: string)
    ensures Split(Name(d) + SEPARATOR + rest) == [Name(d)] + Split(rest)
    ensures Split(Name(d)) == [Name(d)]
  {
    NameStandsAlone(d, rest);
    var s := Name(d) + SEPARATOR + rest;
    assert s[..|Name(d)|] == Name(d) && s[|Name(d)| + |SEPARATOR|..] == rest;
  }

  // Every printed pair of exchanges is read back.
  lemma PrintedRouteParses(first: Dex, second: Dex)
    ensures Split(Print(first, second)) == [Name(first), Name(second)]
  {
    SplitAtName(first, Name(second));
    SplitAtName(second, "");
  }

  lemma NamesOfOperations(name: string, offer: AssetInfo, ask: AssetInfo)
    ensures Operation(name, offer, ask).Ok? <==> exists d :: name == Name(d)
  {
    if Operation(name, offer, ask).Ok? {
      assert name == Name(Native) || name == Name(Terraswap) || name == Name(Astroport) || name == Name(Loop);
    }
  }

  // A path starts with the route `first`, `second`; the code ignores anything after a second separator.
  predicate StartsWithRoute(path: string, first: Dex, second: Dex) {
    path == Print(first, second) || Print(first, second) + SEPARATOR <= path
  }

  lemma Ungroup(path: string, first: string, second: string, sep: string)
    requires first + sep + second + sep <= path
    ensures path == first + sep + (second + sep + path[|first + sep + second + sep|..])
  {}

  lemma RouteSplits(path: string, first: Dex, second: Dex)
    requires StartsWithRoute(path, first, second)
    ensures |Split(path)| >= 2 && Split(path)[0] == Name(first) && Split(path)[1] == Name(second)
  {
    if path == Print(first, second) {
      PrintedRouteParses(first, second);
    } else {
      var rest := path[|Print(first, second) + SEPARATOR|..];
      Ungroup(path, Name(first), Name(second), SEPARATOR);
      SplitAtName(first, Name(second) + SEPARATOR + rest);
      SplitAtName(second, rest);
    }
  }

  // The first two pieces, joined again, are the path or end at a separator of it.
  lemma FirstTwoPieces(path: string)
    requires |Split(path)| >= 2
    ensures var head := Split(path)[0] + SEPARATOR + Split(path)[1];
            path == head || head + SEPARATOR <= path
  {
    SplitHead(path);
    var tail := path[Find(path) + |SEPARATOR|..];
    SplitHead(tail);
    assert Split(path)[1] == Split(path)[1..][0];
    if Find(tail) < |tail| {
      Regroup(path, Split(path)[0], tail, Split(tail)[0], tail[Find(tail) + |SEPARATOR|..], SEPARATOR);
    }
  }

  lemma Regroup(path: string, first: string, tail: string, second: string, rest: string, sep: string)
    requires path == first + sep + tail && tail == second + sep + rest
    ensures first + sep + second + sep <= path
  {
    assert path == (first + sep + second + sep) + rest;
  }

  lemma AcceptedIsRoute(path: string, deposit: AssetInfo, tax: TaxPolicy, amount: nat) returns (first: Dex, second: Dex)
    requires GenerateRouteMsg(path, deposit, tax, amount).Ok?
    ensures StartsWithRoute(path, first, second) && (deposit.NativeToken? || first == Native)
  {
    var dex := Split(path);
    NamesOfOperations(dex[0], deposit, ULUNA);
    NamesOfOperations(dex[1], ULUNA, deposit);
    first :| dex[0] == Name(first);
    second :| dex[1] == Name(second);
    FirstTwoPieces(path);
  }

  lemma RouteIsAccepted(path: string, deposit: AssetInfo, tax: TaxPolicy, amount: nat, first: Dex, second: Dex)
    requires StartsWithRoute(path, first, second) && (deposit.NativeToken? || first == Native)
    ensures GenerateRouteMsg(path, deposit, tax, amount).Ok?
  {
    RouteSplits(path, first, second);
    NamesOfOperations(Split(path)[0], deposit, ULUNA);
    NamesOfOperations(Split(path)[1], ULUNA, deposit);
  }

  // The accepted paths are exactly those that start with a route, whose first leg must be
  // native_swap when the deposit asset is a CW20 token.
  lemma AcceptedPaths(path: string, deposit: AssetInfo, tax: TaxPolicy, amount: nat)
    ensures GenerateRouteMsg(path, deposit, tax, amount).Ok? <==>
            exists first, second ::
              StartsWithRoute(path, first, second) && (deposit.NativeToken? || first == Native)
  {
    if GenerateRouteMsg(path, deposit, tax, amount).Ok? {
      var first, second := AcceptedIsRoute(path, deposit, tax, amount);
    }
    forall first, second | StartsWithRoute(path, first, second) && (deposit.NativeToken? || first == Native)
      ensures GenerateRouteMsg(path, deposit, tax, amount).Ok?
    {
      RouteIsAccepted(path, deposit, tax, amount, first, second);
    }
  }

  // Each leg takes in what the one before it gives out, starting and ending with the deposit asset.
  predicate ClosedCycle(operations: seq<SwapOperation>, deposit: AssetInfo) {
    && |operations| == 2
    && Source(operations[0]) == deposit
    && Target(operations[0]) == ULUNA == Source(operations[1])
    && Target(operations[1]) == deposit
  }

  // Every route message is a closed cycle that must return what it offers, as long as the deposit
  // asset is native; a CW20 deposit asset never makes one, since only native_swap takes it untaxed
  // and that names it as a denomination.
  lemma RouteIsClosedCycle(path: string, deposit: AssetInfo, tax: TaxPolicy, amount: nat)
    requires GenerateRouteMsg(path, deposit, tax, amount).Ok?
    ensures var msg := GenerateRouteMsg(path, deposit, tax, amount).value;
            && (ClosedCycle(msg.operations, deposit) <==> deposit.NativeToken?)
            && msg.coin <= msg.minimumReceive == amount
  {}

  // An operation of the exchange `d`, written `name` in a path.
  predicate IsLeg(op: SwapOperation, d: Dex, name: string, offer: AssetInfo, ask: AssetInfo) {
    match d
    case Native => name == "native_swap" && op == NativeSwapOp(offer.ToString(), ask.ToString())
    case Terraswap => name == "terra_swap" && op == TerraSwapOp(offer, ask)
    case Astroport => name == "astroport" && op == AstroportOp(offer, ask)
    case Loop => name == "loop" && op == LoopOp(offer, ask)
  }

  lemma OperationIsLeg(d: Dex, offer: AssetInfo, ask: AssetInfo)
    ensures Operation(Name(d), offer, ask).Ok?
    ensures IsLeg(Operation(Name(d), offer, ask).value, d, Name(d), offer, ask)
  {}

  // A route is carried out on the exchanges it names, in that order: from the deposit asset to uluna
  // on the first one, and back on the second.
  lemma RouteUsesNamedExchanges(path: string, deposit: AssetInfo, tax: TaxPolicy, amount: nat, first: Dex, second: Dex)
    requires GenerateRouteMsg(path, deposit, tax, amount).Ok? && StartsWithRoute(path, first, second)
    ensures |Split(path)| >= 2
    ensures var msg := GenerateRouteMsg(path, deposit, tax, amount).value;
            && |msg.operations| == 2
            && IsLeg(msg.operations[0], first, Split(path)[0], deposit, NativeToken("uluna"))
            && IsLeg(msg.operations[1], second, Split(path)[1], NativeToken("uluna"), deposit)
            && msg.denom == deposit.ToString() && msg.minimumReceive == amount
  {
    RouteSplits(path, first, second);
    OperationIsLeg(first, deposit, ULUNA);
    OperationIsLeg(second, ULUNA, deposit);
  }

  // A native_swap is sent the whole amount. Any other first leg is sent the greatest coin that fits
  // in it together with the tax on it, rounded up.
  lemma CoinIsGreatest(path: string, denom: string, tax: TaxPolicy, amount: nat, n: nat)
    requires GenerateRouteMsg(path, NativeToken(denom), tax, amount).Ok?
    ensures var coin := GenerateRouteMsg(path, NativeToken(denom), tax, amount).value.coin;
            if Split(path)[0] == "native_swap" then coin == amount
            else n <= coin <==> n + Levy(NativeToken(denom), tax.(roundUp := true), n) <= amount
  {
    DeductTaxIsGreatest(NativeToken(denom), tax.(roundUp := true), amount, n);
  }
}
