// contracts/starflet: the registry of planets. A planet is admitted only after a trial bond and
// unbond, run through two replies, has returned what was put in.

module RegistryWorld {
  import opened Wrappers
  import opened Assets
  import opened Paging

  const VALIDATION_AMOUNT: nat := 1_000_000
  const DECIMAL_DIFF: nat := 10
  const MAX_TITLE: nat := 80
  const MAX_DESCRIPTION: nat := 200

  datatype TmpAddPlanet = TmpAddPlanet(planetAddr: Addr, vaultsAddr: Addr, asset: AssetInfo, balance: nat)

  datatype Registry = Registry(admin: Addr, planets: Planets, tmp: Option<TmpAddPlanet>)

  // What the chain answers while a planet is added: the planet's vault token and asset, starflet's
  // balance of the asset before the trial, the vault tokens it holds after the bond, its balance of
  // the asset after the unbond, and the tax. None is a failed query or call.
  datatype Trial = Trial(
    config: Option<(Addr, AssetInfo)>, start: nat, bonded: Option<nat>, end: Option<nat>, tax: TaxPolicy)

  datatype Call =
    | AddPlanet(sender: Addr, contract: Addr, title: string, description: string, trial: Trial)
    | EditPlanet(sender: Addr, contract: Addr, newTitle: Option<string>, newDescription: Option<string>)
    | RemovePlanet(sender: Addr, contract: Addr)
    | UpdateAdmin(sender: Addr, admin: Option<Addr>)

  // store_planet
  function Store(planets: Planets, info: PlanetInfo): Result<Planets> {
    if |info.title| > MAX_TITLE || |info.description| > MAX_DESCRIPTION then Err(TextTooLong)
    else Ok(planets[info.contractAddr := info])
  }

  // The verdict of the second reply.
  function Verdict(asset: AssetInfo, tax: TaxPolicy, start: nat, end: nat): Result<()> {
    var taxes := ComputeTax(asset, tax, VALIDATION_AMOUNT) * 2;
    if start < taxes || start - taxes < end then Err(Underflow)
    else if start - taxes - end > DECIMAL_DIFF then Err(FailBondAndUnbond)
    else Ok(())
  }

  function Step(r: Registry, call: Call): Result<Registry> {
    if call.sender != r.admin then Err(Unauthorized) else
    match call
    case AddPlanet(_, contract, title, description, trial) =>
      var planets :- Store(r.planets, PlanetInfo(contract, title, description));
      if trial.config.None? || trial.bonded.None? then Err(CallFailed) else
      if trial.bonded.value == 0 then Err(FailBond) else
      if trial.end.None? then Err(CallFailed) else
      var _ :- Verdict(trial.config.value.1, trial.tax, trial.start, trial.end.value);
      Ok(r.(planets := planets, tmp := None))
    case EditPlanet(_, contract, title, description) =>
      if contract !in r.planets then Err(NotFound) else
      var planets :- Store(r.planets, Edited(r.planets[contract], title, description));
      Ok(r.(planets := planets))
    case RemovePlanet(_, contract) =>
      if contract !in r.planets then Err(NotFound) else
      Ok(r.(planets := r.planets - {contract}))
    case UpdateAdmin(_, admin) =>
      Ok(r.(admin := if admin.Some? then admin.value else r.admin))
  }

  function Edited(info: PlanetInfo, title: Option<string>, description: Option<string>): PlanetInfo {
    info.(title := if title.Some? then title.value else info.title,
          description := if description.Some? then description.value else info.description)
  }

  function Next(r: Registry, call: Call): Registry {
    var next := Step(r, call);
    if next.Ok? then next.value else r
  }

  function Run(r: Registry, calls: seq<Call>): Registry {
    if calls == [] then r else Next(Run(r, calls[..|calls| - 1]), calls[|calls| - 1])
  }

  function Genesis(admin: Addr): Registry {
    Registry(admin, map[], None)
  }

  // ---- admission

  // An AddPlanet of the admin commits exactly when the texts are short enough, the planet could be
  // queried, the trial bond gave it some vault tokens, and the balance after the trial lies within
  // ten units below the balance before it less twice the tax on the trial amount; then the planet
  // is registered and nothing else has changed.
  lemma AddPlanetExactlyWhen(r: Registry, contract: Addr, title: string, description: string, trial: Trial)
    ensures var added := Step(r, AddPlanet(r.admin, contract, title, description, trial));
            && (added.Ok? <==>
                && |title| <= 80 && |description| <= 200
                && trial.config.Some? && trial.bonded.Some? && trial.bonded.value > 0 && trial.end.Some?
                && var low: int := trial.start - 2 * ComputeTax(trial.config.value.1, trial.tax, 1_000_000);
                   low - 10 <= trial.end.value <= low)
            && (added.Ok? ==>
                  && added.value.planets == r.planets[contract := PlanetInfo(contract, title, description)]
                  && added.value.admin == r.admin && added.value.tmp == None)
  {}

  // No tax is reckoned with for a CW20 asset, nor for uluna.
  lemma UntaxedAssetIsAddedExactlyWhen(r: Registry, contract: Addr, title: string, description: string, trial: Trial)
    requires trial.config.Some? && trial.bonded.Some? && trial.end.Some?
    requires trial.config.value.1.Token? || trial.config.value.1 == NativeToken("uluna")
    ensures Step(r, AddPlanet(r.admin, contract, title, description, trial)).Ok? <==>
            && |title| <= 80 && |description| <= 200 && trial.bonded.value > 0
            && trial.end.value <= trial.start <= trial.end.value + 10
  {}

  // ---- the other calls

  // Nobody but the admin can call any of them.
  lemma OnlyTheAdmin(r: Registry, call: Call)
    requires call.sender != r.admin
    ensures Step(r, call) == Err(Unauthorized) && Next(r, call) == r
  {}

  // A removal commits exactly when the planet is stored. It is not stored or listed any more then, and
  // everything else is as it was.
  lemma RemovePlanetExactlyWhen(r: Registry, contract: Addr)
    requires KeysMatch(r.planets)
    ensures var removed := Step(r, RemovePlanet(r.admin, contract));
            && (removed.Ok? <==> contract in r.planets)
            && (removed.Ok? ==>
                  var r' := removed.value;
                  && contract !in r'.planets
                  && (forall info :: info in Listing(r'.planets) <==>
                        info in Listing(r.planets) && info.contractAddr != contract)
                  && (forall other :: other != contract ==>
                        (other in r'.planets <==> other in r.planets) &&
                        (other in r.planets ==> r'.planets[other] == r.planets[other]))
                  && r'.admin == r.admin && r'.tmp == r.tmp)
  {
    var removed := Step(r, RemovePlanet(r.admin, contract));
    ListingIsRegistry(r.planets);
    if removed.Ok? {
      ListingIsRegistry(removed.value.planets);
    }
  }

  // An edit commits exactly when the planet is stored and its texts fit afterwards. What is given is
  // the new text, what is not given stays, and nothing else changes.
  lemma EditPlanetExactlyWhen(r: Registry, contract: Addr, title: Option<string>, description: Option<string>)
    requires KeysMatch(r.planets)
    ensures var edited := Step(r, EditPlanet(r.admin, contract, title, description));
            && (edited.Ok? <==>
                && contract in r.planets
                && (match title case Some(t) => |t| <= 80 case None => |r.planets[contract].title| <= 80)
                && (match description
                    case Some(d) => |d| <= 200 case None => |r.planets[contract].description| <= 200))
            && (edited.Ok? ==>
                  var r' := edited.value;
                  && r'.planets.Keys == r.planets.Keys
                  && (forall other :: other in r.planets && other != contract ==>
                        r'.planets[other] == r.planets[other])
                  && r'.planets[contract].contractAddr == contract
                  && (match title
                      case Some(t) => r'.planets[contract].title == t
                      case None => r'.planets[contract].title == r.planets[contract].title)
                  && (match description
                      case Some(d) => r'.planets[contract].description == d
                      case None => r'.planets[contract].description == r.planets[contract].description)
                  && r'.admin == r.admin && r'.tmp == r.tmp)
  {}

  // After an update the new admin, if one is given, can call and the old one cannot.
  lemma UpdateAdminTakesEffect(r: Registry, admin: Option<Addr>)
    ensures var updated := Step(r, UpdateAdmin(r.admin, admin));
            && updated.Ok? && updated.value == r.(admin := updated.value.admin)
            && (admin == None ==> updated.value == r)
            && (admin.Some? ==>
                  && Step(updated.value, UpdateAdmin(admin.value, None)).Ok?
                  && (admin.value != r.admin ==> forall call: Call :: call.sender == r.admin ==>
                        Step(updated.value, call).Err?))
  {}

  // A planet that is not stored stays so over any run without a committed AddPlanet of it.
  lemma {:induction false} UnlistedStaysUnlisted(r: Registry, calls: seq<Call>, contract: Addr)
    requires KeysMatch(r.planets) && contract !in r.planets
    requires forall i :: 0 <= i < |calls| && calls[i].AddPlanet? && calls[i].contract == contract ==>
               Step(Run(r, calls[..i]), calls[i]).Err?
    ensures KeysMatch(Run(r, calls).planets) && contract !in Run(r, calls).planets
  {
    if calls != [] {
      var shorter, call := calls[..|calls| - 1], calls[|calls| - 1];
      forall i | 0 <= i < |shorter|
        ensures shorter[..i] == calls[..i]
      {}
      UnlistedStaysUnlisted(r, shorter, contract);
      StepKeepsUnlisted(Run(r, shorter), call, contract);
    }
  }

  lemma StepKeepsUnlisted(r: Registry, call: Call, contract: Addr)
    requires KeysMatch(r.planets) && contract !in r.planets
    requires call.AddPlanet? && call.contract == contract ==> Step(r, call).Err?
    ensures KeysMatch(Next(r, call).planets) && contract !in Next(r, call).planets
  {}

  // So once removed, a planet is not listed before it has been tried again.
  lemma RemovedStaysUnlisted(r: Registry, calls: seq<Call>, contract: Addr)
    requires KeysMatch(r.planets) && contract in r.planets
    requires var r1 := Next(r, RemovePlanet(r.admin, contract));
             forall i :: 0 <= i < |calls| && calls[i].AddPlanet? && calls[i].contract == contract ==>
               Step(Run(r1, calls[..i]), calls[i]).Err?
    ensures var r' := Run(Next(r, RemovePlanet(r.admin, contract)), calls);
            contract !in r'.planets && forall info :: info in Listing(r'.planets) ==> info.contractAddr != contract
  {
    var r1 := Next(r, RemovePlanet(r.admin, contract));
    RemovePlanetExactlyWhen(r, contract);
    UnlistedStaysUnlisted(r1, calls, contract);
    ListingIsRegistry(Run(r1, calls).planets);
  }

  // ---- what every run keeps

  ghost predicate Tidy(r: Registry) {
    && KeysMatch(r.planets)
    && r.tmp == None
    && forall key :: key in r.planets ==>
         |r.planets[key].title| <= 80 && |r.planets[key].description| <= 200
  }

  lemma {:induction false} RunIsTidy(r: Registry, calls: seq<Call>)
    requires Tidy(r)
    ensures Tidy(Run(r, calls))
  {
    if calls != [] {
      RunIsTidy(r, calls[..|calls| - 1]);
    }
  }

  // Whatever the admin adds, edits and removes, paging through the registry afterwards yields
  // exactly what is stored, and no trial is left open.
  lemma ReachableRegistryPages(admin: Addr, calls: seq<Call>, limit: Option<nat>)
    requires limit != Some(0)
    ensures var r := Run(Genesis(admin), calls);
            && Tidy(r)
            && Concat(Follow(r.planets, None, limit, 0)) == Listing(r.planets)
  {
    RunIsTidy(Genesis(admin), calls);
    PagingIsComplete(Run(Genesis(admin), calls).planets, limit);
  }

  // An AddPlanet of this contract with a trial that ends within the tolerance.
  ghost predicate Admits(call: Call, contract: Addr) {
    && call.AddPlanet? && call.contract == contract
    && call.trial.config.Some? && call.trial.bonded.Some? && call.trial.bonded.value > 0 && call.trial.end.Some?
    && var low: int := call.trial.start - 2 * ComputeTax(call.trial.config.value.1, call.trial.tax, 1_000_000);
       low - 10 <= call.trial.end.value <= low
  }

  // Call number i of the run is one, it commits, and the planet stays listed after all calls from
  // then on.
  ghost predicate AdmittedAt(r: Registry, calls: seq<Call>, contract: Addr, i: nat) {
    && i < |calls|
    && Admits(calls[i], contract) && Step(Run(r, calls[..i]), calls[i]).Ok?
    && forall j :: i < j <= |calls| ==> contract in Run(r, calls[..j]).planets
  }

  // A call lists no planet but one that it admits itself.
  lemma NewlyListed(r: Registry, call: Call, contract: Addr)
    requires KeysMatch(r.planets) && contract !in r.planets && contract in Next(r, call).planets
    ensures Admits(call, contract) && Step(r, call).Ok?
  {}

  lemma AdmittedStill(r: Registry, calls: seq<Call>, call: Call, contract: Addr, i: nat)
    requires AdmittedAt(r, calls, contract, i) && contract in Run(r, calls + [call]).planets
    ensures AdmittedAt(r, calls + [call], contract, i)
  {
    var more := calls + [call];
    forall j | 0 <= j <= |calls|
      ensures more[..j] == calls[..j]
    {}
    assert more[..|more|] == more;
  }

  lemma AdmittedNow(r: Registry, calls: seq<Call>, call: Call, contract: Addr)
    requires Admits(call, contract) && Step(Run(r, calls), call).Ok?
    requires contract in Run(r, calls + [call]).planets
    ensures AdmittedAt(r, calls + [call], contract, |calls|)
  {
    var more := calls + [call];
    assert more[..|calls|] == calls && more[..|more|] == more;
  }

  // Every planet that is ever listed was admitted, by a committed AddPlanet with a successful trial,
  // and has been listed ever since.
  lemma {:induction false} EveryListedPlanetPassed(admin: Addr, calls: seq<Call>, contract: Addr)
    requires contract in Run(Genesis(admin), calls).planets
    ensures exists i :: AdmittedAt(Genesis(admin), calls, contract, i)
  {
    if calls != [] {
      var r, shorter, call := Genesis(admin), calls[..|calls| - 1], calls[|calls| - 1];
      assert shorter + [call] == calls;
      RunIsTidy(r, shorter);
      if contract in Run(r, shorter).planets {
        EveryListedPlanetPassed(admin, shorter, contract);
        var i :| AdmittedAt(r, shorter, contract, i);
        AdmittedStill(r, shorter, call, contract, i);
      } else {
        NewlyListed(Run(r, shorter), call, contract);
        AdmittedNow(r, shorter, call, contract);
      }
    }
  }
}

module RegistryContract {
  import opened Wrappers
  import opened Assets
  import opened Paging
  import opened RegistryWorld

  class Starflet {
    var admin: Addr
    var planets: Planets
    var tmp: Option<TmpAddPlanet>

    ghost function View(): Registry
      reads this
    {
      Registry(admin, planets, tmp)
    }

    constructor (admin: Addr)
      ensures View() == Genesis(admin)
    {
      this.admin, planets, tmp := admin, map[], None;
    }

    method StorePlanet(info: PlanetInfo) returns (r: Result<()>)
      modifies this`planets
      ensures match Store(old(planets), info)
              case Ok(stored) => r == Ok(()) && planets == stored
              case Err(e) => r == Err(e) && planets == old(planets)
    {
      if |info.title| > MAX_TITLE { return Err(TextTooLong); }
      if |info.description| > MAX_DESCRIPTION { return Err(TextTooLong); }
      planets := planets[info.contractAddr := info];
      return Ok(());
    }

    // The planet is stored before it is tried; a failed trial is undone by the roll-back.
    method TryAddPlanet(sender: Addr, contract: Addr, title: string, description: string,
                        config: Option<(Addr, AssetInfo)>, balance: nat) returns (r: Result<()>)
      modifies this`planets, this`tmp
      ensures r.Ok? <==> sender == admin && config.Some? &&
                         |title| <= MAX_TITLE && |description| <= MAX_DESCRIPTION
      ensures r.Ok? ==>
                && planets == old(planets)[contract := PlanetInfo(contract, title, description)]
                && tmp == Some(TmpAddPlanet(contract, config.value.0, config.value.1, balance))
    {
      if sender != admin { return Err(Unauthorized); }
      var _ :- StorePlanet(PlanetInfo(contract, title, description));
      if config.None? { return Err(CallFailed); }
      tmp := Some(TmpAddPlanet(contract, config.value.0, config.value.1, balance));
      return Ok(());
    }

    // MSG_REPLY_ID_BOND: all vault tokens that starflet holds are sent to be unbonded.
    method ReplyBond(holding: nat) returns (r: Result<nat>)
      ensures r == if tmp.None? then Err(NotFound) else if holding == 0 then Err(FailBond) else Ok(holding)
    {
      if tmp.None? { return Err(NotFound); }
      if holding <= 0 { return Err(FailBond); }
      return Ok(holding);
    }

    // MSG_REPLY_ID_UNBOND
    method ReplyUnbond(balance: nat, tax: TaxPolicy) returns (r: Result<()>)
      modifies this`tmp
      ensures old(tmp).None? ==> r == Err(NotFound)
      ensures old(tmp).Some? ==> r == Verdict(old(tmp).value.asset, tax, old(tmp).value.balance, balance)
      ensures tmp == if r.Ok? then None else old(tmp)
    {
      if tmp.None? { return Err(NotFound); }
      var taxes := ComputeTax(tmp.value.asset, tax, VALIDATION_AMOUNT) * 2;
      if tmp.value.balance < taxes { return Err(Underflow); }
      var base := tmp.value.balance - taxes;
      if base < balance { return Err(Underflow); }
      if base - balance > DECIMAL_DIFF { return Err(FailBondAndUnbond); }
      tmp := None;
      return Ok(());
    }

    method TryEditPlanet(sender: Addr, contract: Addr, title: Option<string>, description: Option<string>)
      returns (r: Result<()>)
      modifies this`planets
      ensures match Step(old(View()), EditPlanet(sender, contract, title, description))
              case Ok(w) => r == Ok(()) && View() == w
              case Err(e) => r == Err(e) && View() == old(View())
    {
      if sender != admin { return Err(Unauthorized); }
      if contract !in planets { return Err(NotFound); }
      var info := planets[contract];
      if title.Some? { info := info.(title := title.value); }
      if description.Some? { info := info.(description := description.value); }
      r := StorePlanet(info);
    }

    method TryRemovePlanet(sender: Addr, contract: Addr) returns (r: Result<()>)
      modifies this`planets
      ensures match Step(old(View()), RemovePlanet(sender, contract))
              case Ok(w) => r == Ok(()) && View() == w
              case Err(e) => r == Err(e) && View() == old(View())
    {
      if sender != admin { return Err(Unauthorized); }
      if contract !in planets { return Err(NotFound); }
      planets := planets - {contract};
      return Ok(());
    }

    method TryUpdateConfig(sender: Addr, newAdmin: Option<Addr>) returns (r: Result<()>)
      modifies this`admin
      ensures r == if sender == old(admin) then Ok(()) else Err(Unauthorized)
      ensures admin == if r.Ok? && newAdmin.Some? then newAdmin.value else old(admin)
    {
      if sender != admin { return Err(Unauthorized); }
      if newAdmin.Some? { admin := newAdmin.value; }
      return Ok(());
    }

    // Three handlers make one AddPlanet call; between them the chain runs the trial.
    method AddAndTry(sender: Addr, contract: Addr, title: string, description: string, trial: Trial)
      returns (r: Result<()>)
      modifies this`planets, this`tmp
      ensures match Step(old(View()), AddPlanet(sender, contract, title, description, trial))
              case Ok(w) => r == Ok(()) && View() == w
              case Err(_) => r.Err?
    {
      var _ :- TryAddPlanet(sender, contract, title, description, trial.config, trial.start);
      if trial.bonded.None? { return Err(CallFailed); }
      var _ :- ReplyBond(trial.bonded.value);
      if trial.end.None? { return Err(CallFailed); }
      var _ :- ReplyUnbond(trial.end.value, trial.tax);
      return Ok(());
    }

    // One call, committed in full or rolled back.
    method Deliver(call: Call) returns (r: Result<()>)
      modifies this
      ensures match Step(old(View()), call)
              case Ok(w) => r == Ok(()) && View() == w
              case Err(_) => r.Err? && View() == old(View())
    {
      match call
      case AddPlanet(sender, contract, title, description, trial) =>
        var stored, open := planets, tmp;
        r := AddAndTry(sender, contract, title, description, trial);
        if r.Err? { planets, tmp := stored, open; }
      case EditPlanet(sender, contract, title, description) =>
        r := TryEditPlanet(sender, contract, title, description);
      case RemovePlanet(sender, contract) => r := TryRemovePlanet(sender, contract);
      case UpdateAdmin(sender, newAdmin) => r := TryUpdateConfig(sender, newAdmin);
    }
  }
}
