/** The contract registry of `Crvusd`: a map from address to a pair of handles, a
    direct ethers contract and a batchable ethcall contract. Handles are opaque
    values that record the address, the interface description and, for the direct
    handle, what it sends its calls through. */
module Registry {
  import opened Wrappers
  import opened Providers

  /** An interface description (ABI), opaque here. */
  datatype Abi = Abi(name: string)

  const ERC20Abi: Abi := Abi("ERC20")
  const LlammaAbi: Abi := Abi("llamma")
  const ControllerAbi: Abi := Abi("controller")

  /** What a direct contract sends its calls through: `signer || provider`. */
  datatype Runner = SignerRunner(signer: Signer) | ProviderRunner(provider: ProviderHandle) | NoRunner

  function RunnerFor(signer: Option<Signer>, provider: Option<ProviderHandle>): Runner {
    if signer.Some? then SignerRunner(signer.value)
    else if provider.Some? then ProviderRunner(provider.value)
    else NoRunner
  }

  datatype DirectContract = DirectContract(address: string, abi: Abi, runner: Runner)

  datatype MulticallContract = MulticallContract(address: string, abi: Abi)

  datatype Entry = Entry(contract: DirectContract, multicallContract: MulticallContract)

  type Contracts = map<string, Entry>

  /** The entry `setContract` builds for an address. */
  function MakeEntry(address: string, abi: Abi, runner: Runner): Entry {
    Entry(DirectContract(address, abi, runner), MulticallContract(address, abi))
  }

  /** Every entry's two handles are built for its own key, with one interface
      description, and the direct one runs through `runner`. */
  ghost predicate WellFormed(contracts: Contracts, runner: Runner) {
    forall a :: a in contracts ==> contracts[a] == MakeEntry(a, contracts[a].contract.abi, runner)
  }

  /** `contracts[address] = ...`: the key is taken as given, not lower-cased. */
  function Register(contracts: Contracts, address: string, abi: Abi, runner: Runner): (r: Contracts)
    ensures r.Keys == contracts.Keys + {address}
    ensures r[address].contract == DirectContract(address, abi, runner)
    ensures r[address].multicallContract == MulticallContract(address, abi)
    ensures forall a :: a in contracts && a != address ==> r[a] == contracts[a]
  {
    contracts[address := MakeEntry(address, abi, runner)]
  }

  /** Registering keeps every entry built for its own key and run through `runner`. */
  lemma RegisterKeepsWellFormed(contracts: Contracts, address: string, abi: Abi, runner: Runner)
    requires WellFormed(contracts, runner)
    ensures WellFormed(Register(contracts, address, abi, runner), runner)
  {
    var r := Register(contracts, address, abi, runner);
    forall a | a in r ensures r[a] == MakeEntry(a, r[a].contract.abi, runner) {
      if a != address {
        assert r[a] == contracts[a];
      }
    }
  }

  /** Assignment overwrites: registering an address twice keeps only the second entry. */
  lemma RegisterOverwrites(contracts: Contracts, address: string, abi1: Abi, runner1: Runner,
                           abi2: Abi, runner2: Runner)
    ensures Register(Register(contracts, address, abi1, runner1), address, abi2, runner2)
            == Register(contracts, address, abi2, runner2)
  {
  }

  /** The addresses of one market: `ILlamma`'s amm, controller and collateral. */
  datatype Llamma = Llamma(ammAddress: string, controllerAddress: string, collateralAddress: string)

  predicate OfMarket(address: string, llamma: Llamma) {
    address == llamma.ammAddress || address == llamma.controllerAddress || address == llamma.collateralAddress
  }

  /** The address appears in some market of `llammas`. */
  predicate InMarkets(address: string, llammas: seq<Llamma>) {
    exists i :: 0 <= i < |llammas| && OfMarket(address, llammas[i])
  }

  /** One iteration of the registry loop of init. */
  function RegisterMarket(contracts: Contracts, runner: Runner, llamma: Llamma): Contracts {
    var withAmm := Register(contracts, llamma.ammAddress, LlammaAbi, runner);
    var withController := Register(withAmm, llamma.controllerAddress, ControllerAbi, runner);
    Register(withController, llamma.collateralAddress, ERC20Abi, runner)
  }

  /** The registry loop of init over `llammas`, in order. */
  function RegisterAll(contracts: Contracts, runner: Runner, llammas: seq<Llamma>): Contracts
    decreases |llammas|
  {
    if llammas == [] then contracts
    else RegisterMarket(RegisterAll(contracts, runner, llammas[..|llammas| - 1]), runner, llammas[|llammas| - 1])
  }

  /** The addresses of a non-empty list of markets are those of all but its last market
      and those of its last market. */
  lemma InMarketsSnoc(address: string, llammas: seq<Llamma>)
    requires llammas != []
    ensures InMarkets(address, llammas) <==>
      InMarkets(address, llammas[..|llammas| - 1]) || OfMarket(address, llammas[|llammas| - 1])
  {
    var n := |llammas| - 1;
    var front := llammas[..n];
    if InMarkets(address, llammas) {
      var i :| 0 <= i < |llammas| && OfMarket(address, llammas[i]);
      if i < n { assert front[i] == llammas[i]; }
    }
    if InMarkets(address, front) {
      var i :| 0 <= i < |front| && OfMarket(address, front[i]);
      assert llammas[i] == front[i];
    }
  }

  /** One market adds its three addresses to the keys and leaves the other entries alone. */
  lemma RegisterMarketFrame(contracts: Contracts, runner: Runner, llamma: Llamma)
    ensures var r := RegisterMarket(contracts, runner, llamma);
      && (forall a :: a in r <==> a in contracts || OfMarket(a, llamma))
      && (forall a :: a in contracts && !OfMarket(a, llamma) ==> r[a] == contracts[a])
      && (WellFormed(contracts, runner) ==> WellFormed(r, runner))
  {
    var withAmm := Register(contracts, llamma.ammAddress, LlammaAbi, runner);
    var withController := Register(withAmm, llamma.controllerAddress, ControllerAbi, runner);
    if WellFormed(contracts, runner) {
      RegisterKeepsWellFormed(contracts, llamma.ammAddress, LlammaAbi, runner);
      RegisterKeepsWellFormed(withAmm, llamma.controllerAddress, ControllerAbi, runner);
      RegisterKeepsWellFormed(withController, llamma.collateralAddress, ERC20Abi, runner);
    }
  }

  /** Running the loop over one more market registers that market after the others. */
  lemma RegisterAllStep(contracts: Contracts, runner: Runner, llammas: seq<Llamma>, i: nat)
    requires i < |llammas|
    ensures RegisterAll(contracts, runner, llammas[..i + 1])
            == RegisterMarket(RegisterAll(contracts, runner, llammas[..i]), runner, llammas[i])
  {
    assert llammas[..i + 1][..i] == llammas[..i];
  }

  /** After the loop the keys are exactly the keys before it and every market address. */
  lemma {:induction false} RegisterAllKeys(contracts: Contracts, runner: Runner, llammas: seq<Llamma>)
    ensures forall a :: a in RegisterAll(contracts, runner, llammas) <==> a in contracts || InMarkets(a, llammas)
    decreases |llammas|
  {
    if llammas != [] {
      var n := |llammas| - 1;
      var before := RegisterAll(contracts, runner, llammas[..n]);
      RegisterAllKeys(contracts, runner, llammas[..n]);
      RegisterMarketFrame(before, runner, llammas[n]);
      forall a ensures InMarkets(a, llammas) <==> InMarkets(a, llammas[..n]) || OfMarket(a, llammas[n]) {
        InMarketsSnoc(a, llammas);
      }
    }
  }

  /** The loop keeps every entry well formed and leaves entries at other addresses alone. */
  lemma {:induction false} RegisterAllEntries(contracts: Contracts, runner: Runner, llammas: seq<Llamma>)
    ensures WellFormed(contracts, runner) ==> WellFormed(RegisterAll(contracts, runner, llammas), runner)
    ensures forall a :: a in contracts && !InMarkets(a, llammas) ==>
      a in RegisterAll(contracts, runner, llammas) && RegisterAll(contracts, runner, llammas)[a] == contracts[a]
    decreases |llammas|
  {
    if llammas != [] {
      var n := |llammas| - 1;
      var before := RegisterAll(contracts, runner, llammas[..n]);
      RegisterAllEntries(contracts, runner, llammas[..n]);
      RegisterMarketFrame(before, runner, llammas[n]);
      forall a | a in contracts && !InMarkets(a, llammas)
        ensures !InMarkets(a, llammas[..n]) && !OfMarket(a, llammas[n])
      {
        InMarketsSnoc(a, llammas);
      }
    }
  }

  /** The interface the registry loop leaves at `address`, found by scanning the markets
      from the last one back; within a market the collateral is written last, then the
      controller, then the amm. None when no market names the address. */
  function LastAbi(address: string, llammas: seq<Llamma>): Option<Abi>
    decreases |llammas|
  {
    if llammas == [] then None
    else
      var last := llammas[|llammas| - 1];
      if address == last.collateralAddress then Some(ERC20Abi)
      else if address == last.controllerAddress then Some(ControllerAbi)
      else if address == last.ammAddress then Some(LlammaAbi)
      else LastAbi(address, llammas[..|llammas| - 1])
  }

  /** The scan finds an interface exactly for the addresses some market names. */
  lemma {:induction false} LastAbiFound(address: string, llammas: seq<Llamma>)
    ensures LastAbi(address, llammas).Some? <==> InMarkets(address, llammas)
    decreases |llammas|
  {
    if llammas != [] {
      LastAbiFound(address, llammas[..|llammas| - 1]);
      InMarketsSnoc(address, llammas);
    }
  }

  /** Every address the loop registers for a market holds the interface of the last
      registration at that address: an amm's llamma interface, a controller's controller
      interface, a collateral's ERC20 interface, later writes winning. */
  lemma {:induction false} RegisterAllAbi(contracts: Contracts, runner: Runner, llammas: seq<Llamma>)
    ensures forall a :: LastAbi(a, llammas).Some? ==>
      a in RegisterAll(contracts, runner, llammas)
      && RegisterAll(contracts, runner, llammas)[a].contract.abi == LastAbi(a, llammas).value
    decreases |llammas|
  {
    if llammas != [] {
      var n := |llammas| - 1;
      var before := RegisterAll(contracts, runner, llammas[..n]);
      var after := RegisterAll(contracts, runner, llammas);
      RegisterAllAbi(contracts, runner, llammas[..n]);
      RegisterMarketFrame(before, runner, llammas[n]);
      forall a | LastAbi(a, llammas).Some?
        ensures a in after && after[a].contract.abi == LastAbi(a, llammas).value
      {
        if !OfMarket(a, llammas[n]) {
          assert LastAbi(a, llammas) == LastAbi(a, llammas[..n]);
        }
      }
    }
  }

  /** The last market to name an address decides its entry: its collateral is an ERC20. */
  lemma LastMarketWins(contracts: Contracts, runner: Runner, llammas: seq<Llamma>)
    requires llammas != []
    ensures var last := llammas[|llammas| - 1];
      RegisterAll(contracts, runner, llammas)[last.collateralAddress]
        == MakeEntry(last.collateralAddress, ERC20Abi, runner)
  {
  }
}
