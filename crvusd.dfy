/** The `Crvusd` client: its state, `init`, `setContract`, `setCustomFeeData` and
    `updateFeeData`. Network answers are parameters; foreign library objects are the
    opaque handles of the Providers and Registry modules. */
module Client {
  import opened Wrappers
  import opened Providers
  import opened FeeStrategy
  import opened Registry

  /** Why init or a fee update fails: an unknown provider kind, no provider to ask (the
      source's `this.provider` is null and the call throws a TypeError), or a failing
      network call. */
  datatype ClientError = WrongProviderType | NoProvider | NetworkFailure(cause: NetworkError)

  /** The ethcall multicall provider: built empty, then initialised against a provider. */
  datatype MulticallProvider = MulticallProvider(provider: Option<ProviderHandle>)

  /** The `constants` field: LLAMMAS, COINS and DECIMALS. */
  datatype Constants = Constants(llammas: seq<Llamma>, coins: map<string, string>, decimals: map<string, int>)

  /** The static configuration the client is built with: the markets (LLAMMAS, in the
      order `Object.values` gives them), COINS, and `extractDecimals`, which init applies
      to whatever markets `constants` holds at that moment (a caller may have reassigned
      the public `constants` field). */
  datatype StaticConfig = StaticConfig(
    llammas: seq<Llamma>,
    coins: map<string, string>,
    extractDecimals: seq<Llamma> -> map<string, int>)

  /** What the chosen backend answers during init, in the order init asks: the multicall
      provider's initialisation, the signer's `getAddress`, `getFeeData`, `getGasPrice`. */
  datatype BackendAnswers = BackendAnswers(
    multicallInit: Outcome<NetworkError>,
    signerAddress: Result<string, NetworkError>,
    feeData: Result<NetworkFees, NetworkError>,
    gasPrice: Result<int, NetworkError>)

  /** The stablecoin token's address as the source spells it. */
  const TokenAddressAsWritten: string := "0x3194cBDC3dbcd3E11a07892e7bA5c3394048Cc87"

  const TokenDecimals: int := 18

  /** The registry init builds: the token, then every market's three contracts. */
  function InitialRegistry(token: string, runner: Runner, llammas: seq<Llamma>): Contracts {
    RegisterAll(Register(map[], token, ERC20Abi, runner), runner, llammas)
  }

  /** The registry init builds holds exactly the token and every market address, each
      entry built for its own key and run through the client's signer or provider; the
      token keeps its ERC20 entry unless a market reuses its address, and a market address
      holds the interface of its last registration. */
  lemma InitialRegistryExact(token: string, runner: Runner, llammas: seq<Llamma>)
    ensures forall a :: a in InitialRegistry(token, runner, llammas) <==> a == token || InMarkets(a, llammas)
    ensures WellFormed(InitialRegistry(token, runner, llammas), runner)
    ensures !InMarkets(token, llammas) ==>
      InitialRegistry(token, runner, llammas)[token] == MakeEntry(token, ERC20Abi, runner)
    ensures forall a :: InMarkets(a, llammas) ==>
      && LastAbi(a, llammas).Some?
      && InitialRegistry(token, runner, llammas)[a] == MakeEntry(a, LastAbi(a, llammas).value, runner)
  {
    var seeded := Register(map[], token, ERC20Abi, runner);
    RegisterAllKeys(seeded, runner, llammas);
    RegisterAllEntries(seeded, runner, llammas);
    RegisterAllAbi(seeded, runner, llammas);
    forall a | InMarkets(a, llammas) ensures LastAbi(a, llammas).Some? {
      LastAbiFound(a, llammas);
    }
  }

  class Crvusd {
    const address: string
    const config: StaticConfig
    var provider: Option<ProviderHandle>
    var multicallProvider: Option<MulticallProvider>
    var signer: Option<Signer>
    var signerAddress: string
    var chainId: int
    var contracts: Contracts
    var feeData: FeeOverride
    var options: TxOptions
    var constants: Constants

    constructor (config: StaticConfig)
      ensures address == Lower(TokenAddressAsWritten) && this.config == config
      ensures provider == None && multicallProvider == None
      ensures signer == None && signerAddress == "" && chainId == 0
      ensures contracts == map[] && feeData == NoOverride && options == map[]
      ensures constants == Constants(config.llammas, map[], map[])
    {
      address := Lower(TokenAddressAsWritten);
      this.config := config;
      provider := None;
      signer := None;
      signerAddress := "";
      chainId := 0;
      multicallProvider := None;
      contracts := map[];
      feeData := NoOverride;
      options := map[];
      constants := Constants(config.llammas, map[], map[]);
    }

    /** Registers both handles for `contractAddress`, replacing any entry there; the direct
        handle runs through the signer when there is one, else through the provider. */
    method SetContract(contractAddress: string, abi: Abi)
      modifies this`contracts
      ensures contracts == Register(old(contracts), contractAddress, abi, RunnerFor(signer, provider))
    {
      var runner := RunnerFor(signer, provider);
      contracts := contracts[contractAddress := Entry(DirectContract(contractAddress, abi, runner),
                                                      MulticallContract(contractAddress, abi))];
    }

    /** Merges the given keys into the overrides; later calls win per field. */
    method SetCustomFeeData(patch: FeePatch)
      modifies this`feeData
      ensures feeData == Merge(old(feeData), patch)
    {
      feeData := Merge(feeData, patch);
    }

    /** Rewrites `options` from the fee snapshot `fetched` (the answer of `getFeeData`) and
        the overrides; `gasPriceQuery` is the answer `getGasPrice` would give. With no
        provider (before init) the call fails before asking anything and changes nothing;
        a failing `getFeeData` changes nothing; a failing `getGasPrice` leaves the dynamic
        fields deleted. */
    method UpdateFeeData(fetched: Result<NetworkFees, NetworkError>, gasPriceQuery: Result<int, NetworkError>)
      returns (r: Outcome<ClientError>)
      modifies this`options
      ensures provider.None? ==> r == Fail(NoProvider) && options == old(options)
      ensures provider.Some? && fetched.Failure? ==>
        r == Fail(NetworkFailure(fetched.error)) && options == old(options)
      ensures provider.Some? && fetched.Success? ==>
        && (r.Pass? <==> ResolveOutcome(fetched.value, feeData, gasPriceQuery).Pass?)
        && (r.Fail? ==> r == Fail(NetworkFailure(ResolveOutcome(fetched.value, feeData, gasPriceQuery).error)))
        && options == Resolve(old(options), fetched.value, feeData, gasPriceQuery)
    {
      if provider.None? {
        return Fail(NoProvider);
      }
      if fetched.Failure? {
        return Fail(NetworkFailure(fetched.error));
      }
      var net := fetched.value;
      if net.maxFeePerGas.None? || net.maxPriorityFeePerGas.None? {
        options := options - {MaxFeePerGas};
        options := options - {MaxPriorityFeePerGas};
        assert options == old(options) - DynamicFields;
        if feeData.gasPrice.Some? {
          options := options[GasPrice := GweiToWei(feeData.gasPrice.value)];
        } else if net.gasPrice.Some? {
          options := options[GasPrice := net.gasPrice.value];
        } else if gasPriceQuery.Failure? {
          return Fail(NetworkFailure(gasPriceQuery.error));
        } else {
          options := options[GasPrice := gasPriceQuery.value];
        }
      } else {
        options := options - {GasPrice};
        options := options[MaxFeePerGas := if feeData.maxFeePerGas.Some? then GweiToWei(feeData.maxFeePerGas.value)
                                           else net.maxFeePerGas.value];
        options := options[MaxPriorityFeePerGas := if feeData.maxPriorityFeePerGas.Some?
                                                   then GweiToWei(feeData.maxPriorityFeePerGas.value)
                                                   else net.maxPriorityFeePerGas.value];
      }
      r := Pass;
    }

    /** The reset at the start of init: every field but the constants. */
    method Reset()
      modifies this`provider, this`signer, this`signerAddress, this`chainId, this`multicallProvider,
               this`contracts, this`feeData, this`options
      ensures provider == None && multicallProvider == None && signer == None && signerAddress == ""
      ensures chainId == 0 && contracts == map[] && feeData == NoOverride && options == map[]
    {
      provider := None;
      signer := None;
      signerAddress := "";
      chainId := 0;
      multicallProvider := None;
      contracts := map[];
      feeData := NoOverride;
      options := map[];
    }

    /** The provider-kind branches of init: builds the provider and signer for the kind
        `providerType` names up to case, or reports that it names none. */
    method SelectProvider(providerType: string, settings: ProviderSettings) returns (selected: bool)
      modifies this`provider, this`signer
      ensures selected <==> ParseProviderKind(providerType).Some?
      ensures selected ==>
        var connection := Connect(ParseProviderKind(providerType).value, settings);
        provider == Some(connection.provider) && signer == connection.signer
      ensures !selected ==> provider == old(provider) && signer == old(signer)
    {
      var lowered := Lower(providerType);
      if lowered == Lower("JsonRpc") {
        var jsonRpc := JsonRpcProvider(if Truthy(settings.url) then settings.url.value else DefaultJsonRpcUrl);
        provider := Some(jsonRpc);
        if Truthy(settings.privateKey) {
          signer := Some(Wallet(settings.privateKey.value, jsonRpc));
        } else {
          signer := Some(ProviderSigner(jsonRpc));
        }
      } else if lowered == Lower("Web3") {
        var web3 := Web3Provider(settings.externalProvider);
        provider := Some(web3);
        signer := Some(ProviderSigner(web3));
      } else if lowered == Lower("Infura") {
        provider := Some(InfuraProvider(settings.network, settings.apiKey));
        signer := None;
      } else if lowered == Lower("Alchemy") {
        provider := Some(AlchemyProvider(settings.network, settings.apiKey));
        signer := None;
      } else {
        return false;
      }
      selected := true;
    }

    /** The signer part of init: reads the signer's address (`addressQuery` is the answer
        of `getAddress`) and drops a signer whose address cannot be read. */
    method ReadSignerAddress(addressQuery: Result<string, NetworkError>)
      modifies this`signer, this`signerAddress
      ensures old(signer).Some? && addressQuery.Success? ==>
        signer == old(signer) && signerAddress == addressQuery.value
      ensures old(signer).Some? && addressQuery.Failure? ==>
        signer == None && signerAddress == old(signerAddress)
      ensures old(signer).None? ==> signer == None && signerAddress == ""
    {
      if signer.Some? {
        match addressQuery
        case Success(a) => signerAddress := a;
        case Failure(_) => signer := None;
      } else {
        signerAddress := "";
      }
    }

    /** The registry part of init: registers the token, then the amm, controller and
        collateral of every market in order. */
    method PopulateRegistry()
      modifies this`contracts
      ensures contracts == RegisterAll(Register(old(contracts), address, ERC20Abi, RunnerFor(signer, provider)),
                                       RunnerFor(signer, provider), constants.llammas)
    {
      SetContract(address, ERC20Abi);
      var llammas := constants.llammas;
      ghost var runner := RunnerFor(signer, provider);
      ghost var seeded := contracts;
      var i := 0;
      while i < |llammas|
        invariant 0 <= i <= |llammas|
        invariant contracts == RegisterAll(seeded, runner, llammas[..i])
        modifies this`contracts
      {
        ghost var before := contracts;
        SetContract(llammas[i].ammAddress, LlammaAbi);
        SetContract(llammas[i].controllerAddress, ControllerAbi);
        SetContract(llammas[i].collateralAddress, ERC20Abi);
        assert contracts == RegisterMarket(before, runner, llammas[i]);
        RegisterAllStep(seeded, runner, llammas, i);
        i := i + 1;
      }
      assert llammas[..|llammas|] == llammas;
    }

    /** The constants part of init: DECIMALS from the markets `constants` holds, with the
        token at 18 decimals, and COINS; LLAMMAS is kept. */
    method SeedConstants()
      modifies this`constants
      ensures constants == old(constants).(coins := config.coins,
                                           decimals := config.extractDecimals(old(constants).llammas)[address := TokenDecimals])
    {
      constants := constants.(decimals := config.extractDecimals(constants.llammas)[address := TokenDecimals],
                              coins := config.coins);
    }

    /** The steps of init after the provider is chosen: seeds the constants, initialises
        the multicall provider, reads the signer's address, resolves the fee options from
        `initOptions` and fills the registry. A step that fails leaves what the steps
        before it wrote. */
    method CompleteInit(initOptions: FeeOverride, answers: BackendAnswers) returns (r: Outcome<ClientError>)
      requires provider.Some? && contracts == map[] && options == map[] && signerAddress == ""
      modifies this
      ensures provider == old(provider) && chainId == old(chainId)
      ensures constants == old(constants).(coins := config.coins,
                                           decimals := config.extractDecimals(old(constants).llammas)[address := TokenDecimals])
      ensures answers.multicallInit.Fail? ==>
        && r == Fail(NetworkFailure(answers.multicallInit.error))
        && multicallProvider == Some(MulticallProvider(None))
        && signer == old(signer) && signerAddress == "" && contracts == map[]
        && feeData == old(feeData) && options == map[]
      ensures answers.multicallInit.Pass? ==>
        && multicallProvider == Some(MulticallProvider(provider))
        && (signer, signerAddress) == KeepSigner(old(signer), answers.signerAddress)
        && feeData == initOptions
      ensures answers.multicallInit.Pass? && answers.feeData.Failure? ==>
        r == Fail(NetworkFailure(answers.feeData.error)) && options == map[] && contracts == map[]
      ensures answers.multicallInit.Pass? && answers.feeData.Success? ==>
        var outcome := ResolveOutcome(answers.feeData.value, initOptions, answers.gasPrice);
        && options == Resolve(map[], answers.feeData.value, initOptions, answers.gasPrice)
        && (outcome.Fail? ==> r == Fail(NetworkFailure(outcome.error)) && contracts == map[])
        && (outcome.Pass? ==>
              r == Pass && contracts == InitialRegistry(address, RunnerFor(signer, provider), constants.llammas))
    {
      SeedConstants();

      multicallProvider := Some(MulticallProvider(None));
      if answers.multicallInit.Fail? {
        return Fail(NetworkFailure(answers.multicallInit.error));
      }
      multicallProvider := Some(MulticallProvider(provider));

      ReadSignerAddress(answers.signerAddress);

      feeData := initOptions;
      var updated := UpdateFeeData(answers.feeData, answers.gasPrice);
      if updated.Fail? {
        return updated;
      }

      PopulateRegistry();
      r := Pass;
    }

    /** Resets every field but the constants, selects the provider and signer for
        `providerType` (throwing on an unknown kind), and runs the remaining steps. */
    method Init(providerType: string, settings: ProviderSettings, initOptions: FeeOverride,
                answers: BackendAnswers)
      returns (r: Outcome<ClientError>)
      modifies this
      ensures chainId == 0
      ensures ParseProviderKind(providerType).None? ==>
        && r == Fail(WrongProviderType)
        && provider == None && multicallProvider == None
        && signer == None && signerAddress == ""
        && contracts == map[] && feeData == NoOverride && options == map[]
        && constants == old(constants)
      ensures ParseProviderKind(providerType).Some? ==>
        var connection := Connect(ParseProviderKind(providerType).value, settings);
        && provider == Some(connection.provider)
        && constants == old(constants).(coins := config.coins,
                                        decimals := config.extractDecimals(old(constants).llammas)[address := TokenDecimals])
        && (answers.multicallInit.Fail? ==>
              && r == Fail(NetworkFailure(answers.multicallInit.error))
              && multicallProvider == Some(MulticallProvider(None))
              && signer == connection.signer && signerAddress == ""
              && contracts == map[] && feeData == NoOverride && options == map[])
        && (answers.multicallInit.Pass? ==>
              && multicallProvider == Some(MulticallProvider(Some(connection.provider)))
              && (signer, signerAddress) == KeepSigner(connection.signer, answers.signerAddress)
              && feeData == initOptions
              && (answers.feeData.Failure? ==>
                    && r == Fail(NetworkFailure(answers.feeData.error))
                    && options == map[] && contracts == map[])
              && (answers.feeData.Success? ==>
                    var outcome := ResolveOutcome(answers.feeData.value, initOptions, answers.gasPrice);
                    && options == Resolve(map[], answers.feeData.value, initOptions, answers.gasPrice)
                    && (outcome.Fail? ==> r == Fail(NetworkFailure(outcome.error)) && contracts == map[])
                    && (outcome.Pass? ==>
                          && r == Pass
                          && contracts == InitialRegistry(address, RunnerFor(signer, provider), constants.llammas))))
    {
      Reset();
      var selected := SelectProvider(providerType, settings);
      if !selected {
        return Fail(WrongProviderType);
      }
      r := CompleteInit(initOptions, answers);
    }
  }

  /** A client of the contracts above: a JSON-RPC init whose signer cannot report its
      address, against a legacy network reporting a gas price of 5 wei. */
  method InitScenario(market: Llamma, addressError: NetworkError, gasPriceQuery: Result<int, NetworkError>)
  {
    var client := new Crvusd(StaticConfig([market], map[], llammas => map[]));
    var settings := ProviderSettings(None, None, None, None, None);
    ParseProviderKindExact("jsonrpc", JsonRpc);
    var answers := BackendAnswers(Pass, Failure(addressError), Success(NetworkFees(Some(5), None, None)), gasPriceQuery);
    var r := client.Init("jsonrpc", settings, NoOverride, answers);
    LegacyScenario(map[], gasPriceQuery);
    assert r == Pass;
    assert client.signer == None && client.signerAddress == "";
    assert client.options == map[GasPrice := 5];
    assert client.provider == Some(JsonRpcProvider(DefaultJsonRpcUrl));
    InitialRegistryExact(client.address, ProviderRunner(JsonRpcProvider(DefaultJsonRpcUrl)), [market]);
    assert market.collateralAddress in client.contracts;
    assert client.constants.decimals[client.address] == TokenDecimals;
  }
}
