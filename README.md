# crvUSD client core, modelled in Dafny

This project models the stateful core of the `Crvusd` client class of the curve-stablecoin-js
library (`src/crvusd.ts`). That class is a façade over ethers and ethcall. The model covers:

- **The fee-options resolver** (`updateFeeData`). It takes the network's fee snapshot and the
  user's gwei overrides, and rewrites the transaction `options` in place. The result is either
  the legacy single `gasPrice` or the dynamic pair from the Specification section of EIP-1559
  (`maxFeePerGas`, `maxPriorityFeePerGas`).
- **The override merge** (`setCustomFeeData`): a per-field object spread.
- **The contract registry** (`setContract` and the population loop of `init`). It maps an
  address to a pair of handles: a direct ethers contract and a batchable ethcall contract.
- **The `init` lifecycle.** It resets the state, then selects the provider kind by a
  case-insensitive name (or throws). It builds the provider and signer, and seeds DECIMALS
  and COINS. It initialises the multicall provider and drops a signer whose address cannot be
  read. Then it resolves the fee options and fills the registry.

Files:

- `wrappers.dfy`: `Option`, `Result` and `Outcome`.
- `providers.dfy`: module `Providers`. Provider kinds, ASCII `toLowerCase`, kind parsing, the
  provider and signer each kind builds, and signer degradation.
- `fee_strategy.dfy`: module `FeeStrategy`. Overrides, the patch merge, the resolver
  `Resolve`, and its lemmas.
- `registry.dfy`: module `Registry`. Opaque handles, `Register`, the loop `RegisterAll`, and
  the lemmas about them, proved by induction.
- `crvusd.dfy`: module `Client`. The class `Crvusd`, whose fields are those of the source
  (`provider`, `multicallProvider`, `signer`, `signerAddress`, `chainId`, `contracts`,
  `feeData`, `options`, `constants`). Its methods mutate those fields and are proved against
  the functions of the other modules.

Network answers are method parameters. `BackendAnswers` holds the answers `init` receives:
the multicall provider's initialisation, `getAddress`, `getFeeData` and `getGasPrice`.
`UpdateFeeData` takes the answers of `getFeeData` and `getGasPrice`. The `getGasPrice`
answer is used only on the path where the source actually calls it. The static data
(`LLAMMAS`, `COINS`, and the function `extractDecimals`) is given to the constructor as a
`StaticConfig`. Init applies `extractDecimals` to the LLAMMAS that the public `constants` field
holds at that moment, as the source does. `LLAMMAS` is a sequence in `Object.values` order.

`options` is a `map<FeeField, int>`. A key is present exactly when the JavaScript object has
that property, so `delete` is map subtraction. Overrides are whole gwei, and they are
converted to wei by multiplying by 10^9.

The model follows the code exactly, including these details:

- Registry keys are stored exactly as given; only the token address is lower-cased (`:31`).
  Two spellings of one address are two entries.
- The resolver does not commit atomically. In the legacy branch the dynamic fields are
  deleted before the awaited `getGasPrice`. If that query fails, they stay deleted and
  `gasPrice` keeps its earlier value (`ResolveFailureIsPartial`).
- `init` does not reset `constants` before the provider-kind check. A wrong kind leaves
  COINS and DECIMALS as they were.
- `init` ignores the `chainId` in its `options` argument. `chainId` stays 0.
- `updateFeeData` called before `init` (a null provider) throws before it changes anything. The model returns `Fail(NoProvider)` with `options` unchanged.
- An override key given to `setCustomFeeData` with the value `undefined` does overwrite,
  because object spread copies present keys (`FieldPatch.Present(None)`).

## Model

| member | source | states |
|---|---|---|
| Providers.LowerIsLowerCase | src/crvusd.ts:31 | the lower-cased token address has no upper-case letter, and lower-casing is idempotent |
| Providers.Lower | src/crvusd.ts:31 | `toLowerCase` on ASCII, as applied to the token address and (lines 70-95) to the provider kind: the result has the input's length; LowerIsLowerCase states that it leaves no upper-case letter and is idempotent, and ParseProviderKindExact uses it as the case-insensitive comparison |
| Providers.ParseProviderKind | src/crvusd.ts:70-100 | a recognised kind's name equals that kind's name up to case |
| Providers.KindNamesDistinct | src/crvusd.ts:70-95 | no two of JsonRpc, Web3, Infura and Alchemy share a name up to case, so at most one branch matches |
| Providers.ParseProviderKindExact | src/crvusd.ts:70-100 | a name selects kind k iff it equals k's name up to case; it is refused (init throws) iff it matches no kind's name up to case |
| Providers.Connect | src/crvusd.ts:69-98 | the provider has the selected kind; there is a signer iff the kind is JsonRpc or Web3 (Infura and Alchemy never have one); the signer is bound to the provider; it is a wallet iff JsonRpc has a non-empty private key, and the wallet holds that key; JsonRpc uses the given non-empty URL, else the localhost default; Web3 wraps the given external provider; Infura and Alchemy get the given network and API key |
| Providers.KeepSigner | src/crvusd.ts:110-118 | the signer survives iff there was one and `getAddress` answered; then the address is the answer; otherwise signer null and address '' |
| FeeStrategy.GweiToWei | src/crvusd.ts:149 | the conversion is an exact multiple of 10^9 that divides back to the override |
| FeeStrategy.Merge | src/crvusd.ts:138-140 | each field present in the patch takes the patch's value (even undefined); each absent field keeps its old value |
| FeeStrategy.MergeLaterWins | src/crvusd.ts:139 | two merges equal one merge of the combined patch, with later keys winning; a repeated merge changes nothing; an empty patch changes nothing |
| FeeStrategy.ResolveShape | src/crvusd.ts:142-160 | after a successful resolution the keys are exactly {gasPrice} iff either dynamic field of the snapshot is null, and exactly both dynamic fields otherwise; gasPrice and the dynamic fields exclude each other; the options are never empty |
| FeeStrategy.ResolveFailureIsPartial | src/crvusd.ts:144-150 | a resolution fails only in the legacy branch with no override, no reported gas price and a failing getGasPrice; it then has deleted both dynamic fields and kept the old gasPrice |
| FeeStrategy.LegacyPrecedence | src/crvusd.ts:148-150 | legacy gasPrice is the override times 10^9 if defined, else the reported gas price if non-null, else the getGasPrice answer |
| FeeStrategy.DynamicPrecedence | src/crvusd.ts:154-159 | each of maxFeePerGas and maxPriorityFeePerGas is independently its override times 10^9 if defined, else the reported value |
| FeeStrategy.ResolveForgetsPrior | src/crvusd.ts:145-159 | a successful resolution does not depend on the options it started from |
| FeeStrategy.ResolveIdempotent | src/crvusd.ts:142-160 | resolving twice against an unchanged snapshot and overrides gives the same options as resolving once, also when it fails |
| FeeStrategy.LegacyScenario | src/crvusd.ts:144-150 | a snapshot {gasPrice 5, no dynamic fields} with no overrides gives exactly {gasPrice: 5} |
| FeeStrategy.DynamicScenario | src/crvusd.ts:151-159 | a snapshot {30, 2} with a priority override of 5 gwei gives exactly {maxFeePerGas: 30, maxPriorityFeePerGas: 5·10^9} |
| FeeStrategy.LegacyGasPrice | src/crvusd.ts:148-150 | the legacy gas price with its fallback chain; specified by LegacyPrecedence (override, else reported price, else getGasPrice answer) and ResolveFailureIsPartial (it fails only through getGasPrice) |
| FeeStrategy.ResolveOutcome | src/crvusd.ts:144-150 | whether resolving throws; ResolveFailureIsPartial states it fails only in the legacy branch with no override, no reported price and a failing getGasPrice, and with that query's error |
| FeeStrategy.Resolve | src/crvusd.ts:142-160 | the body of updateFeeData after getFeeData answers; specified by ResolveShape, ResolveFailureIsPartial, LegacyPrecedence, DynamicPrecedence, ResolveForgetsPrior, ResolveIdempotent and the two scenarios |
| Registry.Register | src/crvusd.ts:131-136 | the keys gain exactly the given address (not lower-cased); its two handles are built for that address and ABI, the direct one through the runner; every other entry is unchanged |
| Registry.RunnerFor | src/crvusd.ts:133 | the signer-or-provider choice: the signer if there is one, else the provider, else null; SetContract, PopulateRegistry and InitialRegistryExact build every direct handle with it |
| Registry.RegisterKeepsWellFormed | src/crvusd.ts:132-135 | registering keeps every entry built for its own key and the client's runner |
| Registry.RegisterOverwrites | src/crvusd.ts:132 | registering an address twice leaves only the second entry |
| Registry.RegisterMarketFrame | src/crvusd.ts:125-127 | one market iteration adds its amm, controller and collateral addresses and leaves every other entry unchanged |
| Registry.RegisterMarket | src/crvusd.ts:125-127 | one loop iteration: amm with the llamma interface, then controller with the controller interface, then collateral as ERC20; specified by RegisterMarketFrame and RegisterAllAbi |
| Registry.RegisterAll | src/crvusd.ts:124-128 | the loop over the markets in order; specified by RegisterAllKeys, RegisterAllEntries, RegisterAllAbi and LastMarketWins, and PopulateRegistry's loop is proved equal to it |
| Registry.LastAbi | src/crvusd.ts:124-128 | the interface of the last write at an address: scanning from the last market, collateral before controller before amm; LastAbiFound and RegisterAllAbi specify it |
| Registry.LastAbiFound | src/crvusd.ts:124-128 | the last-write interface exists exactly for the addresses some market names |
| Registry.RegisterAllAbi | src/crvusd.ts:124-128 | after the loop every market address holds the interface of its last registration: llamma for an amm, controller for a controller, ERC20 for a collateral, a later market or a later line of the same market winning |
| Registry.RegisterAllKeys | src/crvusd.ts:124-128 | after the loop an address is a key iff it was one before or belongs to some market |
| Registry.RegisterAllEntries | src/crvusd.ts:124-128 | the loop keeps the registry well formed and leaves entries at addresses of no market unchanged |
| Registry.LastMarketWins | src/crvusd.ts:124-128 | the last market's collateral address ends up with an ERC20 entry, whatever came before |
| Client.InitialRegistry | src/crvusd.ts:123-128 | the registry init builds: the token as ERC20, then the loop over LLAMMAS; InitialRegistryExact specifies it |
| Client.InitialRegistryExact | src/crvusd.ts:123-128 | init's registry has exactly the token address plus every market's amm, controller and collateral address as keys; every entry is built for its own key and the signer-or-provider runner; the token keeps its ERC20 entry unless a market reuses its address; every market address holds the interface of its last registration (LastAbi) |
| Client.Crvusd.constructor | src/crvusd.ts:30-49 | the token address is lower-cased; no provider or signer; empty address, chain id 0, empty registry, overrides and options; LLAMMAS from the configuration and empty COINS and DECIMALS |
| Client.Crvusd.SetContract | src/crvusd.ts:131-136 | the registry becomes Register of the old registry at the given key, run through the signer if there is one, else the provider |
| Client.Crvusd.SetCustomFeeData | src/crvusd.ts:138-140 | the overrides become the merge of the old overrides with the patch |
| Client.Crvusd.UpdateFeeData | src/crvusd.ts:142-160 | with no provider (before init) the call fails (the source's TypeError on a null provider) and changes nothing; a failing getFeeData changes nothing and fails; otherwise options become Resolve of the old options, and the outcome fails exactly when the getGasPrice fallback fails, with its error |
| Client.Crvusd.Reset | src/crvusd.ts:56-67 | provider, multicall provider and signer null; address ''; chain id 0; empty registry, overrides and options |
| Client.Crvusd.SelectProvider | src/crvusd.ts:69-101 | selects iff the name parses as a kind; the provider and signer are then those Connect gives; an unknown name changes neither |
| Client.Crvusd.ReadSignerAddress | src/crvusd.ts:110-118 | a signer keeps its place and sets the address when getAddress answers; it becomes null when getAddress fails; with no signer the address is '' |
| Client.Crvusd.SeedConstants | src/crvusd.ts:103-105 | DECIMALS becomes extractDecimals of the markets the constants hold at that moment, with the token at 18; COINS is seeded; LLAMMAS is kept |
| Client.Crvusd.PopulateRegistry | src/crvusd.ts:123-128 | the registry becomes RegisterAll over LLAMMAS after registering the token as ERC20 |
| Client.Crvusd.CompleteInit | src/crvusd.ts:103-128 | DECIMALS is extractDecimals of the LLAMMAS `constants` holds, with the token at 18 and COINS is seeded; each later step runs only if the one before succeeded, and the state on each failure is stated |
| Client.Crvusd.Init | src/crvusd.ts:51-129 | every field but the constants is reset before any fallible step; an unknown kind fails with only that reset done; otherwise the provider and signer are Connect's, the signer goes through KeepSigner, the options are Resolve from empty, and on success the registry is the initial registry |

## Left out

- Construction of ethers providers, wallets and contracts, and of ethcall's `MulticallProvider` and `MulticallContract`. These are foreign library objects. They are opaque values recording the arguments they were built from. Their own failures are not modelled, for example `Web3Provider` without an external provider.
- The network calls `getFeeData`, `getGasPrice`, `getAddress` and the multicall provider's `init`. They are asynchronous I/O, so their answers are parameters. Concurrency between overlapping `init` and `updateFeeData` calls is not modelled.
- `parseUnits(number.toString(), "gwei")`. Overrides are whole gwei (integers) multiplied by 10^9. Fractional gwei, and numbers whose `toString` uses exponent notation (which `parseUnits` rejects), are not modelled.
- Providers.Lower: only ASCII letters are lower-cased, while JavaScript's `toLowerCase` maps all of Unicode. Two characters outside ASCII lower-case to ASCII letters: U+0130 becomes "i" followed by a combining dot above, and U+212A (Kelvin sign) becomes "k". The first keeps an extra non-ASCII character, so it can never equal one of the four kind names. The second yields a "k", which none of the four kind names contains. Kind matching is therefore exact. The token address constant is ASCII.
- `extractDecimals`, `COINS`, `LLAMMAS` and the ABI files come from modules that are not part of this model. They are configuration inputs, and ABIs are opaque names.
- `constantOptions` (`{ gasLimit: 12000000 }`) is a constant with no logic.
- The module-level singleton `crvusd` is wiring. A `Crvusd` instance is created with `new` instead.
- The registry-lookup NotFound condition has no code in this file, so it is not modelled. Lookups are plain `map` membership.
