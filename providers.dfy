/** The chain-backend selector of `Crvusd.init`: which provider kind a name denotes,
    which provider and signer it builds, and how a signer whose address cannot be
    read is dropped. Providers and signers are opaque handles that record how they
    were built. */
module Providers {
  import opened Wrappers

  /** Why a call to the network failed. */
  datatype NetworkError = NetworkError(reason: string)

  datatype ProviderKind = JsonRpc | Web3 | Infura | Alchemy

  /** The spelling of each kind in the `providerType` parameter. */
  function KindName(kind: ProviderKind): string {
    match kind
    case JsonRpc => "JsonRpc"
    case Web3 => "Web3"
    case Infura => "Infura"
    case Alchemy => "Alchemy"
  }

  /** `toLowerCase` on one character, for the ASCII letters. */
  function LowerChar(c: char): char {
    if 'A' <= c <= 'Z' then (c as int + 32) as char else c
  }

  /** `toLowerCase` on a string. */
  function Lower(s: string): (r: string)
    ensures |r| == |s|
  {
    seq(|s|, i requires 0 <= i < |s| => LowerChar(s[i]))
  }

  predicate IsLowerCase(s: string) {
    forall i :: 0 <= i < |s| ==> !('A' <= s[i] <= 'Z')
  }

  /** Lowering leaves no upper-case letter, and lowering twice is lowering once. */
  lemma LowerIsLowerCase(s: string)
    ensures IsLowerCase(Lower(s))
    ensures Lower(Lower(s)) == Lower(s)
  {
    var r := Lower(s);
    assert forall i :: 0 <= i < |r| ==> Lower(r)[i] == r[i];
  }

  /** The kind a `providerType` names, compared case-insensitively; None where init throws. */
  function ParseProviderKind(name: string): (kind: Option<ProviderKind>)
    ensures kind.Some? ==> Lower(name) == Lower(KindName(kind.value))
  {
    var lowered := Lower(name);
    if lowered == Lower(KindName(JsonRpc)) then Some(JsonRpc)
    else if lowered == Lower(KindName(Web3)) then Some(Web3)
    else if lowered == Lower(KindName(Infura)) then Some(Infura)
    else if lowered == Lower(KindName(Alchemy)) then Some(Alchemy)
    else None
  }

  /** No two kinds share a name up to case. */
  lemma KindNamesDistinct(a: ProviderKind, b: ProviderKind)
    requires Lower(KindName(a)) == Lower(KindName(b))
    ensures a == b
  {
    var la, lb := Lower(KindName(a)), Lower(KindName(b));
    assert la[0] == LowerChar(KindName(a)[0]) && lb[0] == LowerChar(KindName(b)[0]);
  }

  /** A name is accepted exactly when it equals some kind's name up to case, it then
      denotes that kind and no other, and every other name is refused. */
  lemma ParseProviderKindExact(name: string, kind: ProviderKind)
    ensures ParseProviderKind(name) == Some(kind) <==> Lower(name) == Lower(KindName(kind))
    ensures ParseProviderKind(name) == None <==>
      forall k: ProviderKind :: Lower(name) != Lower(KindName(k))
  {
    var parsed := ParseProviderKind(name);
    if parsed.Some? {
      forall k: ProviderKind | Lower(name) == Lower(KindName(k)) ensures k == parsed.value {
        KindNamesDistinct(k, parsed.value);
      }
    } else {
      assert forall k: ProviderKind :: Lower(name) != Lower(KindName(k)) by {
        forall k: ProviderKind ensures Lower(name) != Lower(KindName(k)) {
          match k
          case JsonRpc =>
          case Web3 =>
          case Infura =>
          case Alchemy =>
        }
      }
    }
  }

  /** An opaque browser connection (`window.ethereum` and the like). */
  datatype ExternalProvider = ExternalProvider(id: nat)

  /** The untagged settings union of init. The source casts it according to the kind,
      so every kind reads only its own fields; a missing field reads as None. */
  datatype ProviderSettings = ProviderSettings(
    url: Option<string>,
    privateKey: Option<string>,
    externalProvider: Option<ExternalProvider>,
    network: Option<string>,
    apiKey: Option<string>)

  /** An ethers provider, recorded by the arguments it was built from. */
  datatype ProviderHandle =
    | JsonRpcProvider(url: string)
    | Web3Provider(external: Option<ExternalProvider>)
    | InfuraProvider(network: Option<string>, apiKey: Option<string>)
    | AlchemyProvider(network: Option<string>, apiKey: Option<string>)

  function KindOf(provider: ProviderHandle): ProviderKind {
    match provider
    case JsonRpcProvider(_) => JsonRpc
    case Web3Provider(_) => Web3
    case InfuraProvider(_, _) => Infura
    case AlchemyProvider(_, _) => Alchemy
  }

  /** An ethers signer: a wallet built from a private key, or the provider's own account. */
  datatype Signer =
    | Wallet(privateKey: string, provider: ProviderHandle)
    | ProviderSigner(provider: ProviderHandle)

  const DefaultJsonRpcUrl: string := "http://localhost:8545/"

  /** JavaScript truthiness of an optional string: present and not empty. */
  predicate Truthy(s: Option<string>) {
    s.Some? && s.value != ""
  }

  datatype Connection = Connection(provider: ProviderHandle, signer: Option<Signer>)

  /** The provider and signer that init builds for a kind. */
  function Connect(kind: ProviderKind, settings: ProviderSettings): (c: Connection)
    ensures KindOf(c.provider) == kind
    ensures c.signer.Some? <==> kind == JsonRpc || kind == Web3
    ensures c.signer.Some? ==> c.signer.value.provider == c.provider
    ensures c.signer.Some? && c.signer.value.Wallet? <==> kind == JsonRpc && Truthy(settings.privateKey)
    ensures c.signer.Some? && c.signer.value.Wallet? ==> c.signer.value.privateKey == settings.privateKey.value
    ensures c.provider.JsonRpcProvider? ==>
      c.provider.url == (if Truthy(settings.url) then settings.url.value else DefaultJsonRpcUrl)
    ensures c.provider.Web3Provider? ==> c.provider.external == settings.externalProvider
    ensures c.provider.InfuraProvider? || c.provider.AlchemyProvider? ==>
      c.provider.network == settings.network && c.provider.apiKey == settings.apiKey
  {
    match kind
    case JsonRpc =>
      var provider := JsonRpcProvider(if Truthy(settings.url) then settings.url.value else DefaultJsonRpcUrl);
      Connection(provider,
                 if Truthy(settings.privateKey) then Some(Wallet(settings.privateKey.value, provider))
                 else Some(ProviderSigner(provider)))
    case Web3 =>
      var provider := Web3Provider(settings.externalProvider);
      Connection(provider, Some(ProviderSigner(provider)))
    case Infura =>
      Connection(InfuraProvider(settings.network, settings.apiKey), None)
    case Alchemy =>
      Connection(AlchemyProvider(settings.network, settings.apiKey), None)
  }

  /** The signer and signer address after the `getAddress` query: a signer whose address
      cannot be read is dropped, and the address is then the empty string. */
  function KeepSigner(signer: Option<Signer>, addressQuery: Result<string, NetworkError>)
    : (r: (Option<Signer>, string))
    ensures r.0.Some? <==> signer.Some? && addressQuery.Success?
    ensures r.0.Some? ==> r.0 == signer && r.1 == addressQuery.value
    ensures r.0.None? ==> r.1 == ""
  {
    if signer.Some? && addressQuery.Success? then (signer, addressQuery.value) else (None, "")
  }
}
