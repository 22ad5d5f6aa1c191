/**
 * Configuration resolution of the desktop client (src/lib/cfg.ts): the chain id,
 * the default network URL and the accounts database path are read from the
 * process environment once and memoised; network names, explorer URLs and the
 * per-chain list of registered ERC-20 tokens are derived from a chain id.
 */
module Cfg {
  import opened Wrappers

  const MainnetChainId: string := "42220"
  const BaklavaChainId: string := "62320"
  const AlfajoresChainId: string := "44787"
  const DefaultChainId: string := MainnetChainId
  const DefaultAccountsDB: string := "home/.celoterminal/celoaccounts.db"
  const FallbackNetworkURL: string := "http://localhost:7545"

  const NetworkIdVar: string := "CELOTERMINAL_NETWORK_ID"
  const NetworkURLVar: string := "CELOTERMINAL_NETWORK_URL"
  const AccountsDBVar: string := "CELOTERMINAL_ACCOUNTS_DB"

  const DefaultNetworks: map<string, string> := map[
    MainnetChainId := "https://forno.celo.org",
    BaklavaChainId := "https://baklava-forno.celo-testnet.org",
    AlfajoresChainId := "https://alfajores-forno.celo-testnet.org"]

  const NetworkNames: map<string, string> := map[
    MainnetChainId := "Mainnet",
    BaklavaChainId := "Baklava",
    AlfajoresChainId := "Alfajores"]

  /** The process environment: variable name to value; an absent name is `undefined`. */
  type ProcessEnv = map<string, string>

  function Lookup(m: map<string, string>, key: string): Option<string>
  {
    if key in m then Some(m[key]) else None
  }

  /** JavaScript's `a || b` where `a` is an optional string: `undefined` and "" are falsy. */
  function Or(a: Option<string>, b: string): string
  {
    if a.Some? && a.value != "" then a.value else b
  }

  /** True when the environment sets `name` to a non-empty value. */
  predicate IsSet(env: ProcessEnv, name: string)
  {
    name in env && env[name] != ""
  }

  // ---------------------------------------------------------------------------
  // Chain id and network URL

  function ResolveChainId(env: ProcessEnv): (chainId: string)
    ensures chainId != ""
    ensures IsSet(env, NetworkIdVar) ==> chainId == env[NetworkIdVar]
    ensures !IsSet(env, NetworkIdVar) ==> chainId == "42220"
  {
    Or(Lookup(env, NetworkIdVar), DefaultChainId)
  }

  function ResolveNetworkURL(env: ProcessEnv, chainId: string): (url: string)
    ensures url != ""
    ensures IsSet(env, NetworkURLVar) ==> url == env[NetworkURLVar]
    ensures !IsSet(env, NetworkURLVar) && chainId in DefaultNetworks ==> url == DefaultNetworks[chainId]
    ensures !IsSet(env, NetworkURLVar) && chainId !in DefaultNetworks ==> url == "http://localhost:7545"
  {
    Or(Lookup(env, NetworkURLVar), Or(Lookup(DefaultNetworks, chainId), FallbackNetworkURL))
  }

  // ---------------------------------------------------------------------------
  // Accounts database path: JavaScript's `split("/")` and its inverse

  /** `s.split("/")`: the maximal "/"-free pieces of `s`, empty pieces included. */
  function Split(s: string): (parts: seq<string>)
    ensures |parts| >= 1
    ensures forall k :: 0 <= k < |parts| ==> '/' !in parts[k]
  {
    if |s| == 0 then [""]
    else
      var rest := Split(s[1..]);
      if s[0] == '/' then [""] + rest
      else [[s[0]] + rest[0]] + rest[1..]
  }

  /** `parts.join("/")`. */
  function Join(parts: seq<string>): string
    requires |parts| >= 1
  {
    if |parts| == 1 then parts[0] else parts[0] + "/" + Join(parts[1..])
  }

  lemma {:induction false} JoinSplit(s: string)
    ensures Join(Split(s)) == s
  {
    if |s| > 0 {
      var rest := Split(s[1..]);
      JoinSplit(s[1..]);
      if s[0] == '/' {
        assert Split(s) == [""] + rest;
        assert ([""] + rest)[1..] == rest;
        assert Join(Split(s)) == "" + "/" + Join(rest);
        assert s == [s[0]] + s[1..];
      } else if |rest| == 1 {
        assert Join(Split(s)) == [s[0]] + rest[0];
        assert s == [s[0]] + s[1..];
      } else {
        var parts := Split(s);
        assert parts == [[s[0]] + rest[0]] + rest[1..];
        assert parts[1..] == rest[1..];
        assert Join(parts) == [s[0]] + rest[0] + "/" + Join(rest[1..]);
        assert Join(rest) == rest[0] + "/" + Join(rest[1..]);
        assert s == [s[0]] + s[1..];
      }
    }
  }

  /** Splitting a "/"-free prefix glues it onto the first piece of the rest. */
  lemma {:induction false} SplitPrefix(a: string, t: string)
    requires '/' !in a
    ensures Split(a + t) == [a + Split(t)[0]] + Split(t)[1..]
  {
    if |a| == 0 {
      assert a + t == t && a + Split(t)[0] == Split(t)[0];
      assert [Split(t)[0]] + Split(t)[1..] == Split(t);
    } else {
      assert (a + t)[0] == a[0];
      assert (a + t)[1..] == a[1..] + t;
      SplitPrefix(a[1..], t);
      assert [a[0]] + (a[1..] + Split(t)[0]) == a + Split(t)[0];
    }
  }

  lemma {:induction false} SplitJoin(parts: seq<string>)
    requires |parts| >= 1
    requires forall k :: 0 <= k < |parts| ==> '/' !in parts[k]
    ensures Split(Join(parts)) == parts
  {
    if |parts| == 1 {
      SplitPrefix(parts[0], "");
      assert parts[0] + "" == parts[0];
    } else {
      var rest := parts[1..];
      SplitJoin(rest);
      var t := "/" + Join(rest);
      assert Join(parts) == parts[0] + t;
      assert t[0] == '/' && t[1..] == Join(rest);
      assert Split(t) == [""] + rest;
      SplitPrefix(parts[0], t);
      assert parts[0] + "" == parts[0];
      assert parts == [parts[0]] + rest;
    }
  }

  /** `accountsDBPath`: a root such as "home" and the remaining path components. */
  datatype DBPath = DBPath(root: string, path: seq<string>)

  function ResolveAccountsDBPath(env: ProcessEnv): (p: DBPath)
    ensures Join([p.root] + p.path) == Or(Lookup(env, AccountsDBVar), DefaultAccountsDB)
    ensures '/' !in p.root && forall k :: 0 <= k < |p.path| ==> '/' !in p.path[k]
  {
    var s := Or(Lookup(env, AccountsDBVar), DefaultAccountsDB);
    var parts := Split(s);
    JoinSplit(s);
    assert [parts[0]] + parts[1..] == parts;
    DBPath(parts[0], parts[1..])
  }

  lemma DefaultAccountsDBPath(env: ProcessEnv)
    requires !IsSet(env, AccountsDBVar)
    ensures ResolveAccountsDBPath(env) == DBPath("home", [".celoterminal", "celoaccounts.db"])
  {
    DefaultAccountsDBSplit();
    assert Or(Lookup(env, AccountsDBVar), DefaultAccountsDB) == DefaultAccountsDB;
  }

  /** The components of the default accounts database path. */
  lemma DefaultAccountsDBSplit()
    ensures Split(DefaultAccountsDB) == ["home", ".celoterminal", "celoaccounts.db"]
  {
    var parts := ["home", ".celoterminal", "celoaccounts.db"];
    DefaultAccountsDBJoin();
    assert '/' !in parts[0] && '/' !in parts[1] && '/' !in parts[2];
    SplitJoin(parts);
  }

  lemma DefaultAccountsDBJoin()
    ensures Join(["home", ".celoterminal", "celoaccounts.db"]) == DefaultAccountsDB
  {
    var parts := ["home", ".celoterminal", "celoaccounts.db"];
    assert parts[1..][1..] == ["celoaccounts.db"];
  }

  // ---------------------------------------------------------------------------
  // The memoised configuration

  datatype Config = Config(chainId: string, defaultNetworkURL: string, accountsDBPath: DBPath)

  /** What the first call of `CFG()` computes from the environment. */
  function Resolve(env: ProcessEnv): Config
  {
    var chainId := ResolveChainId(env);
    Config(chainId, ResolveNetworkURL(env, chainId), ResolveAccountsDBPath(env))
  }

  /** The module-level `_CFG` cache of cfg.ts. */
  class ConfigCache {
    var cached: Option<Config>

    constructor ()
      ensures cached == None
    {
      cached := None;
    }

    /** `CFG()`: resolves the configuration on the first call only; later calls ignore `env`. */
    method CFG(env: ProcessEnv) returns (c: Config)
      modifies this
      ensures cached == Some(c)
      ensures old(cached).None? ==> c == Resolve(env)
      ensures old(cached).Some? ==> c == old(cached).value
    {
      if cached.None? {
        cached := Some(Resolve(env));
      }
      c := cached.value;
    }
  }

  // ---------------------------------------------------------------------------
  // Names and explorer URLs

  predicate IsKnownChain(chainId: string)
  {
    chainId == MainnetChainId || chainId == BaklavaChainId || chainId == AlfajoresChainId
  }

  function NetworkName(chainId: string): (name: string)
    ensures chainId == "42220" ==> name == "Mainnet"
    ensures chainId == "62320" ==> name == "Baklava"
    ensures chainId == "44787" ==> name == "Alfajores"
    ensures !IsKnownChain(chainId) ==> name == "ChainId: " + chainId
  {
    Or(Lookup(NetworkNames, chainId), "ChainId: " + chainId)
  }

  /** Reads a chain id back from its display name. */
  function ChainIdOfName(name: string): string
  {
    if name == "Mainnet" then MainnetChainId
    else if name == "Baklava" then BaklavaChainId
    else if name == "Alfajores" then AlfajoresChainId
    else if |name| >= |"ChainId: "| then name[|"ChainId: "|..]
    else name
  }

  /** The display name determines the chain id, so two chains never share a name. */
  lemma NetworkNameRoundTrip(chainId: string)
    ensures ChainIdOfName(NetworkName(chainId)) == chainId
  {
    var p := "ChainId: ";
    if !IsKnownChain(chainId) {
      var n := p + chainId;
      assert n[0] == 'C' && n[1] == 'h';
      assert n[|p|..] == chainId;
    } else {
      KnownChainsDistinct();
    }
  }

  lemma KnownChainsDistinct()
    ensures MainnetChainId != BaklavaChainId && MainnetChainId != AlfajoresChainId
    ensures BaklavaChainId != AlfajoresChainId
  {
    assert MainnetChainId[0] == '4' && BaklavaChainId[0] == '6';
    assert MainnetChainId[1] == '2' && AlfajoresChainId[1] == '4';
    assert BaklavaChainId[0] == '6' && AlfajoresChainId[0] == '4';
  }

  const ExplorerPrefix: string := "https://explorer.network."

  function ExplorerRootURL(chainId: string): (url: string)
    ensures chainId == "42220" ==> url == "https://explorer.celo.org"
    ensures chainId == "62320" ==> url == "https://baklava-blockscout.celo-testnet.org"
    ensures chainId == "44787" ==> url == "https://alfajores-blockscout.celo-testnet.org"
    ensures !IsKnownChain(chainId) ==> url == "https://explorer.network." + chainId
  {
    if chainId == MainnetChainId then "https://explorer.celo.org"
    else if chainId == BaklavaChainId then "https://baklava-blockscout.celo-testnet.org"
    else if chainId == AlfajoresChainId then "https://alfajores-blockscout.celo-testnet.org"
    else ExplorerPrefix + chainId
  }

  /** Reads a chain id back from its explorer root URL. */
  function ChainIdOfExplorerURL(url: string): string
  {
    if url == "https://explorer.celo.org" then MainnetChainId
    else if url == "https://baklava-blockscout.celo-testnet.org" then BaklavaChainId
    else if url == "https://alfajores-blockscout.celo-testnet.org" then AlfajoresChainId
    else if |url| >= |ExplorerPrefix| then url[|ExplorerPrefix|..]
    else url
  }

  /** The explorer root determines the chain id: links of one chain never point at another's explorer. */
  lemma ExplorerRootURLRoundTrip(chainId: string)
    ensures ChainIdOfExplorerURL(ExplorerRootURL(chainId)) == chainId
  {
    var p := ExplorerPrefix;
    if !IsKnownChain(chainId) {
      var u := p + chainId;
      assert u[8] == 'e' && u[17] == 'n';
      assert u[|p|..] == chainId;
    } else {
      KnownChainsDistinct();
    }
  }

  // ---------------------------------------------------------------------------
  // Registered ERC-20 tokens

  datatype Erc20Addresses = Erc20Addresses(mainnet: Option<string>, baklava: Option<string>, alfajores: Option<string>)

  /** A registry entry; the conversion descriptor is carried as an opaque value. */
  datatype Erc20Entry = Erc20Entry(
    name: string, symbol: string, decimals: nat, conversion: Option<string>, addresses: Erc20Addresses)

  datatype RegisteredErc20 = RegisteredErc20(
    name: string, symbol: string, decimals: nat, conversion: Option<string>, address: Option<string>)

  function AddressOn(chainId: string, a: Erc20Addresses): Option<string>
  {
    if chainId == MainnetChainId then a.mainnet
    else if chainId == BaklavaChainId then a.baklava
    else if chainId == AlfajoresChainId then a.alfajores
    else None
  }

  /** The `map` callback: copy the descriptive fields, pick the chain's address. */
  function ForChain(chainId: string, e: Erc20Entry): RegisteredErc20
  {
    RegisteredErc20(e.name, e.symbol, e.decimals, e.conversion, AddressOn(chainId, e.addresses))
  }

  function MapForChain(chainId: string, registry: seq<Erc20Entry>): (r: seq<RegisteredErc20>)
    ensures |r| == |registry|
    ensures forall k :: 0 <= k < |r| ==> r[k] == ForChain(chainId, registry[k])
  {
    if registry == [] then [] else [ForChain(chainId, registry[0])] + MapForChain(chainId, registry[1..])
  }

  /** The `filter` step: keep the tokens whose address is defined, in order. */
  function KeepDefined(xs: seq<RegisteredErc20>): (r: seq<RegisteredErc20>)
    ensures |r| <= |xs|
    ensures forall k :: 0 <= k < |r| ==> r[k].address.Some?
    ensures forall x :: x in r <==> x in xs && x.address.Some?
    ensures forall x :: multiset(r)[x] == if x.address.Some? then multiset(xs)[x] else 0
  {
    if xs == [] then []
    else
      assert xs == [xs[0]] + xs[1..];
      if xs[0].address.Some? then [xs[0]] + KeepDefined(xs[1..])
      else KeepDefined(xs[1..])
  }

  /** `a` is `b` with some elements removed, order kept. */
  predicate IsSubsequence<T(==)>(a: seq<T>, b: seq<T>)
    decreases |b|
  {
    if a == [] then true
    else if b == [] then false
    else (a[0] == b[0] && IsSubsequence(a[1..], b[1..])) || IsSubsequence(a, b[1..])
  }

  lemma {:induction false} KeepDefinedIsSubsequence(xs: seq<RegisteredErc20>)
    ensures IsSubsequence(KeepDefined(xs), xs)
  {
    if xs != [] {
      KeepDefinedIsSubsequence(xs[1..]);
      if xs[0].address.Some? {
        assert KeepDefined(xs)[1..] == KeepDefined(xs[1..]);
      }
    }
  }

  function RegisteredErc20s(
    chainId: string, spectronChainId: string, registry: seq<Erc20Entry>, devchain: seq<RegisteredErc20>
  ): seq<RegisteredErc20>
  {
    if chainId == spectronChainId then devchain
    else KeepDefined(MapForChain(chainId, registry))
  }

  /** Outside the test chain: only tokens with an address on the chain, in registry order, fields copied. */
  lemma RegisteredErc20sSelection(
    chainId: string, spectronChainId: string, registry: seq<Erc20Entry>, devchain: seq<RegisteredErc20>)
    requires chainId != spectronChainId
    ensures var r := RegisteredErc20s(chainId, spectronChainId, registry, devchain);
      && |r| <= |registry|
      && IsSubsequence(r, MapForChain(chainId, registry))
      && (forall k :: 0 <= k < |r| ==> r[k].address.Some?)
      && (forall x :: multiset(r)[x] == if x.address.Some? then multiset(MapForChain(chainId, registry))[x] else 0)
      && (forall x :: x in r <==>
            exists e :: e in registry && x == ForChain(chainId, e) && AddressOn(chainId, e.addresses).Some?)
  {
    var m := MapForChain(chainId, registry);
    KeepDefinedIsSubsequence(m);
    forall x
      ensures x in KeepDefined(m) <==>
        exists e :: e in registry && x == ForChain(chainId, e) && AddressOn(chainId, e.addresses).Some?
    {
      if x in KeepDefined(m) {
        var k :| 0 <= k < |m| && m[k] == x;
        assert registry[k] in registry;
      }
      if exists e :: e in registry && x == ForChain(chainId, e) && AddressOn(chainId, e.addresses).Some? {
        var e :| e in registry && x == ForChain(chainId, e) && AddressOn(chainId, e.addresses).Some?;
        var k :| 0 <= k < |registry| && registry[k] == e;
        assert m[k] == x;
      }
    }
  }

  lemma RegisteredErc20sSpectron(
    chainId: string, registry: seq<Erc20Entry>, devchain: seq<RegisteredErc20>)
    ensures RegisteredErc20s(chainId, chainId, registry, devchain) == devchain
  {
  }

  /** A chain that is neither known nor the test chain has no registered tokens. */
  lemma RegisteredErc20sUnknownChain(
    chainId: string, spectronChainId: string, registry: seq<Erc20Entry>, devchain: seq<RegisteredErc20>)
    requires chainId != spectronChainId && !IsKnownChain(chainId)
    ensures RegisteredErc20s(chainId, spectronChainId, registry, devchain) == []
  {
    KeepDefinedUndefined(MapForChain(chainId, registry));
  }

  lemma {:induction false} KeepDefinedUndefined(xs: seq<RegisteredErc20>)
    requires forall k :: 0 <= k < |xs| ==> xs[k].address.None?
    ensures KeepDefined(xs) == []
  {
    if xs != [] {
      KeepDefinedUndefined(xs[1..]);
    }
  }
}
