/** The wallet connection manager: the persisted session (three string
    keys in a key-value store), the registry of announced wallet providers
    (EIP-6963 discovery) and the operations that rewrite them. Every answer
    a wallet gives to an EIP-1193 `request` is a parameter. */
module Wallet {
  import opened Common
  import opened Chains

  // ---------------------------------------------------------------
  // The persisted session
  // ---------------------------------------------------------------

  const CHAIN_ID_KEY: string := "connectCurrentChainId"
  const LAST_WALLET_KEY: string := "connectLastWallet"
  const IS_CONNECTED_KEY: string := "connectConnected"

  type Storage = map<string, string>

  /** What `updateNetworkStatus` does to the store: keep the chain id when
      it names a visible network of the module-level table, drop it otherwise. */
  function NetworkStatus(storage: Storage, chainId: string): (r: Storage)
    ensures CHAIN_ID_KEY in r <==> IsVisibleChain(Registry, chainId)
    ensures CHAIN_ID_KEY in r ==> r[CHAIN_ID_KEY] == chainId
    ensures forall k :: k != CHAIN_ID_KEY ==> (k in r <==> k in storage)
    ensures forall k :: k != CHAIN_ID_KEY && k in r ==> r[k] == storage[k]
  {
    if IsVisibleChain(Registry, chainId) then storage[CHAIN_ID_KEY := chainId]
    else storage - {CHAIN_ID_KEY}
  }

  /** A store that records a connection to `name` still does after the
      chain id is re-validated. */
  lemma ConnectedSession(storage: Storage, chainId: string, name: string)
    requires LAST_WALLET_KEY in storage && storage[LAST_WALLET_KEY] == name
    requires IS_CONNECTED_KEY in storage && storage[IS_CONNECTED_KEY] == "true"
    ensures LAST_WALLET_KEY in NetworkStatus(storage, chainId)
    ensures NetworkStatus(storage, chainId)[LAST_WALLET_KEY] == name
    ensures IS_CONNECTED_KEY in NetworkStatus(storage, chainId)
    ensures NetworkStatus(storage, chainId)[IS_CONNECTED_KEY] == "true"
  {
    assert LAST_WALLET_KEY != CHAIN_ID_KEY by { assert LAST_WALLET_KEY[8] != CHAIN_ID_KEY[8]; }
    assert IS_CONNECTED_KEY != CHAIN_ID_KEY by { assert IS_CONNECTED_KEY[8] != CHAIN_ID_KEY[8]; }
  }

  /** The three session keys removed, every other key kept. */
  function ClearSession(storage: Storage): (r: Storage)
    ensures CHAIN_ID_KEY !in r && LAST_WALLET_KEY !in r && IS_CONNECTED_KEY !in r
    ensures forall k :: k != CHAIN_ID_KEY && k != LAST_WALLET_KEY && k != IS_CONNECTED_KEY ==>
              (k in r <==> k in storage) && (k in r ==> r[k] == storage[k])
  {
    storage - {CHAIN_ID_KEY, LAST_WALLET_KEY, IS_CONNECTED_KEY}
  }

  /** The Ethereum entry's hex id is visible, so disconnecting re-stores it. */
  lemma DefaultChainVisible()
    ensures IsVisibleChain(Registry, "0x1")
  {
    assert NetworkMatches(Registry[0], Str("0x1"));
  }

  // ---------------------------------------------------------------
  // The provider registry
  // ---------------------------------------------------------------

  datatype ProviderInfo = ProviderInfo(name: string, icon: string)

  /** `provider` stands for the identity of the EIP-1193 provider object. */
  datatype ProviderDetail = ProviderDetail(info: ProviderInfo, provider: nat)

  predicate NamesUnique(ps: seq<ProviderDetail>) {
    forall i, j :: 0 <= i < j < |ps| ==> ps[i].info.name != ps[j].info.name
  }

  predicate HasName(ps: seq<ProviderDetail>, name: string) {
    exists k :: 0 <= k < |ps| && ps[k].info.name == name
  }

  /** `providers.find(p => p.info.name === name)`. */
  function FindProvider(ps: seq<ProviderDetail>, name: string): (r: Option<ProviderDetail>)
    ensures r.None? <==> !HasName(ps, name)
    ensures r.Some? ==> exists k :: 0 <= k < |ps| && ps[k] == r.value && r.value.info.name == name
                           && forall j :: 0 <= j < k ==> ps[j].info.name != name
    decreases |ps|
  {
    if ps == [] then None
    else if ps[0].info.name == name then Some(ps[0])
    else
      var r := FindProvider(ps[1..], name);
      assert forall k :: 1 <= k < |ps| ==> ps[k] == ps[1..][k - 1];
      if r.Some? then
        var k :| 0 <= k < |ps[1..]| && ps[1..][k] == r.value && r.value.info.name == name
                 && forall j :: 0 <= j < k ==> ps[1..][j].info.name != name;
        assert ps[k + 1] == r.value;
        r
      else
        r
  }

  /** The registry after one announcement: appended unless the name is taken. */
  function Register(ps: seq<ProviderDetail>, d: ProviderDetail): (r: seq<ProviderDetail>)
    ensures NamesUnique(ps) ==> NamesUnique(r)
    ensures HasName(ps, d.info.name) ==> r == ps
    ensures !HasName(ps, d.info.name) ==> r == ps + [d]
  {
    if HasName(ps, d.info.name) then ps else ps + [d]
  }

  /** The registry after a stream of announcements. */
  function RegisterAll(ps: seq<ProviderDetail>, ds: seq<ProviderDetail>): seq<ProviderDetail>
    decreases |ds|
  {
    if ds == [] then ps else Register(RegisterAll(ps, ds[..|ds| - 1]), ds[|ds| - 1])
  }

  lemma FindProviderSnoc(ps: seq<ProviderDetail>, d: ProviderDetail, name: string)
    ensures FindProvider(ps + [d], name) ==
            if HasName(ps, name) then FindProvider(ps, name)
            else if d.info.name == name then Some(d) else None
  {
    var s := ps + [d];
    assert forall k :: 0 <= k < |ps| ==> s[k] == ps[k];
    assert s[|ps|] == d;
    if HasName(ps, name) {
      var r := FindProvider(s, name);
      var k :| 0 <= k < |s| && s[k] == r.value && r.value.info.name == name
               && forall j :: 0 <= j < k ==> s[j].info.name != name;
      var q := FindProvider(ps, name);
      var m :| 0 <= m < |ps| && ps[m] == q.value && q.value.info.name == name
               && forall j :: 0 <= j < m ==> ps[j].info.name != name;
      assert k == m;
    }
  }

  /** First announcement wins: looking a name up in the deduplicated
      registry gives the same provider as looking it up in the raw stream
      of announcements, and the registry never holds a name twice. */
  lemma {:induction false} RegisterAllFirstWins(ds: seq<ProviderDetail>, name: string)
    ensures NamesUnique(RegisterAll([], ds))
    ensures FindProvider(RegisterAll([], ds), name) == FindProvider(ds, name)
    decreases |ds|
  {
    if ds != [] {
      var init, d := ds[..|ds| - 1], ds[|ds| - 1];
      RegisterAllFirstWins(init, name);
      var reg := RegisterAll([], init);
      assert ds == init + [d];
      FindProviderSnoc(init, d, name);
      if HasName(reg, d.info.name) {
        assert RegisterAll([], ds) == reg;
        if d.info.name == name {
          assert FindProvider(reg, name).Some?;
          assert HasName(init, name);
        } else {
          if HasName(init, name) {
            assert FindProvider(init, name).Some?;
            assert HasName(reg, name);
          }
        }
      } else {
        assert RegisterAll([], ds) == reg + [d];
        FindProviderSnoc(reg, d, name);
        if HasName(init, name) {
          assert FindProvider(reg, name).Some?;
          assert HasName(reg, name);
        }
        if HasName(reg, name) {
          assert FindProvider(init, name).Some?;
          assert HasName(init, name);
        }
      }
    }
  }

  // ---------------------------------------------------------------
  // Wallet answers and outcomes
  // ---------------------------------------------------------------

  /** The settled value of a provider `request` promise. */
  datatype RpcResult<T> = Answered(value: T) | Rejected(message: string)

  datatype ConnectOutcome =
    | NoSuchProvider
    | ConnectFailed(message: string)
    | Connected(accounts: seq<string>, chainId: string, provider: nat, providerName: string)

  datatype SwitchOutcome = NoProvider | SwitchFailed(message: string) | Switched

  /** What the chain-change callback receives. */
  datatype ChainChange = ChainChange(chainId: Option<int>, hexChainId: string, name: string, allowed: bool)

  const WNS_FIRST: string := "wns-first"
  const ENS_FIRST: string := "ens-first"

  // ---------------------------------------------------------------
  // Name resolution order
  // ---------------------------------------------------------------

  datatype Resolver = Wns | Ens

  /** What the ENS lookup yields: a name (or none) and an avatar. */
  datatype EnsAnswer = EnsAnswer(name: Option<string>, avatar: Option<string>)

  datatype Resolution = Resolution(name: Option<string>, avatar: Option<string>,
                                   source: Option<Resolver>, consulted: seq<Resolver>)

  /** A lookup result counts only when it is a non-empty string. */
  function Named(n: Option<string>): Option<string> {
    if n.Some? && n.value != "" then n else None
  }

  /** The ordering of `resolveName`: `order` "wns-first" asks WNS first,
      anything else asks ENS first; the second resolver is asked only when
      the first gives no name. A failed lookup is an absent name. */
  function ResolveName(order: string, wns: Option<string>, ens: EnsAnswer): (r: Resolution)
    ensures |r.consulted| >= 1 && r.consulted[0] == (if order == WNS_FIRST then Wns else Ens)
    ensures |r.consulted| == 2 <==>
            (if order == WNS_FIRST then Named(wns).None? else Named(ens.name).None?)
    ensures r.name.Some? <==> Named(wns).Some? || Named(ens.name).Some?
    ensures r.source == Some(Wns) ==> r.name == Named(wns) && r.name.Some? && r.avatar.None?
    ensures r.source == Some(Ens) ==> r.name == Named(ens.name) && r.name.Some? && r.avatar == ens.avatar
    ensures r.source.None? <==> r.name.None?
    ensures Named(wns).Some? && Named(ens.name).Some? ==>
              r.source == Some(if order == WNS_FIRST then Wns else Ens)
  {
    var w := Named(wns);
    var e := Named(ens.name);
    if order == WNS_FIRST then
      if w.Some? then Resolution(w, None, Some(Wns), [Wns])
      else if e.Some? then Resolution(e, ens.avatar, Some(Ens), [Wns, Ens])
      else Resolution(None, None, None, [Wns, Ens])
    else
      if e.Some? then Resolution(e, ens.avatar, Some(Ens), [Ens])
      else if w.Some? then Resolution(w, None, Some(Wns), [Ens, Wns])
      else Resolution(None, None, None, [Ens, Wns])
  }

  /** The entry stored under a property name of the configuration object. */
  function ConfigByKey(configs: seq<NetworkConfig>, key: string): (r: Option<NetworkConfig>)
    ensures r.Some? ==> r.value in configs && r.value.key == key
    ensures r.None? ==> forall c :: c in configs ==> c.key != key
    decreases |configs|
  {
    if configs == [] then None
    else if configs[0].key == key then Some(configs[0])
    else ConfigByKey(configs[1..], key)
  }

  lemma PrecomputeStep(configs: seq<NetworkConfig>, i: nat)
    requires i < |configs|
    ensures ChainNames(configs[..i + 1]) == ChainNames(configs[..i])[configs[i].chainId := configs[i].name]
    ensures AllowedChains(configs[..i + 1]) ==
            AllowedChains(configs[..i]) + (if configs[i].showInUI then [configs[i].chainId] else [])
  {
    var s := configs[..i + 1];
    assert s[..|s| - 1] == configs[..i];
    assert s[|s| - 1] == configs[i];
  }

  /** The constructor's loop over the configuration: the chain id → name
      table and the ids of the entries shown in the interface. */
  method Precompute(netConfigs: seq<NetworkConfig>) returns (names: map<int, string>, allowed: seq<int>)
    ensures names == ChainNames(netConfigs)
    ensures allowed == AllowedChains(netConfigs)
  {
    names := map[];
    allowed := [];
    var i := 0;
    while i < |netConfigs|
      invariant 0 <= i <= |netConfigs|
      invariant names == ChainNames(netConfigs[..i])
      invariant allowed == AllowedChains(netConfigs[..i])
    {
      var cfg := netConfigs[i];
      PrecomputeStep(netConfigs, i);
      names := names[cfg.chainId := cfg.name];
      if cfg.showInUI {
        allowed := allowed + [cfg.chainId];
      }
      i := i + 1;
    }
    assert netConfigs[..|netConfigs|] == netConfigs;
  }

  // ---------------------------------------------------------------
  // The connection manager
  // ---------------------------------------------------------------

  class ConnectWallet {
    var configs: seq<NetworkConfig>
    var providers: seq<ProviderDetail>
    var storage: Storage
    /** The provider whose events are being listened to. */
    var currentProvider: Option<nat>
    var nameResolutionOrder: string
    var chainIdToName: map<int, string>
    var allowedChains: seq<int>

    ghost predicate Valid()
      reads this`providers, this`configs, this`allowedChains, this`chainIdToName
    {
      && NamesUnique(providers)
      && allowedChains == AllowedChains(configs)
      && chainIdToName == ChainNames(configs)
    }

    /** The constructor's precomputation; `order` "" stands for an absent
        option. Discovery and restoring the session are separate steps. */
    constructor (netConfigs: seq<NetworkConfig>, store: Storage, order: string)
      ensures Valid()
      ensures configs == netConfigs && storage == store && providers == []
      ensures currentProvider.None?
      ensures nameResolutionOrder == if order == "" then WNS_FIRST else order
    {
      configs := netConfigs;
      providers := [];
      storage := store;
      currentProvider := None;
      nameResolutionOrder := if order == "" then WNS_FIRST else order;
      var names, allowed := Precompute(netConfigs);
      chainIdToName := names;
      allowedChains := allowed;
    }

    // ----- storage getters -----

    function IsConnected(): (r: bool)
      reads this`storage
      ensures r <==> IS_CONNECTED_KEY in storage && storage[IS_CONNECTED_KEY] == "true"
    {
      IS_CONNECTED_KEY in storage && storage[IS_CONNECTED_KEY] == "true"
    }

    function CurrentChainId(): (r: Option<string>)
      reads this`storage
      ensures r.Some? <==> CHAIN_ID_KEY in storage
      ensures r.Some? ==> r.value == storage[CHAIN_ID_KEY]
    {
      if CHAIN_ID_KEY in storage then Some(storage[CHAIN_ID_KEY]) else None
    }

    function LastWallet(): (r: Option<string>)
      reads this`storage
      ensures r.Some? <==> LAST_WALLET_KEY in storage
      ensures r.Some? ==> r.value == storage[LAST_WALLET_KEY]
    {
      if LAST_WALLET_KEY in storage then Some(storage[LAST_WALLET_KEY]) else None
    }

    /** `isAllowed`: the normalised id is one of the visible entries' ids. */
    function IsAllowed(c: ChainIdInput): (r: bool)
      requires Valid()
      reads this`providers, this`configs, this`allowedChains, this`chainIdToName
      ensures r <==> exists k :: 0 <= k < |configs| && configs[k].showInUI
                                 && Some(configs[k].chainId) == NormalizeChainId(c)
    {
      var n := NormalizeChainId(c);
      if n.Some? then AllowedChainsSpec(configs, n.value); n.value in allowedChains
      else false
    }

    /** `getConnectedProvider`: the provider announced under the stored
        wallet name, if any. */
    function GetConnectedProvider(): (r: Option<nat>)
      reads this`storage, this`providers
      ensures r.Some? <==> LAST_WALLET_KEY in storage && HasName(providers, storage[LAST_WALLET_KEY])
      ensures r.Some? ==> exists k :: 0 <= k < |providers| && providers[k].provider == r.value
                             && providers[k].info.name == storage[LAST_WALLET_KEY]
    {
      match LastWallet()
      case None => None
      case Some(name) =>
        match FindProvider(providers, name)
        case None => None
        case Some(d) => Some(d.provider)
    }

    /** `getAccount`, given the answer to `eth_accounts`. */
    function GetAccount(answer: RpcResult<seq<string>>): (r: Option<string>)
      reads this`storage, this`providers
      ensures r.Some? <==> GetConnectedProvider().Some? && answer.Answered?
                           && |answer.value| > 0 && answer.value[0] != ""
      ensures r.Some? ==> r.value == answer.value[0]
    {
      if GetConnectedProvider().None? then None
      else match answer
        case Rejected(_) => None
        case Answered(accounts) => if |accounts| > 0 && accounts[0] != "" then Some(accounts[0]) else None
    }

    /** `getChainId`, given the answer to `eth_chainId`. */
    function GetChainId(answer: RpcResult<string>): (r: Option<int>)
      reads this`storage, this`providers
      ensures GetConnectedProvider().None? || answer.Rejected? ==> r.None?
      ensures GetConnectedProvider().Some? && answer.Answered? ==> r == NormalizeChainId(Str(answer.value))
    {
      if GetConnectedProvider().None? then None
      else match answer
        case Rejected(_) => None
        case Answered(raw) => NormalizeChainId(Str(raw))
    }

    // ----- provider registry -----

    /** `handleProviderAnnounce`: `added` when the name is new; `reconnect`
        when the new provider is the stored, connected wallet (the caller
        then runs ConnectTo with that name). */
    method HandleProviderAnnounce(d: ProviderDetail) returns (added: bool, reconnect: bool)
      requires Valid()
      modifies this`providers
      ensures Valid()
      ensures added <==> !HasName(old(providers), d.info.name)
      ensures providers == Register(old(providers), d)
      ensures reconnect <==> added && IsConnected() && LastWallet() == Some(d.info.name)
    {
      added := !HasName(providers, d.info.name);
      reconnect := false;
      if added {
        providers := providers + [d];
        reconnect := IsConnected() && LastWallet() == Some(d.info.name);
      }
    }

    // ----- session operations -----

    /** `setupProviderEvents`: listeners move to `p` unless already there. */
    method SetupProviderEvents(p: nat) returns (rebound: bool)
      modifies this`currentProvider
      ensures rebound <==> old(currentProvider) != Some(p)
      ensures currentProvider == Some(p)
    {
      rebound := currentProvider != Some(p);
      currentProvider := Some(p);
    }

    method UpdateNetworkStatus(chainId: string)
      modifies this`storage
      ensures storage == NetworkStatus(old(storage), chainId)
    {
      if IsVisibleChain(Registry, chainId) {
        storage := storage[CHAIN_ID_KEY := chainId];
      } else {
        storage := storage - {CHAIN_ID_KEY};
      }
    }

    /** `connectWallet(name)` with the wallet's answers to
        `eth_requestAccounts` and `eth_chainId`. */
    method ConnectTo(name: string, accounts: RpcResult<seq<string>>, chain: RpcResult<string>)
      returns (outcome: ConnectOutcome)
      requires Valid()
      modifies this`storage, this`currentProvider
      ensures Valid()
      ensures outcome.NoSuchProvider? <==> !HasName(providers, name)
      ensures outcome.Connected? <==> HasName(providers, name) && accounts.Answered? && chain.Answered?
      ensures !outcome.Connected? ==> storage == old(storage) && currentProvider == old(currentProvider)
      ensures outcome.Connected? ==>
                && outcome.accounts == accounts.value && outcome.chainId == chain.value
                && outcome.providerName == name
                && Some(outcome.provider) == GetConnectedProvider()
                && currentProvider == Some(outcome.provider)
                && storage == NetworkStatus(old(storage)[CHAIN_ID_KEY := chain.value]
                                                       [LAST_WALLET_KEY := name]
                                                       [IS_CONNECTED_KEY := "true"], chain.value)
                && IsConnected() && LastWallet() == Some(name)
    {
      var found := FindProvider(providers, name);
      if found.None? {
        return NoSuchProvider;
      }
      var d := found.value;
      if accounts.Rejected? {
        return ConnectFailed(accounts.message);
      }
      if chain.Rejected? {
        return ConnectFailed(chain.message);
      }
      RecordConnection(d.provider, name, chain.value);
      assert GetConnectedProvider() == Some(d.provider);
      outcome := Connected(accounts.value, chain.value, d.provider, d.info.name);
    }

    /** The success path of `connectWallet`: the session is stored, the
        provider's events are listened to, and the chain id re-validated. */
    method RecordConnection(provider: nat, name: string, chainId: string)
      modifies this`storage, this`currentProvider
      ensures currentProvider == Some(provider)
      ensures storage == NetworkStatus(old(storage)[CHAIN_ID_KEY := chainId]
                                                   [LAST_WALLET_KEY := name]
                                                   [IS_CONNECTED_KEY := "true"], chainId)
      ensures IsConnected() && LastWallet() == Some(name)
    {
      storage := storage[CHAIN_ID_KEY := chainId];
      storage := storage[LAST_WALLET_KEY := name];
      storage := storage[IS_CONNECTED_KEY := "true"];
      var _ := SetupProviderEvents(provider);
      ghost var before := storage;
      UpdateNetworkStatus(chainId);
      ConnectedSession(before, chainId, name);
    }

    /** `switchNetwork(net)` with the wallet's answer to
        `wallet_switchEthereumChain`. */
    method SwitchNetwork(net: NetworkConfig, answer: RpcResult<()>) returns (outcome: SwitchOutcome)
      modifies this`storage
      ensures outcome.NoProvider? <==> GetConnectedProvider().None?
      ensures outcome.Switched? <==> GetConnectedProvider().Some? && answer.Answered?
      ensures outcome.Switched? ==>
                storage == NetworkStatus(old(storage)[CHAIN_ID_KEY := net.chainIdHex], net.chainIdHex)
      ensures !outcome.Switched? ==> storage == old(storage)
    {
      if GetConnectedProvider().None? {
        return NoProvider;
      }
      if answer.Rejected? {
        return SwitchFailed(answer.message);
      }
      storage := storage[CHAIN_ID_KEY := net.chainIdHex];
      UpdateNetworkStatus(net.chainIdHex);
      outcome := Switched;
    }

    /** `disconnect()`. The revocation request goes to the connected
        provider when there is one and its outcome is ignored; the session is
        cleared, the disconnect callback fires, then the "ethereum" entry's
        hex id is re-stored. `threw` when the instance's table has no
        "ethereum" entry, which makes the last step throw. */
    method Disconnect() returns (revokeRequested: bool, disconnectFired: bool, threw: bool)
      modifies this`storage, this`currentProvider
      ensures revokeRequested <==> old(GetConnectedProvider()).Some?
      ensures disconnectFired
      ensures currentProvider.None?
      ensures threw <==> ConfigByKey(configs, "ethereum").None?
      ensures !threw ==> storage == NetworkStatus(ClearSession(old(storage)),
                                                  ConfigByKey(configs, "ethereum").value.chainIdHex)
      ensures threw ==> storage == ClearSession(old(storage))
      ensures !IsConnected() && LastWallet().None?
      ensures configs == Registry ==> storage == ClearSession(old(storage))[CHAIN_ID_KEY := "0x1"]
    {
      revokeRequested := GetConnectedProvider().Some?;
      currentProvider := None;
      storage := ClearSession(storage);
      disconnectFired := true;
      var eth := ConfigByKey(configs, "ethereum");
      if eth.None? {
        threw := true;
        return;
      }
      threw := false;
      UpdateNetworkStatus(eth.value.chainIdHex);
      DefaultChainVisible();
    }

    /** `restoreState()`: re-validate the stored chain id (or the
        "ethereum" default when none is stored) and, for a connected
        session whose wallet is announced, listen to that wallet again. */
    method RestoreState() returns (threw: bool)
      modifies this`storage, this`currentProvider
      ensures threw <==> (old(CurrentChainId()) == None || old(CurrentChainId()) == Some(""))
                         && ConfigByKey(configs, "ethereum").None?
      ensures threw ==> storage == old(storage) && currentProvider == old(currentProvider)
      ensures !threw ==>
                storage == NetworkStatus(old(storage),
                  if old(CurrentChainId()).Some? && old(CurrentChainId()).value != "" then old(CurrentChainId()).value
                  else ConfigByKey(configs, "ethereum").value.chainIdHex)
      ensures !threw && IsConnected() && GetConnectedProvider().Some? ==> currentProvider == GetConnectedProvider()
      ensures !(IsConnected() && GetConnectedProvider().Some?) ==> currentProvider == old(currentProvider)
    {
      var stored := CurrentChainId();
      var chainId: string;
      if stored.Some? && stored.value != "" {
        chainId := stored.value;
      } else {
        var eth := ConfigByKey(configs, "ethereum");
        if eth.None? {
          return true;
        }
        chainId := eth.value.chainIdHex;
      }
      threw := false;
      UpdateNetworkStatus(chainId);
      if IsConnected() {
        var p := GetConnectedProvider();
        if p.Some? {
          var d := FindProvider(providers, LastWallet().value);
          var _ := SetupProviderEvents(d.value.provider);
        }
      }
    }

    /** The `chainChanged` listener: re-validate the id, then report it. */
    method OnChainChanged(chainId: string) returns (change: ChainChange)
      requires Valid()
      modifies this`storage
      ensures Valid()
      ensures storage == NetworkStatus(old(storage), chainId)
      ensures change.chainId == NormalizeChainId(Str(chainId)) && change.hexChainId == chainId
      ensures change.allowed == IsAllowed(Str(chainId))
      ensures var n := change.chainId;
              change.name == if n.Some? && n.value in chainIdToName && chainIdToName[n.value] != ""
                             then chainIdToName[n.value] else "Unknown (" + chainId + ")"
    {
      UpdateNetworkStatus(chainId);
      var n := NormalizeChainId(Str(chainId));
      var name := if n.Some? && n.value in chainIdToName && chainIdToName[n.value] != ""
                  then chainIdToName[n.value] else "Unknown (" + chainId + ")";
      change := ChainChange(n, chainId, name, IsAllowed(Str(chainId)));
    }

    /** The `accountsChanged` listener: an empty list disconnects, with
        everything `disconnect` does (the revoke request, the event, the
        cleared session, and the reset to "ethereum" or its throw). */
    method OnAccountsChanged(accounts: seq<string>)
      returns (disconnected: bool, revokeRequested: bool, threw: bool)
      modifies this`storage, this`currentProvider
      ensures disconnected <==> |accounts| == 0
      ensures !disconnected ==>
                storage == old(storage) && currentProvider == old(currentProvider)
                && !revokeRequested && !threw
      ensures disconnected ==>
                && currentProvider.None?
                && (revokeRequested <==> old(GetConnectedProvider()).Some?)
                && (threw <==> ConfigByKey(configs, "ethereum").None?)
                && (!threw ==> storage == NetworkStatus(ClearSession(old(storage)),
                                                         ConfigByKey(configs, "ethereum").value.chainIdHex))
                && (threw ==> storage == ClearSession(old(storage)))
                && !IsConnected() && LastWallet().None?
    {
      disconnected := |accounts| == 0;
      revokeRequested, threw := false, false;
      if disconnected {
        var fired;
        revokeRequested, fired, threw := Disconnect();
      }
    }

    /** `setNameResolutionOrder`: only the two known orders are taken;
        `reresolve` when a connected session triggers a new lookup. */
    method SetNameResolutionOrder(order: string) returns (accepted: bool, reresolve: bool)
      modifies this`nameResolutionOrder
      ensures accepted <==> order == WNS_FIRST || order == ENS_FIRST
      ensures nameResolutionOrder == if accepted then order else old(nameResolutionOrder)
      ensures reresolve <==> accepted && IsConnected()
    {
      accepted := order == WNS_FIRST || order == ENS_FIRST;
      reresolve := false;
      if accepted {
        nameResolutionOrder := order;
        reresolve := IsConnected();
      }
    }
  }
}
