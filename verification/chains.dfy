/** The chain registry and the pure helpers of the wallet library:
    chain-id normalisation, network lookup, the allow-list of visible
    networks, explorer links and shortened addresses and hashes. */
module Chains {
  import opened Common

  /** One entry of the network table. `key` is the property name under
      which the entry sits in the configuration object. */
  datatype NetworkConfig = NetworkConfig(
    key: string,
    name: string,
    rpcUrl: string,
    chainId: int,
    chainIdHex: string,
    icon: string,
    explorerUrl: string,
    showInUI: bool)

  const Ethereum: NetworkConfig := NetworkConfig(
    "ethereum", "Ethereum", "https://ethereum-rpc.publicnode.com", 1, "0x1",
    "./assets/img/eth.png", "https://etherscan.io/tx/", true)

  /** The module-level table, in property order. */
  const Registry: seq<NetworkConfig> := [Ethereum]

  const DEFAULT_EXPLORER: string := "https://etherscan.io/tx/"

  /** A chain id as it reaches the library: a string (hex from the wallet,
      or decimal) or a number. */
  datatype ChainIdInput = Str(s: string) | Num(n: int)

  predicate HasHexPrefix(s: string) {
    |s| >= 2 && s[..2] == "0x"
  }

  /** `normalizeChainId`: a "0x"-prefixed string is read in base 16, any
      other string in base 10, a number is kept. `None` is JavaScript's NaN. */
  function NormalizeChainId(c: ChainIdInput): (r: Option<int>)
    ensures c.Num? ==> r == Some(c.n)
    ensures c.Str? && HasHexPrefix(c.s) ==> r == ParseBase(c.s[2..], 16)
    ensures c.Str? && !HasHexPrefix(c.s) ==> r == ParseBase(c.s, 10)
  {
    match c
    case Num(n) => Some(n)
    case Str(s) =>
      if HasHexPrefix(s) then
        match ParseBase(s[2..], 16)
        case None => None
        case Some(v) => Some(v)
      else
        match ParseBase(s, 10)
        case None => None
        case Some(v) => Some(v)
  }

  /** Normalisation undoes the hex rendering of a chain id ("0x" followed
      by lower-case hex digits, as wallets report it). */
  lemma NormalizeHexRoundTrip(n: nat)
    ensures NormalizeChainId(Str("0x" + ToBase(n, 16))) == Some(n)
  {
    var h := "0x" + ToBase(n, 16);
    assert h[..2] == "0x";
    assert h[2..] == ToBase(n, 16);
    ParseToBase(n, 16);
  }

  /** Normalisation undoes the decimal rendering of a chain id. */
  lemma NormalizeDecimalRoundTrip(n: nat)
    ensures NormalizeChainId(Str(NatToString(n))) == Some(n)
  {
    var d := NatToString(n);
    ParseBaseAccepts(d, 10);
    assert !HasHexPrefix(d) by {
      if |d| >= 2 { assert d[..2][1] == d[1]; }
    }
  }

  /** The `find` predicate of `getNetworkByChainId`: equal normalised
      numbers, or the very same hex string. */
  predicate NetworkMatches(net: NetworkConfig, c: ChainIdInput) {
    Some(net.chainId) == NormalizeChainId(c) || (c.Str? && net.chainIdHex == c.s)
  }

  /** `getNetworkByChainId`: the first entry that matches. */
  function GetNetworkByChainId(configs: seq<NetworkConfig>, c: ChainIdInput): (r: Option<NetworkConfig>)
    ensures r.None? <==> forall k :: 0 <= k < |configs| ==> !NetworkMatches(configs[k], c)
    ensures r.Some? ==> exists k :: 0 <= k < |configs| && configs[k] == r.value
                           && NetworkMatches(r.value, c)
                           && forall j :: 0 <= j < k ==> !NetworkMatches(configs[j], c)
    decreases |configs|
  {
    if configs == [] then None
    else if NetworkMatches(configs[0], c) then Some(configs[0])
    else
      var r := GetNetworkByChainId(configs[1..], c);
      if r.Some? then
        var k :| 0 <= k < |configs[1..]| && configs[1..][k] == r.value
                 && NetworkMatches(r.value, c)
                 && forall j :: 0 <= j < k ==> !NetworkMatches(configs[1..][j], c);
        assert configs[k + 1] == r.value;
        assert forall j :: 1 <= j < k + 1 ==> configs[j] == configs[1..][j - 1];
        r
      else
        assert forall k :: 1 <= k < |configs| ==> configs[k] == configs[1..][k - 1];
        r
  }

  /** `getVisibleNetworks`: the entries with `showInUI`, in order. */
  function VisibleNetworks(configs: seq<NetworkConfig>): (r: seq<NetworkConfig>)
    ensures forall net :: net in r <==> net in configs && net.showInUI
    decreases |configs|
  {
    if configs == [] then []
    else (if configs[0].showInUI then [configs[0]] else []) + VisibleNetworks(configs[1..])
  }

  /** Whether a chain id, as given, names a network of the table that is
      shown in the UI (the condition under which it is persisted). */
  predicate IsVisibleChain(configs: seq<NetworkConfig>, chainId: string) {
    var net := GetNetworkByChainId(configs, Str(chainId));
    net.Some? && net.value.showInUI
  }

  /** The allow-list the wallet constructor precomputes: the chain ids of
      the visible entries, in table order. */
  function AllowedChains(configs: seq<NetworkConfig>): seq<int>
    decreases |configs|
  {
    if configs == [] then []
    else
      var last := configs[|configs| - 1];
      AllowedChains(configs[..|configs| - 1]) + (if last.showInUI then [last.chainId] else [])
  }

  lemma {:induction false} AllowedChainsSpec(configs: seq<NetworkConfig>, n: int)
    ensures n in AllowedChains(configs) <==>
            exists k :: 0 <= k < |configs| && configs[k].showInUI && configs[k].chainId == n
    decreases |configs|
  {
    if configs != [] {
      var init := configs[..|configs| - 1];
      AllowedChainsSpec(init, n);
      assert forall k :: 0 <= k < |init| ==> configs[k] == init[k];
    }
  }

  /** The index of the last entry with chain id `n`, or -1 when there is none. */
  function LastIndex(configs: seq<NetworkConfig>, n: int): (k: int)
    ensures -1 <= k < |configs|
    ensures k >= 0 ==> configs[k].chainId == n
    ensures forall j :: k < j < |configs| ==> configs[j].chainId != n
    decreases |configs|
  {
    if configs == [] then -1
    else if configs[|configs| - 1].chainId == n then |configs| - 1
    else
      var init := configs[..|configs| - 1];
      assert forall j :: 0 <= j < |init| ==> configs[j] == init[j];
      LastIndex(init, n)
  }

  /** The chain-id → name index the wallet constructor precomputes: every
      id of the list is a key, and a later entry with the same id
      overwrites an earlier one, so the name kept is the last entry's. */
  function ChainNames(configs: seq<NetworkConfig>): (m: map<int, string>)
    ensures forall n :: n in m <==> LastIndex(configs, n) >= 0
    ensures forall n :: n in m ==> m[n] == configs[LastIndex(configs, n)].name
    decreases |configs|
  {
    if configs == [] then map[]
    else
      var init, last := configs[..|configs| - 1], configs[|configs| - 1];
      assert forall k :: 0 <= k < |init| ==> configs[k] == init[k];
      ChainNames(init)[last.chainId := last.name]
  }

  /** Every chain id of the list is a key of the index, and nothing else is. */
  lemma ChainNamesKeys(configs: seq<NetworkConfig>, n: int)
    ensures n in ChainNames(configs) <==> exists k :: 0 <= k < |configs| && configs[k].chainId == n
  {
    var k := LastIndex(configs, n);
    if k < 0 {
      assert forall j :: 0 <= j < |configs| ==> configs[j].chainId != n;
    }
  }

  /** `Notification.getExplorerUrl`: the explorer of the first entry with
      that numeric chain id when it has a non-empty one, Etherscan otherwise. */
  function ExplorerUrl(configs: seq<NetworkConfig>, txHash: string, chainId: int): (r: string)
    ensures exists p :: r == p + txHash
    ensures (forall k :: 0 <= k < |configs| ==> configs[k].chainId != chainId) ==> r == DEFAULT_EXPLORER + txHash
    ensures forall k :: 0 <= k < |configs| && configs[k].chainId == chainId
                        && (forall j :: 0 <= j < k ==> configs[j].chainId != chainId) ==>
              r == (if configs[k].explorerUrl != "" then configs[k].explorerUrl else DEFAULT_EXPLORER) + txHash
    decreases |configs|
  {
    if configs == [] then DEFAULT_EXPLORER + txHash
    else if configs[0].chainId == chainId then
      (if configs[0].explorerUrl != "" then configs[0].explorerUrl + txHash else DEFAULT_EXPLORER + txHash)
    else
      assert forall k :: 1 <= k < |configs| ==> configs[k] == configs[1..][k - 1];
      ExplorerUrl(configs[1..], txHash, chainId)
  }

  /** Shared shape of `shortenAddress` / `shortenHash`: empty input gives
      the empty string, otherwise a prefix of at most `start` characters,
      "..." and a suffix of at most `end` characters. */
  function Shorten(s: string, start: nat, end: nat): (r: string)
    ensures s == [] ==> r == []
    ensures s != [] ==> var a := if start <= |s| then start else |s|;
                        var b := if end <= |s| then end else |s|;
                        |r| == a + 3 + b && r[..a] == s[..a] && r[a..a + 3] == "..."
                        && r[a + 3..] == s[|s| - b..]
  {
    if s == [] then [] else Take(s, start) + "..." + TakeLast(s, end)
  }

  function ShortenAddress(address: string): (r: string)
    ensures address == [] ==> r == []
    ensures |address| >= 9 ==> |r| == 12 && r[..5] == address[..5] && r[5..8] == "..."
                               && r[8..] == address[|address| - 4..]
  {
    Shorten(address, 5, 4)
  }

  function ShortenHash(hash: string): (r: string)
    ensures hash == [] ==> r == []
    ensures |hash| >= 10 ==> |r| == 13 && r[..6] == hash[..6] && r[6..9] == "..."
                             && r[9..] == hash[|hash| - 4..]
  {
    Shorten(hash, 6, 4)
  }

  /** The registry is consistent: every entry's hex id normalises to its
      numeric id. */
  lemma RegistryConsistent()
    ensures forall k :: 0 <= k < |Registry| ==>
              NormalizeChainId(Str(Registry[k].chainIdHex)) == Some(Registry[k].chainId)
  {
    var h := Ethereum.chainIdHex;
    assert HasHexPrefix(h) && h[2..] == "1";
  }
}
