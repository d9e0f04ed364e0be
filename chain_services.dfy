/** The chain registry helpers (src/utils/chainServices.ts): lookups in the
    `CHAINS` table under the lower-cased chain name, and explorer URLs built
    from the entry found. The table's contents and the lower-casing function
    are inputs of the model (`Registry`). */
module ChainServices {
  import opened Wrappers
  import opened JsStrings

  /** `blockExplorers.default`. */
  datatype ExplorerConfig = ExplorerConfig(url: string, apiUrl: string, apiKey: Option<string>)

  /** An entry of `CHAINS`: its id, `rpcUrls.default` and `blockExplorers.default`. */
  datatype ChainConfig = ChainConfig(id: string, rpcUrl: string, explorer: ExplorerConfig)

  /** The result of `getApiScanConfig`. */
  datatype ApiScanConfig = ApiScanConfig(url: string, apiKey: string)

  /** `CHAINS` and `String.prototype.toLowerCase`. */
  datatype Registry = Registry(chains: map<string, ChainConfig>, lower: string -> string)

  /** `CHAINS[chain.toLowerCase()]`. */
  function Lookup(reg: Registry, chain: string): (r: Option<ChainConfig>)
    ensures r.Some? <==> reg.lower(chain) in reg.chains
    ensures r.Some? ==> r.value == reg.chains[reg.lower(chain)]
  {
    var key := reg.lower(chain);
    if key in reg.chains then Some(reg.chains[key]) else None
  }

  /** The message of the error thrown for a chain not in the table. */
  function Unsupported(chain: string): string
  {
    "Unsupported chain: " + chain
  }

  /** `getChainId`: the entry's id, or `undefined`. */
  function GetChainId(reg: Registry, chain: string): (r: Option<string>)
    ensures r.None? <==> reg.lower(chain) !in reg.chains
    ensures r.Some? ==> r.value == reg.chains[reg.lower(chain)].id
  {
    match Lookup(reg, chain)
    case None => None
    case Some(cfg) => Some(cfg.id)
  }

  /** `getRpcUrl`: the entry's default RPC URL; throws for an unknown chain. */
  function GetRpcUrl(reg: Registry, chain: string): (r: Result<string, string>)
    ensures r.Err? <==> reg.lower(chain) !in reg.chains
    ensures r.Err? ==> r.error == Unsupported(chain)
    ensures r.Ok? ==> r.value == reg.chains[reg.lower(chain)].rpcUrl
  {
    match Lookup(reg, chain)
    case None => Err(Unsupported(chain))
    case Some(cfg) => Ok(cfg.rpcUrl)
  }

  /** `getApiScanConfig`: the explorer's API URL and its key, `""` when it has
      none (`apiKey || ""`); throws for an unknown chain. */
  function GetApiScanConfig(reg: Registry, chain: string): (r: Result<ApiScanConfig, string>)
    ensures r.Err? <==> reg.lower(chain) !in reg.chains
    ensures r.Err? ==> r.error == Unsupported(chain)
    ensures r.Ok? ==> r.value.url == reg.chains[reg.lower(chain)].explorer.apiUrl
    ensures r.Ok? ==> r.value.apiKey == reg.chains[reg.lower(chain)].explorer.apiKey.GetOr("")
  {
    match Lookup(reg, chain)
    case None => Err(Unsupported(chain))
    case Some(cfg) =>
      var key := cfg.explorer.apiKey;
      Ok(ApiScanConfig(cfg.explorer.apiUrl, if key.Some? && key.value != "" then key.value else ""))
  }

  /** `${base}${segment}${address}` for a known chain, `"#"` otherwise. */
  function ExplorerLink(reg: Registry, chain: string, segment: string, address: string): string
  {
    match Lookup(reg, chain)
    case None => "#"
    case Some(cfg) => cfg.explorer.url + segment + address
  }

  /** `getExplorerUrl`: `"#"` exactly for an unknown chain, else the explorer's
      address page, which ends with the address. */
  function GetExplorerUrl(reg: Registry, chain: string, address: string): (r: string)
    ensures r == "#" <==> reg.lower(chain) !in reg.chains
    ensures reg.lower(chain) in reg.chains ==>
      r == reg.chains[reg.lower(chain)].explorer.url + "/address/" + address && EndsWith(r, address)
  {
    var r := ExplorerLink(reg, chain, "/address/", address);
    assert reg.lower(chain) in reg.chains ==> |r| >= 9 && r[|r| - |address|..] == address;
    r
  }

  /** `getExplorerTokenUrl`: `"#"` exactly for an unknown chain, else the
      explorer's token page, which ends with the address. */
  function GetExplorerTokenUrl(reg: Registry, chain: string, address: string): (r: string)
    ensures r == "#" <==> reg.lower(chain) !in reg.chains
    ensures reg.lower(chain) in reg.chains ==>
      r == reg.chains[reg.lower(chain)].explorer.url + "/token/" + address && EndsWith(r, address)
  {
    var r := ExplorerLink(reg, chain, "/token/", address);
    assert reg.lower(chain) in reg.chains ==> |r| >= 7 && r[|r| - |address|..] == address;
    r
  }

  /** Every lookup treats a chain name and its lower-cased form alike, given
      that lower-casing is idempotent on that name. The error message of the
      throwing helpers still quotes the name as given. */
  lemma LookupIgnoresCase(reg: Registry, chain: string, address: string)
    requires reg.lower(reg.lower(chain)) == reg.lower(chain)
    ensures GetChainId(reg, reg.lower(chain)) == GetChainId(reg, chain)
    ensures GetRpcUrl(reg, reg.lower(chain)).Ok? == GetRpcUrl(reg, chain).Ok?
    ensures GetRpcUrl(reg, chain).Ok? ==> GetRpcUrl(reg, reg.lower(chain)) == GetRpcUrl(reg, chain)
    ensures GetApiScanConfig(reg, reg.lower(chain)).Ok? == GetApiScanConfig(reg, chain).Ok?
    ensures GetApiScanConfig(reg, chain).Ok? ==> GetApiScanConfig(reg, reg.lower(chain)) == GetApiScanConfig(reg, chain)
    ensures GetExplorerUrl(reg, reg.lower(chain), address) == GetExplorerUrl(reg, chain, address)
    ensures GetExplorerTokenUrl(reg, reg.lower(chain), address) == GetExplorerTokenUrl(reg, chain, address)
  {
  }

  const AvaxBytecodePrefix: string := "https://snowtrace.io/token/"
  const AvaxBytecodeSuffix: string := "/contract/code?chainid=43114"
  const AuroraBytecodePrefix: string := "https://explorer.mainnet.aurora.dev/api/v2/smart-contracts/"

  /** `getAVAXCExplorerBytecodeUrl`: a fixed Snowtrace URL around the address. */
  function AvaxCExplorerBytecodeUrl(address: string): (r: string)
    ensures |r| == |AvaxBytecodePrefix| + |address| + |AvaxBytecodeSuffix|
    ensures StartsWith(r, AvaxBytecodePrefix) && EndsWith(r, AvaxBytecodeSuffix)
    ensures r[|AvaxBytecodePrefix|..|r| - |AvaxBytecodeSuffix|] == address
  {
    var r := AvaxBytecodePrefix + address + AvaxBytecodeSuffix;
    assert r[..|AvaxBytecodePrefix|] == AvaxBytecodePrefix;
    assert r[|r| - |AvaxBytecodeSuffix|..] == AvaxBytecodeSuffix;
    assert r[|AvaxBytecodePrefix|..|r| - |AvaxBytecodeSuffix|] == address;
    r
  }

  /** `getAuroraExplorerBytecodeUrl`: a fixed Aurora explorer URL ending with the address. */
  function AuroraExplorerBytecodeUrl(address: string): (r: string)
    ensures StartsWith(r, AuroraBytecodePrefix)
    ensures r[|AuroraBytecodePrefix|..] == address
  {
    var r := AuroraBytecodePrefix + address;
    assert r[..|AuroraBytecodePrefix|] == AuroraBytecodePrefix;
    r
  }

  /** The bytecode URLs determine the address they were built from. */
  lemma BytecodeUrlsDetermineAddress(a: string, b: string)
    ensures AvaxCExplorerBytecodeUrl(a) == AvaxCExplorerBytecodeUrl(b) ==> a == b
    ensures AuroraExplorerBytecodeUrl(a) == AuroraExplorerBytecodeUrl(b) ==> a == b
  {
  }
}
