/** Selection of the ledger backend from the BLOCKCHAIN_MODE environment variable. */
module BlockchainFactory {
  import opened Wrappers

  /** The three adapter classes the factory can construct. */
  datatype AdapterKind = SimulatedAdapter | SandboxAdapter | MainnetAdapter

  /** `process.env.BLOCKCHAIN_MODE || "simulated"`: an unset or empty variable is falsy. */
  function Mode(env: Option<string>): (mode: string)
    ensures mode != ""
    ensures env.Some? && env.value != "" ==> mode == env.value
  {
    if env.Some? && env.value != "" then env.value else "simulated"
  }

  /** `createBlockchain()`: exact, case-sensitive matches pick the remote adapters,
      and every other mode falls through to the simulated one. */
  function CreateBlockchain(env: Option<string>): (k: AdapterKind)
    ensures k == SandboxAdapter <==> env == Some("sandbox")
    ensures k == MainnetAdapter <==> env == Some("mainnet")
    ensures k == SimulatedAdapter <==> env != Some("sandbox") && env != Some("mainnet")
  {
    var mode := Mode(env);
    if mode == "sandbox" then SandboxAdapter
    else if mode == "mainnet" then MainnetAdapter
    else SimulatedAdapter
  }

  lemma UnsetOrEmptyModeIsSimulated(env: Option<string>)
    requires env == None || env == Some("")
    ensures CreateBlockchain(env) == SimulatedAdapter
  {
  }

  /** Matching is case-sensitive: "Sandbox" is not "sandbox". */
  lemma CapitalisedModeIsSimulated()
    ensures CreateBlockchain(Some("Sandbox")) == SimulatedAdapter
    ensures CreateBlockchain(Some("MAINNET")) == SimulatedAdapter
  {
  }
}
