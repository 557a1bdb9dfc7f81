/** Agent records and the proof-of-representation (PoR) check that guards every write. */
module Por {
  import opened Wrappers

  datatype AgentRecord = AgentRecord(
    serviceId: string, ledgerId: string, address: string, publicKey: string,
    peerPublicKey: string, signature: string, notBefore: string, notAfter: string)

  datatype StatusCode =
    | Success | ErrorUnsupportedVersion | ErrorUnexpectedPayload | ErrorGeneric | ErrorDecode
    | ErrorWrongAgentAddress | ErrorWrongPublicKey | ErrorInvalidProof | ErrorUnsupportedLedger
    | ErrorUnknownAgentAddress | ErrorAgentNotReady

  /** The ledger primitives; `None` is an error return. */
  datatype Ledgers = Ledgers(
    fetchaiAddress: string -> Option<string>,
    cosmosAddress: string -> Option<string>,
    ethereumAddress: string -> Option<string>,
    verifyBtc: (string, string, string) -> Option<bool>,
    verifyEth: (string, string, string) -> Option<bool>)

  const SUPPORTED_LEDGERS: seq<string> := ["fetchai", "cosmos", "ethereum"]

  /** `AgentAddressFromPublicKey`: the address dispatch table. */
  function AddressOf(l: Ledgers, ledgerId: string, publicKey: string): Option<string> {
    if ledgerId == "fetchai" then l.fetchaiAddress(publicKey)
    else if ledgerId == "cosmos" then l.cosmosAddress(publicKey)
    else if ledgerId == "ethereum" then l.ethereumAddress(publicKey)
    else None
  }

  /** `VerifyLedgerSignature`: the signature dispatch table. */
  function Verify(l: Ledgers, ledgerId: string, message: string, signature: string, publicKey: string): Option<bool> {
    if ledgerId == "fetchai" || ledgerId == "cosmos" then l.verifyBtc(message, signature, publicKey)
    else if ledgerId == "ethereum" then l.verifyEth(message, signature, publicKey)
    else None
  }

  /** `IsValidProofOfRepresentation`: the code returns an error exactly with a code other than SUCCESS. */
  function CheckPor(l: Ledgers, record: AgentRecord, agentAddress: string, peerKey: string): StatusCode {
    if record.address != agentAddress then ErrorWrongAgentAddress
    else if record.ledgerId !in SUPPORTED_LEDGERS then ErrorUnsupportedLedger
    else if record.peerPublicKey != peerKey then ErrorWrongPublicKey
    else if AddressOf(l, record.ledgerId, record.publicKey) != Some(record.address) then ErrorWrongAgentAddress
    else if Verify(l, record.ledgerId, record.peerPublicKey, record.signature, record.publicKey) != Some(true)
      then ErrorInvalidProof
    else Success
  }

  /**
   * What a record proves, ledger by ledger: the agent key owns the address, and that key
   * signed the public key of the representing peer under the ledger's own scheme.
   */
  predicate Proved(l: Ledgers, r: AgentRecord) {
    || (r.ledgerId == "fetchai" && l.fetchaiAddress(r.publicKey) == Some(r.address)
        && l.verifyBtc(r.peerPublicKey, r.signature, r.publicKey) == Some(true))
    || (r.ledgerId == "cosmos" && l.cosmosAddress(r.publicKey) == Some(r.address)
        && l.verifyBtc(r.peerPublicKey, r.signature, r.publicKey) == Some(true))
    || (r.ledgerId == "ethereum" && l.ethereumAddress(r.publicKey) == Some(r.address)
        && l.verifyEth(r.peerPublicKey, r.signature, r.publicKey) == Some(true))
  }

  /** The check passes exactly for a proved record, its own address and the peer it names. */
  lemma PorBindsAgentAndPeer(l: Ledgers, record: AgentRecord, agentAddress: string, peerKey: string)
    ensures CheckPor(l, record, agentAddress, peerKey).Success?
            <==> Proved(l, record) && agentAddress == record.address && peerKey == record.peerPublicKey
  {
  }

  /** Each error code says exactly which requirement the record misses, given that those checked earlier are met. */
  lemma PorErrorCodes(l: Ledgers, record: AgentRecord, agentAddress: string, peerKey: string)
    ensures var code := CheckPor(l, record, agentAddress, peerKey);
            var derived := AddressOf(l, record.ledgerId, record.publicKey);
            var supported := record.ledgerId in {"fetchai", "cosmos", "ethereum"};
            && (code.ErrorUnsupportedLedger? <==> record.address == agentAddress && !supported)
            && (code.ErrorWrongPublicKey? <==> record.address == agentAddress && supported && record.peerPublicKey != peerKey)
            && (code.ErrorWrongAgentAddress? <==>
                  || record.address != agentAddress
                  || (supported && record.peerPublicKey == peerKey && derived != Some(agentAddress)))
            && (code.ErrorInvalidProof? <==>
                  && derived == Some(agentAddress) && record.address == agentAddress
                  && record.peerPublicKey == peerKey && !Proved(l, record))
            && (code.Success? || code.ErrorUnsupportedLedger? || code.ErrorWrongPublicKey?
                || code.ErrorWrongAgentAddress? || code.ErrorInvalidProof?)
  {
  }
}
