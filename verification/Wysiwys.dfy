/**
 * The browser's check before party A signs (apps/web/src/lib/mpc/wysiwys.ts): what the server asks
 * to sign is what the user typed.
 */
module Wysiwys {
  import opened Types
  import opened Text
  import opened EthTransfer

  /** The user's input, the server's answer, and the token the page was configured with. */
  datatype Check = Check(
    userToAddress: string, userAmount: string, digest: Digest, amountWei: string, tx: StoredTx,
    userData: string, asset: Asset, tokenAddress: Option<string>)

  datatype WysiwysError =
    | BadAmount | BadRecipient | BadCalldata | AmountMismatch | BadTxTo | NoToken | TokenMismatch | NonZeroValue
    | DataMismatch | RecipientMismatch | ValueMismatch | BadChainId | NotSepolia | BadTxFields | DigestMismatch

  function AssertWysiwysDigest(c: Codec, p: Check): Result<Digest, WysiwysError> {
    match ParseWithdrawAmountToWei(c, p.userAmount)
    case None => Err(BadAmount)
    case Some(wei) =>
      match c.getAddress(p.userToAddress)
      case None => Err(BadRecipient)
      case Some(recipient) =>
        match NormalizeTxData(p.tx.data)
        case None => Err(BadCalldata)
        case Some(txData) =>
          if p.amountWei != ToDecimal(wei) then Err(AmountMismatch)
          else
            match c.getAddress(p.tx.to)
            case None => Err(BadTxTo)
            case Some(txTo) =>
              match CheckAsset(c, p, wei, recipient, txTo, txData)
              case Some(err) => Err(err)
              case None =>
                match ParseBigInt(p.tx.chainId)
                case None => Err(BadChainId)
                case Some(chainId) =>
                  if chainId != SEPOLIA_CHAIN_ID then Err(NotSepolia)
                  else
                    match TxFromStoredFields(c, p.tx)
                    case None => Err(BadTxFields)
                    case Some(rebuilt) =>
                      if c.digest(rebuilt) != p.digest then Err(DigestMismatch) else Ok(c.digest(rebuilt))
  }

  /** The asset-specific part of the check; None when it passes. */
  function CheckAsset(c: Codec, p: Check, wei: nat, recipient: Address, txTo: Address, txData: string): Option<WysiwysError> {
    match p.asset
    case ERC20 =>
      if p.tokenAddress.None? || p.tokenAddress.value == "" then Some(NoToken)
      else
        (match (c.getAddress(p.tokenAddress.value), EncodeErc20Transfer(c, recipient, wei))
         case (Some(token), Some(data)) =>
           if txTo != token then Some(TokenMismatch)
           else if p.tx.value != "0" then Some(NonZeroValue)
           else if txData != data then Some(DataMismatch)
           else None
         case _ => Some(NoToken))
    case ETH =>
      if NormalizeTxData(p.userData).None? then Some(BadCalldata)
      else if txTo != recipient then Some(RecipientMismatch)
      else if p.tx.value != ToDecimal(wei) then Some(ValueMismatch)
      else if Some(txData) != NormalizeTxData(p.userData) then Some(DataMismatch)
      else None
  }

  function TokenOf(c: Codec, p: Check): Option<Address> {
    if p.tokenAddress.None? || p.tokenAddress.value == "" then None else c.getAddress(p.tokenAddress.value)
  }

  /** `tx` is the transfer the user typed: for ETH with the user's own calldata, which may be none. */
  predicate IsTyped(c: Codec, p: Check, tx: Tx, recipient: Address, wei: nat) {
    match p.asset
    case ERC20 => IsTransfer(c, tx, ERC20, recipient, wei, TokenOf(c, p))
    case ETH =>
      tx.chainId == SEPOLIA_CHAIN_ID && tx.to == recipient && tx.value == wei && Some(tx.data) == NormalizeTxData(p.userData)
  }

  /** Without calldata of the user's it is a plain transfer. */
  lemma TypedIsTransfer(c: Codec, p: Check, tx: Tx, recipient: Address, wei: nat)
    requires NormalizeTxData(p.userData) == Some("0x")
    ensures IsTyped(c, p, tx, recipient, wei) <==> IsTransfer(c, tx, p.asset, recipient, wei, TokenOf(c, p))
  {
  }

  /** The answer carries `tx`, and `tx` is the transfer the user typed. */
  ghost predicate Binds(c: Codec, p: Check, tx: Tx) {
    && TxFromStoredFields(c, p.tx) == Some(tx)
    && c.digest(tx) == p.digest
    && p.tx.value == ToDecimal(tx.value)
    && c.getAddress(p.userToAddress).Some?
    && exists wei: nat ::
         && TypedAmount(c, p.userAmount, wei) && p.amountWei == ToDecimal(wei)
         && IsTyped(c, p, tx, c.getAddress(p.userToAddress).value, wei)
  }

  /**
   * The check passes exactly on answers that bind the digest to the typed transfer. Whatever the server
   * sends, a digest that passes is the digest of that one transfer, up to nonce and gas fields.
   */
  lemma AcceptsExactlyTheUsersTransfer(c: Codec, p: Check, d: Digest)
    ensures AssertWysiwysDigest(c, p) == Ok(d) <==> d == p.digest && exists tx :: Binds(c, p, tx)
  {
    AmountIsTyped(c, p.userAmount);
    if AssertWysiwysDigest(c, p) == Ok(d) {
      var tx, wei := TxFromStoredFields(c, p.tx).value, ParseWithdrawAmountToWei(c, p.userAmount).value;
      ValueAsPrinted(c, p, tx);
      CheckedDataIsTheCall(c, p, c.getAddress(p.userToAddress).value, wei);
      assert TypedAmount(c, p.userAmount, wei);
      assert Binds(c, p, tx);
    }
    if d == p.digest && exists tx :: Binds(c, p, tx) {
      var tx :| Binds(c, p, tx);
      BoundPasses(c, p, tx);
    }
  }

  /** The check compares calldata by its bytes. */
  lemma CheckedDataIsTheCall(c: Codec, p: Check, recipient: Address, wei: nat)
    requires NormalizeTxData(p.tx.data).Some?
    ensures EncodeErc20Transfer(c, recipient, wei) == NormalizeTxData(p.tx.data) <==>
            Calldata(NormalizeTxData(p.tx.data).value) == Calldata(c.abiTransfer(recipient, wei))
    ensures Calldata(NormalizeTxData(p.tx.data).value).Some?
  {
    NormalizesHex(p.tx.data);
    NormalizingKeepsTheBytes(p.tx.data);
    NormalizesHex(c.abiTransfer(recipient, wei));
    if Calldata(c.abiTransfer(recipient, wei)).Some? {
      NormalizedIsTheBytes(c.abiTransfer(recipient, wei), p.tx.data);
    }
  }

  lemma BoundPasses(c: Codec, p: Check, tx: Tx)
    requires Binds(c, p, tx)
    ensures AssertWysiwysDigest(c, p) == Ok(p.digest)
  {
    assert ToDecimal(0) == "0";
    AmountIsTyped(c, p.userAmount);
    var recipient := c.getAddress(p.userToAddress).value;
    var wei: nat :| TypedAmount(c, p.userAmount, wei) && p.amountWei == ToDecimal(wei) && IsTyped(c, p, tx, recipient, wei);
    CheckedDataIsTheCall(c, p, recipient, wei);
  }

  lemma ValueAsPrinted(c: Codec, p: Check, tx: Tx)
    requires AssertWysiwysDigest(c, p).Ok? && TxFromStoredFields(c, p.tx) == Some(tx)
    ensures p.tx.value == ToDecimal(tx.value)
    ensures tx.value == if p.asset.ERC20? then 0 else ParseWithdrawAmountToWei(c, p.userAmount).value
  {
    var value: nat := if p.asset.ERC20? then 0 else ParseWithdrawAmountToWei(c, p.userAmount).value;
    assert ToDecimal(0) == "0";
    assert p.tx.value == ToDecimal(value);
    DecimalRoundTrip(value);
  }

  /** A transaction that carries an accepted digest is the user's transfer, or collides with it. */
  lemma AcceptedDigestFixesTheTransfer(c: Codec, p: Check, signed: Tx)
    requires AssertWysiwysDigest(c, p) == Ok(c.digest(signed))
    ensures c.getAddress(p.userToAddress).Some?
    ensures || (exists wei: nat :: TypedAmount(c, p.userAmount, wei) && IsTyped(c, p, signed, c.getAddress(p.userToAddress).value, wei))
            || exists tx :: Binds(c, p, tx) && tx != signed && c.digest(tx) == c.digest(signed)
  {
    AcceptsExactlyTheUsersTransfer(c, p, c.digest(signed));
    var tx :| Binds(c, p, tx);
    assert c.digest(signed) == c.digest(tx);
  }

  /** An honest answer, for the typed transfer and the same token address, always passes. */
  lemma HonestAnswerIsAccepted(c: Codec, p: Check, tx: Tx, recipient: Address, amount: nat)
    requires StorableTx(c, tx)
    requires c.getAddress(p.userToAddress) == Some(recipient)
    requires TypedAmount(c, p.userAmount, amount)
    requires IsTyped(c, p, tx, recipient, amount)
    requires p.amountWei == ToDecimal(amount) && p.tx == ResponseFields(tx) && p.digest == c.digest(tx)
    ensures AssertWysiwysDigest(c, p) == Ok(c.digest(tx))
  {
    StorageRoundTrip(c, tx);
    assert TxFieldsForStorage(tx) == Some(ResponseFields(tx));
    assert Binds(c, p, tx);
    AcceptsExactlyTheUsersTransfer(c, p, p.digest);
  }

  /** The comparison of digests accumulates differences over the whole length. */
  method BytesEqual(a: seq<bv8>, b: seq<bv8>) returns (equal: bool)
    ensures equal <==> a == b
  {
    if |a| != |b| {
      return false;
    }
    var diff: bv8 := 0;
    for i := 0 to |a|
      invariant diff == 0 <==> a[..i] == b[..i]
    {
      assert a[..i + 1] == a[..i] + [a[i]] && b[..i + 1] == b[..i] + [b[i]];
      diff := diff | (a[i] ^ b[i]);
    }
    assert a[..|a|] == a && b[..|b|] == b;
    equal := diff == 0;
  }
}
