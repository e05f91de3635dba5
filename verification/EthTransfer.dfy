/**
 * Preparing a transfer (apps/api/src/mpc/eth-transfer.ts): fees, the four prepare functions,
 * and the string form a transaction is stored and sent to the browser in.
 */
module EthTransfer {
  import opened Types
  import opened Text

  const SEPOLIA_CHAIN_ID: nat := 11155111
  const TRANSFER_GAS_LIMIT: nat := 21_000
  const ERC20_TRANSFER_GAS_FALLBACK: nat := 100_000
  const FALLBACK_PRIORITY_FEE: nat := 1_000_000_000
  const TWO_TO_THE_256: nat := 0x1_0000000000000000_0000000000000000_0000000000000000_0000000000000000

  /** An unsigned type-2 transaction. */
  datatype Tx = Tx(
    to: Address, value: nat, nonce: nat, gasLimit: nat, maxFeePerGas: nat, maxPriorityFeePerGas: nat,
    chainId: nat, data: string)

  /** The foreign conversions of ethers. */
  datatype Codec = Codec(
    getAddress: string -> Option<Address>,
    parseEther: string -> Option<int>,
    abiTransfer: (Address, nat) -> string,
    digest: Tx -> Digest,
    serialize: (Tx, Signature) -> Raw,
    hash: Raw -> TxHash)

  /** What the model uses of ethers: checksumming is idempotent and ABI encoding gives hex. */
  ghost predicate CodecOk(c: Codec) {
    && (forall s: string :: c.getAddress(s).Some? ==>
          c.getAddress(c.getAddress(s).value) == c.getAddress(s))
    && (forall a: Address, n: nat :: NormalizeTxData(c.abiTransfer(a, n)).Some?)
  }

  datatype FeeData = FeeData(maxPriorityFeePerGas: Option<nat>, maxFeePerGas: Option<nat>, gasPrice: Option<nat>)

  datatype Fees = Fees(maxPriorityFeePerGas: nat, maxFeePerGas: nat, feeWei: nat)

  /** What the RPC provider answers while one transfer is prepared. */
  datatype Provider = Provider(
    chainId: nat, balance: nat, nonce: nat, feeData: FeeData,
    hasTokenCode: bool, tokenBalance: nat, estimateGas: Option<nat>)

  datatype Prepared = Prepared(tx: Tx, balanceWei: nat, feeWei: nat, valueWei: nat)

  datatype PrepareError =
    | SameAddress | NonPositiveAmount | ZeroBalance | BalanceBelowFee | InsufficientBalance | WrongChain
    | RecipientIsToken | NoTokenCode | InsufficientTokenBalance | InsufficientGas | ZeroTokenBalance | BadData
    | NoTokenConfigured

  function ResolveFees(feeData: FeeData, gasLimit: nat): Fees {
    var priority := match feeData.maxPriorityFeePerGas case Some(p) => p case None => FALLBACK_PRIORITY_FEE;
    var maxFee :=
      match feeData.maxFeePerGas
      case Some(m) => m
      case None =>
        if feeData.gasPrice.Some? && feeData.gasPrice.value != 0 then feeData.gasPrice.value * 2 else priority * 2;
    Fees(priority, maxFee, gasLimit * maxFee)
  }

  /** Sweep the whole ETH balance minus the largest possible fee. */
  function PrepareFullBalanceTransfer(net: Provider, from: Address, to: Address): (r: Result<Prepared, PrepareError>)
    ensures r.Ok? ==> 0 < r.value.tx.value && r.value.tx.to == to && r.value.tx.data == "0x"
    ensures r == Err(ZeroBalance) <==> from != to && net.balance == 0
  {
    var fees := ResolveFees(net.feeData, TRANSFER_GAS_LIMIT);
    if from == to then Err(SameAddress)
    else if net.balance == 0 then Err(ZeroBalance)
    else if net.balance <= fees.feeWei then Err(BalanceBelowFee)
    else if net.chainId != SEPOLIA_CHAIN_ID then Err(WrongChain)
    else
      var value := net.balance - fees.feeWei;
      Ok(Prepared(
           Tx(to, value, net.nonce, TRANSFER_GAS_LIMIT, fees.maxFeePerGas, fees.maxPriorityFeePerGas, net.chainId, "0x"),
           net.balance, fees.feeWei, value))
  }

  function PrepareAmountTransfer(net: Provider, from: Address, to: Address, amount: int): Result<Prepared, PrepareError> {
    var fees := ResolveFees(net.feeData, TRANSFER_GAS_LIMIT);
    if from == to then Err(SameAddress)
    else if amount <= 0 then Err(NonPositiveAmount)
    else if net.balance < amount + fees.feeWei then Err(InsufficientBalance)
    else if net.chainId != SEPOLIA_CHAIN_ID then Err(WrongChain)
    else
      Ok(Prepared(
           Tx(to, amount, net.nonce, TRANSFER_GAS_LIMIT, fees.maxFeePerGas, fees.maxPriorityFeePerGas, net.chainId, "0x"),
           net.balance, fees.feeWei, amount))
  }

  function EncodeErc20Transfer(c: Codec, to: Address, amount: nat): Option<string> {
    NormalizeTxData(c.abiTransfer(to, amount))
  }

  /** A padded estimate, unless it does not exceed a plain transfer or there is none. */
  function Erc20GasLimit(estimate: Option<nat>): nat {
    match estimate
    case None => ERC20_TRANSFER_GAS_FALLBACK
    case Some(e) => if e * 12 / 10 > TRANSFER_GAS_LIMIT then e * 12 / 10 else ERC20_TRANSFER_GAS_FALLBACK
  }

  function PrepareErc20AmountTransfer(
    c: Codec, net: Provider, from: Address, recipient: Address, amount: int, token: Address)
    : Result<Prepared, PrepareError>
  {
    if from == recipient then Err(SameAddress)
    else if recipient == token then Err(RecipientIsToken)
    else if amount <= 0 then Err(NonPositiveAmount)
    else if net.chainId != SEPOLIA_CHAIN_ID then Err(WrongChain)
    else if !net.hasTokenCode then Err(NoTokenCode)
    else
      match EncodeErc20Transfer(c, recipient, amount)
      case None => Err(BadData)
      case Some(data) =>
        var gasLimit := Erc20GasLimit(net.estimateGas);
        var fees := ResolveFees(net.feeData, gasLimit);
        if net.tokenBalance < amount then Err(InsufficientTokenBalance)
        else if net.balance < fees.feeWei then Err(InsufficientGas)
        else
          Ok(Prepared(
               Tx(token, 0, net.nonce, gasLimit, fees.maxFeePerGas, fees.maxPriorityFeePerGas, net.chainId, data),
               net.balance, fees.feeWei, 0))
  }

  function PrepareErc20FullBalanceTransfer(c: Codec, net: Provider, from: Address, to: Address, token: Address)
    : Result<Prepared, PrepareError>
  {
    if net.tokenBalance == 0 then Err(ZeroTokenBalance)
    else PrepareErc20AmountTransfer(c, net, from, to, net.tokenBalance, token)
  }

  // ---- Affordability under the Specification section of EIP-1559 ----

  /** The sender can be charged for the transaction in a block with this base fee. */
  predicate Includable(tx: Tx, balance: nat, baseFee: nat) {
    && tx.maxFeePerGas >= baseFee
    && tx.maxFeePerGas >= tx.maxPriorityFeePerGas
    && balance >= tx.value + tx.gasLimit * tx.maxFeePerGas
  }

  function EffectiveGasPrice(tx: Tx, baseFee: nat): nat
    requires tx.maxFeePerGas >= baseFee
  {
    var room := tx.maxFeePerGas - baseFee;
    baseFee + if tx.maxPriorityFeePerGas < room then tx.maxPriorityFeePerGas else room
  }

  /** The sender's balance after the transaction used `gasUsed` gas. */
  function BalanceAfter(tx: Tx, balance: int, baseFee: nat, gasUsed: nat): int
    requires tx.maxFeePerGas >= baseFee
  {
    balance - tx.value - gasUsed * EffectiveGasPrice(tx, baseFee)
  }

  /** The node accepts the fee fields exactly when the fee data a caller passes in satisfies this. */
  predicate FeeDataUsable(f: FeeData) {
    var priority := match f.maxPriorityFeePerGas case Some(p) => p case None => FALLBACK_PRIORITY_FEE;
    match f.maxFeePerGas
    case Some(m) => priority <= m
    case None => f.gasPrice.Some? && f.gasPrice.value != 0 ==> priority <= 2 * f.gasPrice.value
  }

  /** resolveFees keeps the priority fee within the fee cap exactly on usable fee data. */
  lemma FeeCapCoversPriority(f: FeeData, gasLimit: nat)
    ensures ResolveFees(f, gasLimit).maxPriorityFeePerGas <= ResolveFees(f, gasLimit).maxFeePerGas <==> FeeDataUsable(f)
  {
  }

  /** Fee data with only a small gas price: the fallback priority fee is far above the cap. */
  lemma CheapGasPriceBreaksFeeCap(gasLimit: nat)
    ensures var fees := ResolveFees(FeeData(None, None, Some(1)), gasLimit);
            fees.maxPriorityFeePerGas == 1_000_000_000 && fees.maxFeePerGas == 2
  {
  }

  /**
   * A full sweep spends the balance exactly at the fee cap, so it can always be included while the
   * base fee is under the cap, and what is left is the unspent part of the fee and nothing else.
   */
  lemma FullSweepIsAffordable(net: Provider, from: Address, to: Address, baseFee: nat)
    requires PrepareFullBalanceTransfer(net, from, to).Ok?
    ensures var p := PrepareFullBalanceTransfer(net, from, to).value;
            && p.tx.value + p.tx.gasLimit * p.tx.maxFeePerGas == net.balance
            && (baseFee <= p.tx.maxFeePerGas && FeeDataUsable(net.feeData) <==> Includable(p.tx, net.balance, baseFee))
            && (baseFee <= p.tx.maxFeePerGas ==>
                  BalanceAfter(p.tx, net.balance, baseFee, TRANSFER_GAS_LIMIT)
                  == TRANSFER_GAS_LIMIT * (p.tx.maxFeePerGas - EffectiveGasPrice(p.tx, baseFee)))
  {
  }

  /** An amount transfer is never prepared beyond the balance, and whatever is left is never negative. */
  lemma AmountTransferIsAffordable(net: Provider, from: Address, to: Address, amount: int, baseFee: nat)
    requires PrepareAmountTransfer(net, from, to, amount).Ok?
    ensures var tx := PrepareAmountTransfer(net, from, to, amount).value.tx;
            && tx.value == amount
            && (baseFee <= tx.maxFeePerGas && FeeDataUsable(net.feeData) <==> Includable(tx, net.balance, baseFee))
            && (baseFee <= tx.maxFeePerGas ==> 0 <= BalanceAfter(tx, net.balance, baseFee, TRANSFER_GAS_LIMIT))
  {
  }

  /**
   * An ERC-20 transfer costs ETH only for gas, is affordable at the fee cap for any gas use within its
   * limit, and its limit is above a plain transfer and at least any successful estimate.
   */
  lemma Erc20TransferIsAffordable(
    c: Codec, net: Provider, from: Address, to: Address, amount: int, token: Address, baseFee: nat, gasUsed: nat)
    requires PrepareErc20AmountTransfer(c, net, from, to, amount, token).Ok?
    requires gasUsed <= PrepareErc20AmountTransfer(c, net, from, to, amount, token).value.tx.gasLimit
    ensures var tx := PrepareErc20AmountTransfer(c, net, from, to, amount, token).value.tx;
            && amount <= net.tokenBalance
            && tx.gasLimit > TRANSFER_GAS_LIMIT
            && (net.estimateGas.Some? ==> tx.gasLimit >= net.estimateGas.value)
            && (baseFee <= tx.maxFeePerGas && FeeDataUsable(net.feeData) <==> Includable(tx, net.balance, baseFee))
            && (baseFee <= tx.maxFeePerGas ==> 0 <= BalanceAfter(tx, net.balance, baseFee, gasUsed))
  {
    var tx := PrepareErc20AmountTransfer(c, net, from, to, amount, token).value.tx;
    FeeCapCoversPriority(net.feeData, tx.gasLimit);
    if baseFee <= tx.maxFeePerGas {
      ProductMonotone(gasUsed, EffectiveGasPrice(tx, baseFee), tx.gasLimit, tx.maxFeePerGas);
    }
  }

  lemma ProductMonotone(a: nat, b: nat, x: nat, y: nat)
    requires a <= x && b <= y
    ensures a * b <= x * y
  {
  }

  // ---- Storing a transaction as decimal strings ----

  /** The JSON form of an unsigned transaction. */
  datatype StoredTx = StoredTx(
    to: string, value: string, nonce: nat, gasLimit: string, maxFeePerGas: string, maxPriorityFeePerGas: string,
    chainId: string, data: string)

  function TxFieldsForStorage(tx: Tx): Option<StoredTx> {
    match NormalizeTxData(tx.data)
    case None => None
    case Some(data) =>
      Some(StoredTx(
             tx.to, ToDecimal(tx.value), tx.nonce, ToDecimal(tx.gasLimit), ToDecimal(tx.maxFeePerGas),
             ToDecimal(tx.maxPriorityFeePerGas), ToDecimal(tx.chainId), data))
  }

  /** A 256-bit quantity read with BigInt; anything else is refused when the transaction is serialized. */
  function ParseQuantity(s: string): Option<nat> {
    match ParseBigInt(s)
    case None => None
    case Some(n) => if 0 <= n < TWO_TO_THE_256 then Some(n) else None
  }

  /** Rebuild the transaction, on Sepolia only. */
  function TxFromStoredFields(c: Codec, f: StoredTx): Option<Tx> {
    match (ParseBigInt(f.chainId), c.getAddress(f.to), NormalizeTxData(f.data))
    case (Some(chainId), Some(to), Some(data)) =>
      if chainId != SEPOLIA_CHAIN_ID then None
      else
        (match (ParseQuantity(f.value), ParseQuantity(f.gasLimit), ParseQuantity(f.maxFeePerGas),
                ParseQuantity(f.maxPriorityFeePerGas))
         case (Some(value), Some(gasLimit), Some(maxFee), Some(priority)) =>
           Some(Tx(to, value, f.nonce, gasLimit, maxFee, priority, chainId, data))
         case _ => None)
    case _ => None
  }

  /** ethers can encode the transaction, and so take its digest: every quantity fits in 256 bits. */
  predicate Encodable(tx: Tx) {
    && tx.value < TWO_TO_THE_256
    && tx.gasLimit < TWO_TO_THE_256
    && tx.maxFeePerGas < TWO_TO_THE_256
    && tx.maxPriorityFeePerGas < TWO_TO_THE_256
  }

  /** A type-2 Sepolia transaction with a checksummed recipient, canonical calldata and 256-bit numbers. */
  predicate StorableTx(c: Codec, tx: Tx) {
    c.getAddress(tx.to) == Some(tx.to) && CanonicalData(tx.data) && tx.chainId == SEPOLIA_CHAIN_ID && Encodable(tx)
  }

  lemma QuantityRoundTrip(n: nat)
    requires n < TWO_TO_THE_256
    ensures ParseQuantity(ToDecimal(n)) == Some(n)
  {
    DecimalRoundTrip(n);
  }

  /** Storing a type-2 Sepolia transaction and rebuilding it is the identity. */
  lemma StorageRoundTrip(c: Codec, tx: Tx)
    requires StorableTx(c, tx)
    ensures TxFieldsForStorage(tx).Some?
    ensures TxFromStoredFields(c, TxFieldsForStorage(tx).value) == Some(tx)
  {
    QuantityRoundTrip(tx.value);
    QuantityRoundTrip(tx.gasLimit);
    QuantityRoundTrip(tx.maxFeePerGas);
    QuantityRoundTrip(tx.maxPriorityFeePerGas);
    DecimalRoundTrip(tx.chainId);
  }

  /** Whatever stored fields rebuild to is a Sepolia transaction of those fields, with a checksummed recipient and their bytes. */
  lemma RebuiltIsWhatIsStored(c: Codec, f: StoredTx)
    ensures TxFromStoredFields(c, f).Some? ==>
              var tx := TxFromStoredFields(c, f).value;
              && tx.chainId == 11155111 == ParseBigInt(f.chainId).value && c.getAddress(f.to) == Some(tx.to) && tx.nonce == f.nonce
              && Calldata(f.data).Some? && Calldata(tx.data) == Calldata(f.data)
              && ParseBigInt(f.value) == Some(tx.value) && ParseBigInt(f.gasLimit) == Some(tx.gasLimit)
              && ParseBigInt(f.maxFeePerGas) == Some(tx.maxFeePerGas)
              && ParseBigInt(f.maxPriorityFeePerGas) == Some(tx.maxPriorityFeePerGas) && Encodable(tx)
  {
    if NormalizeTxData(f.data).Some? {
      NormalizesHex(f.data);
      NormalizingKeepsTheBytes(f.data);
    }
  }

  // ---- The user's transfer ----

  /** The typed amount, always read as an 18-decimal number and always positive. */
  function ParseWithdrawAmountToWei(c: Codec, amount: string): Option<nat> {
    if Trim(amount) == "" then None
    else
      match c.parseEther(Trim(amount))
      case None => None
      case Some(wei) => if wei <= 0 then None else Some(wei)
  }

  /** The text is an amount of ether, a positive number of wei, as ethers reads it. */
  predicate TypedAmount(c: Codec, text: string, wei: nat) {
    Trim(text) != "" && c.parseEther(Trim(text)) == Some(wei) && wei > 0
  }

  lemma AmountIsTyped(c: Codec, text: string)
    ensures forall wei: nat :: ParseWithdrawAmountToWei(c, text) == Some(wei) <==> TypedAmount(c, text, wei)
  {
  }

  /** The strings start sends for a transaction whose calldata is canonical hex. */
  function ResponseFields(tx: Tx): StoredTx {
    StoredTx(tx.to, ToDecimal(tx.value), tx.nonce, ToDecimal(tx.gasLimit), ToDecimal(tx.maxFeePerGas),
             ToDecimal(tx.maxPriorityFeePerGas), ToDecimal(tx.chainId), tx.data)
  }

  /** What a stored transaction rebuilds to, when it rebuilds at all, is the transaction that was stored. */
  lemma StoredFieldsRebuild(c: Codec, tx: Tx)
    requires c.getAddress(tx.to) == Some(tx.to) && CanonicalData(tx.data)
    ensures TxFromStoredFields(c, ResponseFields(tx)).Some? ==> TxFromStoredFields(c, ResponseFields(tx)) == Some(tx)
    ensures StorableTx(c, tx) ==> TxFromStoredFields(c, ResponseFields(tx)) == Some(tx)
  {
    DecimalRoundTrip(tx.value);
    DecimalRoundTrip(tx.gasLimit);
    DecimalRoundTrip(tx.maxFeePerGas);
    DecimalRoundTrip(tx.maxPriorityFeePerGas);
    DecimalRoundTrip(tx.chainId);
  }

  /** `tx` moves exactly `amount` of `asset` to `recipient`, on Sepolia. */
  predicate IsTransfer(c: Codec, tx: Tx, asset: Asset, recipient: Address, amount: nat, token: Option<Address>) {
    && tx.chainId == SEPOLIA_CHAIN_ID
    && match asset
       case ETH => tx.to == recipient && tx.value == amount && tx.data == "0x"
       case ERC20 =>
         && token == Some(tx.to)
         && tx.value == 0
         && Calldata(tx.data).Some? && Calldata(tx.data) == Calldata(c.abiTransfer(recipient, amount))
  }

  /** The asset of a request; nothing means ETH. */
  function ParseWithdrawAsset(raw: string): Option<Asset> {
    var value := Lower(Trim(raw));
    if value == "" || value == "eth" then Some(ETH) else if value == "erc20" then Some(ERC20) else None
  }

  /** The text names the asset, in any mix of cases and between any white space; no text names ETH. */
  predicate TypedAsset(text: string, asset: Asset) {
    match asset
    case ETH => Trim(text) == "" || Spells(Trim(text), "eth")
    case ERC20 => Spells(Trim(text), "erc20")
  }

  lemma AssetIsTyped(text: string)
    ensures forall a: Asset :: ParseWithdrawAsset(text) == Some(a) <==> TypedAsset(text, a)
    ensures TypedAsset("ETH", ETH) && TypedAsset("ERC20", ERC20)
  {
    LowerSpells(Trim(text), "eth");
    LowerSpells(Trim(text), "erc20");
    LowerSpells(Trim(text), "");
    assert Trim("ETH") == "ETH" && Trim("ERC20") == "ERC20";
  }

  /** The provider's fees; without a priority fee one gwei, and without a cap twice the gas price or the priority fee. */
  predicate FeesAre(f: FeeData, priority: nat, cap: nat) {
    && (f.maxPriorityFeePerGas == Some(priority) || (f.maxPriorityFeePerGas.None? && priority == 1_000_000_000))
    && (f.maxFeePerGas.Some? ==> cap == f.maxFeePerGas.value)
    && (f.maxFeePerGas.None? && f.gasPrice.Some? && f.gasPrice.value > 0 ==> cap == 2 * f.gasPrice.value)
    && (f.maxFeePerGas.None? && f.gasPrice in {None, Some(0)} ==> cap == 2 * priority)
  }

  /** The transaction is for the provider's next nonce, on Sepolia, at those fees. */
  predicate Priced(net: Provider, tx: Tx) {
    && tx.nonce == net.nonce && tx.chainId == net.chainId == SEPOLIA_CHAIN_ID
    && FeesAre(net.feeData, tx.maxPriorityFeePerGas, tx.maxFeePerGas)
  }

  /** A fifth more than the estimate when that exceeds a plain transfer, and 100000 otherwise. */
  predicate TokenGas(estimate: Option<nat>, limit: nat) {
    limit == if estimate.Some? && estimate.value * 12 / 10 > 21_000 then estimate.value * 12 / 10 else 100_000
  }

  /** What start prepares for a validated request. */
  function PrepareWithdraw(
    c: Codec, net: Provider, asset: Asset, from: Address, to: Address, amount: int, token: Option<Address>)
    : Result<Prepared, PrepareError>
  {
    match asset
    case ETH => PrepareAmountTransfer(net, from, to, amount)
    case ERC20 =>
      if token.None? then Err(NoTokenConfigured)
      else PrepareErc20AmountTransfer(c, net, from, to, amount, token.value)
  }

  /** Every number the provider reports keeps the prepared fields within 256 bits. */
  predicate InRange(net: Provider, gasLimit: nat) {
    var fees := ResolveFees(net.feeData, gasLimit);
    && net.balance < TWO_TO_THE_256
    && gasLimit < TWO_TO_THE_256
    && fees.maxFeePerGas < TWO_TO_THE_256
    && fees.maxPriorityFeePerGas < TWO_TO_THE_256
  }

  /** And so does every number a withdrawal is prepared from. */
  predicate WithdrawInRange(net: Provider, asset: Asset) {
    InRange(net, if asset.ETH? then TRANSFER_GAS_LIMIT else Erc20GasLimit(net.estimateGas))
  }

  /** A prepared withdrawal is the user's transfer; it can be stored when it can be encoded, as it can on numbers in range. */
  lemma PreparedIsTheTransfer(
    c: Codec, net: Provider, asset: Asset, from: Address, to: Address, amount: int, token: Option<Address>)
    requires CodecOk(c)
    requires c.getAddress(to) == Some(to)
    requires token.Some? ==> c.getAddress(token.value) == token
    requires PrepareWithdraw(c, net, asset, from, to, amount, token).Ok?
    ensures amount > 0
    ensures var tx := PrepareWithdraw(c, net, asset, from, to, amount, token).value.tx;
            && PrepareWithdraw(c, net, asset, from, to, amount, token).value.feeWei == tx.gasLimit * tx.maxFeePerGas
            && IsTransfer(c, tx, asset, to, amount, token)
            && c.getAddress(tx.to) == Some(tx.to) && CanonicalData(tx.data)
            && Priced(net, tx) && (if asset.ETH? then tx.gasLimit == 21_000 else TokenGas(net.estimateGas, tx.gasLimit))
            && (Encodable(tx) <==> StorableTx(c, tx))
            && (WithdrawInRange(net, asset) ==> Encodable(tx))
  {
    var tx := PrepareWithdraw(c, net, asset, from, to, amount, token).value.tx;
    match asset
    case ETH =>
      assert Trim("0x") == "0x";
    case ERC20 =>
      NormalizedIsCanonical(c.abiTransfer(to, amount));
      NormalizingKeepsTheBytes(c.abiTransfer(to, amount));
      NormalizesHex(c.abiTransfer(to, amount));
  }

  /** On Sepolia, to someone else, and with the balances to pay it at that fee cap, with that gas limit for tokens. */
  predicate Payable(
    net: Provider, asset: Asset, from: Address, to: Address, amount: int, token: Option<Address>, cap: nat, limit: nat)
  {
    && from != to && amount > 0 && net.chainId == 11155111
    && match asset
       case ETH => net.balance >= amount + 21_000 * cap
       case ERC20 =>
         && token.Some? && token.value != to && net.hasTokenCode && net.tokenBalance >= amount
         && net.balance >= limit * cap
  }

  /** A token transfer for which only the ether for gas is missing. */
  predicate GasShort(net: Provider, asset: Asset, from: Address, to: Address, amount: int, token: Option<Address>, cap: nat, limit: nat) {
    && asset == ERC20 && net.balance < limit * cap
    && from != to && amount > 0 && net.chainId == 11155111
    && token.Some? && token.value != to && net.hasTokenCode && net.tokenBalance >= amount
  }

  /** Every number of the transaction fits in 256 bits. */
  predicate Fits(asset: Asset, amount: int, priority: nat, cap: nat, limit: nat) {
    && priority < TWO_TO_THE_256 && cap < TWO_TO_THE_256
    && (if asset.ETH? then amount else limit) < TWO_TO_THE_256
  }

  /** A withdrawal is prepared exactly when it is payable, and can be encoded exactly when its numbers fit. */
  lemma PreparesExactlyWhen(
    c: Codec, net: Provider, asset: Asset, from: Address, to: Address, amount: int, token: Option<Address>, priority: nat,
    cap: nat, limit: nat)
    requires CodecOk(c) && FeesAre(net.feeData, priority, cap) && TokenGas(net.estimateGas, limit)
    ensures var r := PrepareWithdraw(c, net, asset, from, to, amount, token);
            && (r.Ok? <==> Payable(net, asset, from, to, amount, token, cap, limit))
            && (r.Ok? ==> (Encodable(r.value.tx) <==> Fits(asset, amount, priority, cap, limit)))
            && (r == Err(InsufficientGas) <==> GasShort(net, asset, from, to, amount, token, cap, limit))
  {
    FeesResolve(net.feeData, priority, cap, if asset.ETH? then 21_000 else limit);
    assert asset.ERC20? ==> Erc20GasLimit(net.estimateGas) == limit;
  }

  lemma FeesResolve(f: FeeData, priority: nat, cap: nat, gasLimit: nat)
    requires FeesAre(f, priority, cap)
    ensures ResolveFees(f, gasLimit) == Fees(priority, cap, gasLimit * cap)
  {
    var fees := ResolveFees(f, gasLimit);
    assert fees.maxPriorityFeePerGas == priority;
    assert f.gasPrice.Some? && f.gasPrice.value == 0 ==> f.gasPrice == Some(0);
    assert fees.maxFeePerGas == cap;
  }

  /** The whole ether balance goes, but for the fee cap. */
  lemma FullSweepIsTheTransfer(c: Codec, net: Provider, from: Address, to: Address)
    requires PrepareFullBalanceTransfer(net, from, to).Ok?
    ensures var p := PrepareFullBalanceTransfer(net, from, to).value;
            && p.valueWei + 21_000 * p.tx.maxFeePerGas == net.balance
            && IsTransfer(c, p.tx, ETH, to, p.valueWei, None) && p.tx.gasLimit == 21_000 && Priced(net, p.tx)
  {
  }

  /** The whole token balance goes. */
  lemma TokenSweepIsTheTransfer(c: Codec, net: Provider, from: Address, to: Address, token: Address)
    requires CodecOk(c) && PrepareErc20FullBalanceTransfer(c, net, from, to, token).Ok?
    ensures var tx := PrepareErc20FullBalanceTransfer(c, net, from, to, token).value.tx;
            && net.tokenBalance > 0 && IsTransfer(c, tx, ERC20, to, net.tokenBalance, Some(token))
            && TokenGas(net.estimateGas, tx.gasLimit) && Priced(net, tx)
  {
    NormalizingKeepsTheBytes(c.abiTransfer(to, net.tokenBalance));
    NormalizesHex(c.abiTransfer(to, net.tokenBalance));
  }
}
