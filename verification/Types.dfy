/** Vocabulary shared by every part of the wallet model. */
module Types {

  datatype Option<+T> = None | Some(value: T)

  datatype Result<+T, +E> = Ok(value: T) | Err(error: E)

  // Values the wallet only passes around: the cryptography behind them is foreign.
  type Signature(==, !new, 0)
  type Raw(==, !new, 0)      // a serialized signed transaction
  type TxHash(==, !new, 0)
  type Digest(==, !new, 0)   // a 32-byte unsigned transaction hash
  type Payload(==, !new, 0)  // the bytes of one protocol message

  type Address = string
  type UserId = nat
  type WalletId = nat
  type SessionId = nat
  type RequestId = nat

  datatype Asset = ETH | ERC20
}
