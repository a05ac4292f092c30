/** Shared vocabulary: optional values and the opaque names the services pass around. */
module Basics {
  datatype Option<+T> = None | Some(value: T)

  // Names are compared and stored, never looked into; a number stands for each distinct text.
  datatype Uuid = Uuid(n: nat)
  datatype Digest = Digest(n: nat)
  datatype Signature = Signature(n: nat)
  datatype Login = Login(n: nat)

  /** A recipient or mint as it arrives: either it decodes to a Solana key or it does not. */
  datatype Address = Solana(key: nat) | Malformed(n: nat)

  datatype Currency = USDC | OtherCurrency(n: nat)
  datatype Network = Devnet | Mainnet

  /** Who did something; blank when nothing but white space was given. */
  datatype Actor = Blank | Named(n: nat)

  function Min(a: int, b: int): int {
    if a < b then a else b
  }

  function Max(a: int, b: int): int {
    if a < b then b else a
  }
}
