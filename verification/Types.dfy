/** Machine integers, byte strings and the host functions shared by every module. */
module Types {
  const U32_LIMIT := 0x1_0000_0000
  const U64_LIMIT := 0x1_0000_0000_0000_0000
  const U128_LIMIT := 0x1_0000_0000_0000_0000_0000_0000_0000_0000

  type byte = x: int | 0 <= x < 0x100
  type u32 = x: int | 0 <= x < 0x1_0000_0000
  type u64 = x: int | 0 <= x < 0x1_0000_0000_0000_0000
  type u128 = x: int | 0 <= x < 0x1_0000_0000_0000_0000_0000_0000_0000_0000

  type Bytes = seq<byte>

  function Zeros(n: nat): (r: Bytes)
    ensures |r| == n
  {
    seq(n, _ => 0)
  }

  // The contract is compiled for wasm32, so no string or vector is longer than a u32 can count.
  type Str = s: Bytes | |s| < 0x1_0000_0000
  type AccountId = Str

  datatype Option<+T> = None | Some(value: T)

  // What the contract asks of its host and of libraries whose code is not in the repository.
  // Every theorem holds for every choice of these functions.
  datatype Host = Host(
    currentAccount: AccountId,
    sha256: Bytes -> Bytes,
    ed25519Verify: (Bytes, Bytes, Bytes) -> bool,
    validUtf8: Bytes -> bool,
    validAccountId: Bytes -> bool,
    chainArgs: Bytes -> Option<(u64, u32)>   // what continue_chain reads from the arguments of a call, if anything
  )
}
