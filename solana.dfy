/**
 * The pieces of the Solana client library the launcher builds on: public keys,
 * account metas, instructions, and the well-known program addresses. Library
 * routines whose code is not part of this model (SHA-256, the program-address
 * search) are represented by function types that the callers receive.
 */
module Solana {
  import opened Bytes

  /** A 32-byte public key (`solana.PublicKey`). */
  type Key = s: seq<byte> | |s| == 32 witness seq(32, _ => 0)

  /** A 32-byte SHA-256 digest. */
  type Digest = s: seq<byte> | |s| == 32 witness seq(32, _ => 0)

  /** `sha256.Sum256` from Go's standard library (FIPS 180-4). */
  type Sha256 = seq<byte> -> Digest

  /**
   * The triple returned by `solana.FindProgramAddress`: an address, its bump
   * seed, and whether the bump search was exhausted (Go's non-nil error).
   */
  datatype Derived = Derived(address: Key, bump: byte, exhausted: bool)

  /** `solana.FindProgramAddress(seeds, programID)`: bump search and off-curve test. */
  type FindProgramAddress = (seq<seq<byte>>, Key) -> Derived

  /** `solana.AccountMeta`. */
  datatype AccountMeta = AccountMeta(key: Key, isWritable: bool, isSigner: bool)

  /** `solana.GenericInstruction`: target program, ordered accounts, payload. */
  datatype Instruction = Instruction(programId: Key, accounts: seq<AccountMeta>, data: seq<byte>)

  function Keys(metas: seq<AccountMeta>): (keys: seq<Key>)
    ensures |keys| == |metas|
  {
    seq(|metas|, i requires 0 <= i < |metas| => metas[i].key)
  }

  /** Positions of the accounts that must sign. */
  function SignerIndices(metas: seq<AccountMeta>): set<nat>
  {
    set i: nat | i < |metas| && metas[i].isSigner
  }

  /** Positions of the accounts the instruction may write. */
  function WritableIndices(metas: seq<AccountMeta>): set<nat>
  {
    set i: nat | i < |metas| && metas[i].isWritable
  }

  // Well-known addresses, as the bytes of their base58 text.

  /** `internal.PUMP_FUN_PROGRAM`, 6EF8rrecthR5Dkzon8Nwu78hRvfCKubJ14M5uBEwF6P. */
  const PumpFunProgram: Key := [1, 86, 224, 246, 147, 102, 90, 207, 68, 219, 21, 104, 191, 23, 91, 170,
                                81, 137, 203, 151, 245, 210, 255, 59, 101, 93, 43, 182, 253, 109, 24, 176]

  /** The Metaplex token-metadata program, metaqbxxUerdq28cj1RbAWkYQm3ybzjb6a8bt518x1s. */
  const MplTokenMetadata: Key := [11, 112, 101, 177, 227, 209, 124, 69, 56, 157, 82, 127, 107, 4, 195, 205,
                                  88, 184, 108, 115, 26, 160, 253, 181, 73, 182, 209, 188, 3, 248, 41, 70]

  /** pump.fun's event authority, Ce6TQqeHC9p8KetsN6JsjHK7UTZk7nasjjnr7XxXp9F1. */
  const EventAuthority: Key := [172, 241, 54, 235, 1, 252, 28, 78, 136, 61, 35, 200, 181, 132, 74, 181,
                                154, 55, 246, 106, 221, 87, 197, 233, 172, 59, 83, 224, 89, 211, 92, 100]

  /** `solana.TokenProgramID`, TokenkegQfeZyiNwAJbNbGKPFXCWuBvf9Ss623VQ5DA. */
  const TokenProgramId: Key := [6, 221, 246, 225, 215, 101, 161, 147, 217, 203, 225, 70, 206, 235, 121, 172,
                                28, 180, 133, 237, 95, 91, 55, 145, 58, 140, 245, 133, 126, 255, 0, 169]

  /** `solana.SystemProgramID`, 11111111111111111111111111111111. */
  const SystemProgramId: Key := [0, 0, 0, 0, 0, 0, 0, 0, 0, 0, 0, 0, 0, 0, 0, 0,
                                 0, 0, 0, 0, 0, 0, 0, 0, 0, 0, 0, 0, 0, 0, 0, 0]

  /** `associatedtokenaccount.ProgramID`, ATokenGPvbdGVxr1b2hvZbsiqW5xWH25efTNsLJA8knL. */
  const AssociatedTokenProgramId: Key := [140, 151, 37, 143, 78, 36, 137, 241, 187, 61, 16, 41, 20, 142, 13, 131,
                                          11, 90, 19, 153, 218, 255, 16, 132, 4, 142, 123, 216, 219, 233, 248, 89]

  /** `solana.SysVarRentPubkey`, SysvarRent111111111111111111111111111111111. */
  const SysVarRentPubkey: Key := [6, 167, 213, 23, 25, 44, 92, 81, 33, 140, 201, 76, 61, 74, 241, 127,
                                  88, 218, 238, 8, 155, 161, 253, 68, 227, 219, 217, 138, 0, 0, 0, 0]
}
