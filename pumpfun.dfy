/**
 * The two pump.fun instructions (internal/programs/pumpfun.go): an 8-byte
 * Anchor discriminator followed by the Borsh-encoded arguments, and the
 * ordered account list the program expects.
 */
module PumpFun {
  import opened Wrappers
  import opened Bytes
  import opened Solana
  import opened Accounts
  import opened Types

  /**
   * Anchor's instruction discriminator: the first 8 bytes of
   * SHA-256("global:<instruction name>").
   */
  function Discriminator(sha256: Sha256, name: string): (d: seq<byte>)
    requires IsAscii(name)
    ensures |d| == 8
  {
    sha256(Ascii("global:" + name))[..8]
  }

  function NewBuyIx(
    sha256: Sha256, find: FindProgramAddress,
    amount: u64, maxSolCost: u64,
    feeRecipient: Key, mint: Key, assocBondingCurve: Key, assocUser: Key,
    user: Key, systemProgram: Key, tokenProgram: Key, creatorVault: Key, eventAuthority: Key
  ): (ix: Instruction)
    ensures ix.programId == PumpFunProgram
    ensures |ix.data| == 24 && ix.data[..8] == Discriminator(sha256, "buy")
    ensures FromLe(ix.data[8..16]) == amount && FromLe(ix.data[16..24]) == maxSolCost
    ensures Keys(ix.accounts)
         == [DeriveGlobal(find, PumpFunProgram).address, feeRecipient, mint,
             DeriveBondingCurve(find, mint, PumpFunProgram).address, assocBondingCurve, assocUser,
             user, systemProgram, tokenProgram, creatorVault, eventAuthority, PumpFunProgram]
    ensures SignerIndices(ix.accounts) == {6}
    ensures WritableIndices(ix.accounts) == {1, 3, 4, 5, 6, 9}
  {
    var program := PumpFunProgram;
    var payload := BuyPayload(sha256, amount, maxSolCost);
    var global := DeriveGlobal(find, program).address;
    var bondingCurve := DeriveBondingCurve(find, mint, program).address;
    var metas := BuyAccountMetas(
      global, feeRecipient, mint, bondingCurve, assocBondingCurve, assocUser,
      user, systemProgram, tokenProgram, creatorVault, eventAuthority, program);
    Instruction(program, metas, payload)
  }

  /** The buy discriminator followed by the Borsh-encoded `BuyData`. */
  function BuyPayload(sha256: Sha256, amount: u64, maxSolCost: u64): (payload: seq<byte>)
    ensures |payload| == 24 && payload[..8] == Discriminator(sha256, "buy")
    ensures FromLe(payload[8..16]) == amount && FromLe(payload[16..24]) == maxSolCost
  {
    var argsBin := EncodeBuyData(BuyData(amount, maxSolCost));
    var payload := Discriminator(sha256, "buy") + argsBin;
    assert payload[8..16] == U64Le(amount) && payload[16..24] == U64Le(maxSolCost);
    payload
  }

  /** The buy instruction's account list, in the program's order, with its flags. */
  function BuyAccountMetas(
    global: Key, feeRecipient: Key, mint: Key, bondingCurve: Key, assocBondingCurve: Key, assocUser: Key,
    user: Key, systemProgram: Key, tokenProgram: Key, creatorVault: Key, eventAuthority: Key, program: Key
  ): (metas: seq<AccountMeta>)
    ensures Keys(metas)
         == [global, feeRecipient, mint, bondingCurve, assocBondingCurve, assocUser,
             user, systemProgram, tokenProgram, creatorVault, eventAuthority, program]
    ensures SignerIndices(metas) == {6}
    ensures WritableIndices(metas) == {1, 3, 4, 5, 6, 9}
  {
    var metas := [
      AccountMeta(global, false, false),
      AccountMeta(feeRecipient, true, false),
      AccountMeta(mint, false, false),
      AccountMeta(bondingCurve, true, false),
      AccountMeta(assocBondingCurve, true, false),
      AccountMeta(assocUser, true, false),
      AccountMeta(user, true, true),
      AccountMeta(systemProgram, false, false),
      AccountMeta(tokenProgram, false, false),
      AccountMeta(creatorVault, true, false),
      AccountMeta(eventAuthority, false, false),
      AccountMeta(program, false, false)
    ];
    BuyMetaFlags(metas);
    metas
  }

  /** The signer and writable positions of a twelve-entry list with the buy instruction's flags. */
  lemma BuyMetaFlags(metas: seq<AccountMeta>)
    requires |metas| == 12
    requires !metas[0].isWritable && metas[1].isWritable && !metas[2].isWritable && metas[3].isWritable
    requires metas[4].isWritable && metas[5].isWritable && metas[6].isWritable && !metas[7].isWritable
    requires !metas[8].isWritable && metas[9].isWritable && !metas[10].isWritable && !metas[11].isWritable
    requires metas[6].isSigner
    requires forall i | 0 <= i < 12 && i != 6 :: !metas[i].isSigner
    ensures SignerIndices(metas) == {6}
    ensures WritableIndices(metas) == {1, 3, 4, 5, 6, 9}
  {
    forall i: nat | i < 12 ensures metas[i].isWritable <==> i in {1, 3, 4, 5, 6, 9} {
      assert i == 0 || i == 1 || i == 2 || i == 3 || i == 4 || i == 5
          || i == 6 || i == 7 || i == 8 || i == 9 || i == 10 || i == 11;
    }
  }

  function NewCreateIx(sha256: Sha256, find: FindProgramAddress, mint: Key, user: Key, createData: CreateData)
    : (ix: Instruction)
    ensures ix.programId == PumpFunProgram
    ensures |ix.data| == 52 + |createData.name| + |createData.symbol| + |createData.uri|
    ensures ix.data[..8] == Discriminator(sha256, "create")
    ensures ix.data[8..] == EncodeCreateData(createData)
    ensures Keys(ix.accounts)
         == [mint, DeriveMintAuthority(find, PumpFunProgram).address,
             DeriveBondingCurve(find, mint, PumpFunProgram).address,
             DeriveAssociatedBondingCurve(find, mint, DeriveBondingCurve(find, mint, PumpFunProgram).address).address,
             DeriveGlobal(find, PumpFunProgram).address, MplTokenMetadata,
             DeriveMetadata(find, mint, MplTokenMetadata).address, user,
             SystemProgramId, TokenProgramId, AssociatedTokenProgramId, SysVarRentPubkey,
             EventAuthority, PumpFunProgram]
    ensures SignerIndices(ix.accounts) == {0, 7}
    ensures WritableIndices(ix.accounts) == {0, 3, 4, 6, 7}
  {
    var program := PumpFunProgram;
    var argsBin := EncodeCreateData(createData);
    var payload := Discriminator(sha256, "create") + argsBin;
    var mplTokenMetadata := MplTokenMetadata;
    var eventAuthority := EventAuthority;
    var mintAuthority := DeriveMintAuthority(find, program).address;
    var bondingCurve := DeriveBondingCurve(find, mint, program).address;
    var global := DeriveGlobal(find, program).address;
    var associatedBondingCurve := DeriveAssociatedBondingCurve(find, mint, bondingCurve).address;
    var metadata := DeriveMetadata(find, mint, mplTokenMetadata).address;
    var metas := CreateAccountMetas(
      mint, mintAuthority, bondingCurve, associatedBondingCurve, global, mplTokenMetadata, metadata, user,
      eventAuthority, program);
    Instruction(program, metas, payload)
  }

  /** The create instruction's account list, in the program's order, with its flags. */
  function CreateAccountMetas(
    mint: Key, mintAuthority: Key, bondingCurve: Key, associatedBondingCurve: Key, global: Key,
    mplTokenMetadata: Key, metadata: Key, user: Key, eventAuthority: Key, program: Key
  ): (metas: seq<AccountMeta>)
    ensures Keys(metas)
         == [mint, mintAuthority, bondingCurve, associatedBondingCurve, global, mplTokenMetadata, metadata, user,
             SystemProgramId, TokenProgramId, AssociatedTokenProgramId, SysVarRentPubkey, eventAuthority, program]
    ensures SignerIndices(metas) == {0, 7}
    ensures WritableIndices(metas) == {0, 3, 4, 6, 7}
  {
    var metas := [
      AccountMeta(mint, true, true),
      AccountMeta(mintAuthority, false, false),
      AccountMeta(bondingCurve, false, false),
      AccountMeta(associatedBondingCurve, true, false),
      AccountMeta(global, true, false),
      AccountMeta(mplTokenMetadata, false, false),
      AccountMeta(metadata, true, false),
      AccountMeta(user, true, true),
      AccountMeta(SystemProgramId, false, false),
      AccountMeta(TokenProgramId, false, false),
      AccountMeta(AssociatedTokenProgramId, false, false),
      AccountMeta(SysVarRentPubkey, false, false),
      AccountMeta(eventAuthority, false, false),
      AccountMeta(program, false, false)
    ];
    CreateMetaFlags(metas);
    metas
  }

  /** The signer and writable positions of a fourteen-entry list with the create instruction's flags. */
  lemma CreateMetaFlags(metas: seq<AccountMeta>)
    requires |metas| == 14
    requires metas[0].isWritable && !metas[1].isWritable && !metas[2].isWritable && metas[3].isWritable
    requires metas[4].isWritable && !metas[5].isWritable && metas[6].isWritable && metas[7].isWritable
    requires forall i | 8 <= i < 14 :: !metas[i].isWritable
    requires metas[0].isSigner && metas[7].isSigner
    requires forall i | 0 <= i < 14 && i != 0 && i != 7 :: !metas[i].isSigner
    ensures SignerIndices(metas) == {0, 7}
    ensures WritableIndices(metas) == {0, 3, 4, 6, 7}
  {
    forall i: nat | i < 14 ensures metas[i].isWritable <==> i in {0, 3, 4, 6, 7} {
      assert i == 0 || i == 1 || i == 2 || i == 3 || i == 4 || i == 5 || i == 6 || i == 7 || 8 <= i;
    }
  }
  /**
   * Changing only the amount of a buy changes only payload bytes 8..16: the
   * discriminator and the maximum cost stay, and the amount bytes differ
   * exactly when the amounts do.
   */
  lemma {:induction false} BuyAmountOnlyChangesItsBytes(
    sha256: Sha256, find: FindProgramAddress, a1: u64, a2: u64, maxSolCost: u64,
    feeRecipient: Key, mint: Key, assocBondingCurve: Key, assocUser: Key,
    user: Key, systemProgram: Key, tokenProgram: Key, creatorVault: Key, eventAuthority: Key)
    ensures var d1 := NewBuyIx(sha256, find, a1, maxSolCost, feeRecipient, mint, assocBondingCurve, assocUser,
                               user, systemProgram, tokenProgram, creatorVault, eventAuthority).data;
            var d2 := NewBuyIx(sha256, find, a2, maxSolCost, feeRecipient, mint, assocBondingCurve, assocUser,
                               user, systemProgram, tokenProgram, creatorVault, eventAuthority).data;
            d1[..8] == d2[..8] && d1[16..] == d2[16..] && (d1[8..16] == d2[8..16] <==> a1 == a2)
  {
    var d1 := NewBuyIx(sha256, find, a1, maxSolCost, feeRecipient, mint, assocBondingCurve, assocUser,
                       user, systemProgram, tokenProgram, creatorVault, eventAuthority).data;
    var d2 := NewBuyIx(sha256, find, a2, maxSolCost, feeRecipient, mint, assocBondingCurve, assocUser,
                       user, systemProgram, tokenProgram, creatorVault, eventAuthority).data;
    LeBytesFromLe(d1[16..24]);
    LeBytesFromLe(d2[16..24]);
    assert d1[16..] == d1[16..24] && d2[16..] == d2[16..24];
    LeBytesFromLe(d1[8..16]);
    LeBytesFromLe(d2[8..16]);
  }

  /**
   * The create payload after its discriminator decodes back to the create
   * arguments (for strings under 4 GiB).
   */
  lemma CreatePayloadDecodes(sha256: Sha256, find: FindProgramAddress, mint: Key, user: Key, d: CreateData)
    requires |d.name| < TWO_32 && |d.symbol| < TWO_32 && |d.uri| < TWO_32
    ensures DecodeCreateData(NewCreateIx(sha256, find, mint, user, d).data[8..]) == Some(d)
  {
    CreateDataRoundTrip(d);
  }
}
