/**
 * Program-derived addresses used by the launcher (internal/programs/accounts.go).
 * Each derivation is one call of the library's program-address search on a
 * literal seed list; the seed lists are spelled out as their own functions so
 * that what each derivation fixes (which seeds, in what order, under which
 * program) can be stated and compared.
 */
module Accounts {
  import opened Bytes
  import opened Solana

  /** Solana's limits on a seed list: at most 16 seeds of at most 32 bytes each. */
  const MaxSeeds: nat := 16
  const MaxSeedLength: nat := 32

  predicate WithinSeedLimits(seeds: seq<seq<byte>>)
  {
    |seeds| <= MaxSeeds && forall i | 0 <= i < |seeds| :: |seeds[i]| <= MaxSeedLength
  }

  function MintAuthoritySeeds(): seq<seq<byte>>
  {
    [Ascii("mint-authority")]
  }

  function BondingCurveSeeds(mint: Key): seq<seq<byte>>
  {
    [Ascii("bonding-curve"), mint]
  }

  function GlobalSeeds(): seq<seq<byte>>
  {
    [Ascii("global")]
  }

  /** The associated-token-account seed list: owner, token program, mint. */
  function AssociatedTokenSeeds(owner: Key, mint: Key): seq<seq<byte>>
  {
    [owner, TokenProgramId, mint]
  }

  function MetadataSeeds(mint: Key, mplTokenMetadata: Key): seq<seq<byte>>
  {
    [Ascii("metadata"), mplTokenMetadata, mint]
  }

  function CreatorVaultSeeds(creator: Key): seq<seq<byte>>
  {
    [Ascii("creator-vault"), creator]
  }

  function DeriveMintAuthority(find: FindProgramAddress, programId: Key): Derived
  {
    find(MintAuthoritySeeds(), programId)
  }

  function DeriveBondingCurve(find: FindProgramAddress, mint: Key, programId: Key): Derived
  {
    find(BondingCurveSeeds(mint), programId)
  }

  function DeriveGlobal(find: FindProgramAddress, programId: Key): Derived
  {
    find(GlobalSeeds(), programId)
  }

  /** The bonding curve's token account: the associated-token-account seeds with the curve as owner. */
  function DeriveAssociatedBondingCurve(find: FindProgramAddress, mint: Key, bondingCurve: Key): Derived
  {
    find([bondingCurve, TokenProgramId, mint], AssociatedTokenProgramId)
  }

  /** The metadata record, owned by the metadata program that is also its middle seed. */
  function DeriveMetadata(find: FindProgramAddress, mint: Key, mplTokenMetadata: Key): Derived
  {
    find(MetadataSeeds(mint, mplTokenMetadata), mplTokenMetadata)
  }

  function DeriveAssociatedTokenAccount(find: FindProgramAddress, wallet: Key, mint: Key): Derived
  {
    find([wallet, TokenProgramId, mint], AssociatedTokenProgramId)
  }

  function DeriveCreatorVault(find: FindProgramAddress, creator: Key, programId: Key): Derived
  {
    find(CreatorVaultSeeds(creator), programId)
  }

  /**
   * The mint authority and the global account depend on the program alone, and
   * their one-tag seed lists differ.
   */
  lemma ProgramOnlyDerivations(find: FindProgramAddress, programId: Key)
    ensures DeriveMintAuthority(find, programId) == find([Ascii("mint-authority")], programId)
    ensures DeriveGlobal(find, programId) == find([Ascii("global")], programId)
    ensures MintAuthoritySeeds() != GlobalSeeds()
  {
    assert MintAuthoritySeeds()[0][0] == 'm' as int && GlobalSeeds()[0][0] == 'g' as int;
  }

  /**
   * The associated-bonding-curve derivation is the associated-token-account
   * derivation with the bonding curve as wallet: both search the associated-token
   * program with [owner, token program, mint].
   */
  lemma AssociatedBondingCurveIsTokenAccount(find: FindProgramAddress, mint: Key, bondingCurve: Key)
    ensures DeriveAssociatedBondingCurve(find, mint, bondingCurve)
         == DeriveAssociatedTokenAccount(find, bondingCurve, mint)
    ensures DeriveAssociatedBondingCurve(find, mint, bondingCurve)
         == find(AssociatedTokenSeeds(bondingCurve, mint), AssociatedTokenProgramId)
  {
  }

  /**
   * Distinct mints (and creators) give distinct seed lists. This is injectivity
   * of the search inputs, not of the derived addresses.
   */
  lemma SeedListsInjective(m1: Key, m2: Key, bondingCurve: Key, mplTokenMetadata: Key)
    requires m1 != m2
    ensures BondingCurveSeeds(m1) != BondingCurveSeeds(m2)
    ensures AssociatedTokenSeeds(bondingCurve, m1) != AssociatedTokenSeeds(bondingCurve, m2)
    ensures MetadataSeeds(m1, mplTokenMetadata) != MetadataSeeds(m2, mplTokenMetadata)
    ensures CreatorVaultSeeds(m1) != CreatorVaultSeeds(m2)
  {
    assert BondingCurveSeeds(m1)[1] != BondingCurveSeeds(m2)[1];
    assert AssociatedTokenSeeds(bondingCurve, m1)[2] != AssociatedTokenSeeds(bondingCurve, m2)[2];
    assert MetadataSeeds(m1, mplTokenMetadata)[2] != MetadataSeeds(m2, mplTokenMetadata)[2];
    assert CreatorVaultSeeds(m1)[1] != CreatorVaultSeeds(m2)[1];
  }

  /** No seed list exceeds the runtime's limits, so the search can only fail by exhausting the bumps. */
  lemma SeedListsWithinLimits(mint: Key, owner: Key, mplTokenMetadata: Key, creator: Key)
    ensures WithinSeedLimits(MintAuthoritySeeds())
    ensures WithinSeedLimits(BondingCurveSeeds(mint))
    ensures WithinSeedLimits(GlobalSeeds())
    ensures WithinSeedLimits(AssociatedTokenSeeds(owner, mint))
    ensures WithinSeedLimits(MetadataSeeds(mint, mplTokenMetadata))
    ensures WithinSeedLimits(CreatorVaultSeeds(creator))
  {
  }

  /**
   * The seven searches of one launch, as (seed list, program) pairs, in the
   * order mint authority, bonding curve, global, associated bonding curve,
   * metadata, the user's associated token account, creator vault.
   */
  function LaunchSearches(mint: Key, user: Key, bondingCurve: Key): seq<(seq<seq<byte>>, Key)>
  {
    [(MintAuthoritySeeds(), PumpFunProgram),
     (BondingCurveSeeds(mint), PumpFunProgram),
     (GlobalSeeds(), PumpFunProgram),
     (AssociatedTokenSeeds(bondingCurve, mint), AssociatedTokenProgramId),
     (MetadataSeeds(mint, MplTokenMetadata), MplTokenMetadata),
     (AssociatedTokenSeeds(user, mint), AssociatedTokenProgramId),
     (CreatorVaultSeeds(user), PumpFunProgram)]
  }

  /**
   * Each derivation of a launch is the search listed for it, and the searches
   * are pairwise distinct, except that the user's associated token account is
   * the associated-bonding-curve search exactly when the user is the bonding
   * curve.
   */
  lemma LaunchSearchesDistinct(find: FindProgramAddress, mint: Key, user: Key)
    ensures var bondingCurve := DeriveBondingCurve(find, mint, PumpFunProgram).address;
            var s := LaunchSearches(mint, user, bondingCurve);
            DeriveMintAuthority(find, PumpFunProgram) == find(s[0].0, s[0].1)
            && DeriveBondingCurve(find, mint, PumpFunProgram) == find(s[1].0, s[1].1)
            && DeriveGlobal(find, PumpFunProgram) == find(s[2].0, s[2].1)
            && DeriveAssociatedBondingCurve(find, mint, bondingCurve) == find(s[3].0, s[3].1)
            && DeriveMetadata(find, mint, MplTokenMetadata) == find(s[4].0, s[4].1)
            && DeriveAssociatedTokenAccount(find, user, mint) == find(s[5].0, s[5].1)
            && DeriveCreatorVault(find, user, PumpFunProgram) == find(s[6].0, s[6].1)
    ensures var s := LaunchSearches(mint, user, DeriveBondingCurve(find, mint, PumpFunProgram).address);
            forall i, j | 0 <= i < j < |s| ::
              s[i] == s[j] <==> i == 3 && j == 5 && user == DeriveBondingCurve(find, mint, PumpFunProgram).address
  {
    var bondingCurve := DeriveBondingCurve(find, mint, PumpFunProgram).address;
    var s := LaunchSearches(mint, user, bondingCurve);
    // the three owning programs differ in their first byte
    assert PumpFunProgram[0] == 1 && MplTokenMetadata[0] == 11 && AssociatedTokenProgramId[0] == 140;
    // so do the tags of the seed lists under the pump.fun program
    assert MintAuthoritySeeds()[0][0] == 'm' as int && GlobalSeeds()[0][0] == 'g' as int;
    assert BondingCurveSeeds(mint)[0][0] == 'b' as int && CreatorVaultSeeds(user)[0][0] == 'c' as int;
    forall i, j | 0 <= i < j < |s|
      ensures s[i] == s[j] <==> i == 3 && j == 5 && user == bondingCurve
    {
      if i == 3 && j == 5 {
        assert s[i] == s[j] ==> s[i].0[0] == s[j].0[0];
      } else if s[i].1 == s[j].1 {
        assert s[i].0 != s[j].0 by {
          assert (i == 0 || i == 1 || i == 2 || i == 6) && (j == 1 || j == 2 || j == 6);
          assert |s[i].0| != |s[j].0| || s[i].0[0][0] != s[j].0[0][0];
        }
      }
    }
  }
}
