/**
 * internal/services/rpc_client.go: the client that assembles the create,
 * associated-token-account and buy instructions, fetches the global account
 * and a recent blockhash, signs, and submits — each remote call retried
 * under the policy of module Retry.
 *
 * The remote node is an object of class Node whose answers are scripted;
 * library code the client calls (hashing, address search, the
 * associated-token-account builder, the float slippage buffer, ed25519
 * signing) arrives as the functions of a Library value.
 */
module Services {
  import opened Wrappers
  import opened Bytes
  import opened Solana
  import opened Accounts
  import opened Types
  import opened PumpFun
  import opened Retry

  datatype Commitment = Processed | Confirmed | Finalized

  datatype RpcError = RpcError(code: int, message: string)

  /** The parts of a `GetLatestBlockhashResult` the client reads. */
  datatype BlockhashResult = BlockhashResult(blockhash: Key, slot: u64)

  /** `rpc.TransactionOpts` as the client fills it. */
  datatype SendOpts = SendOpts(skipPreflight: bool, preflightCommitment: Commitment, minContextSlot: u64)

  type PrivateKey = seq<byte>
  type Signature = seq<byte>

  datatype Wallet = Wallet(publicKey: Key, privateKey: PrivateKey)

  datatype Transaction = Transaction(
    instructions: seq<Instruction>, recentBlockhash: Key, feePayer: Key, signatures: seq<Signature>)

  /** Library code the client calls, given to it as functions. */
  datatype Library = Library(
    sha256: Sha256,
    findProgramAddress: FindProgramAddress,
    // associatedtokenaccount.NewCreateInstruction(payer, wallet, mint)
    createAssociatedTokenAccount: (Key, Key, Key) -> Instruction,
    // uint64(float64(solAmount) * (1 + 10.0/100))
    slippageLamports: u64 -> u64,
    signMessage: (PrivateKey, Transaction) -> Signature)

  // ------------------------------------------------------------ transactions

  datatype TransactionError = NoInstructions

  /** `solana.NewTransaction`, which refuses an empty instruction list. */
  function NewTransaction(instructions: seq<Instruction>, recentBlockhash: Key, payer: Key)
    : Result<Transaction, TransactionError>
  {
    if instructions == [] then Failure(NoInstructions)
    else Success(Transaction(instructions, recentBlockhash, payer, []))
  }

  /** The keys of an instruction's signer-flagged accounts, in order. */
  function SignerKeysOf(metas: seq<AccountMeta>): (keys: seq<Key>)
    ensures forall k | k in keys :: exists i | 0 <= i < |metas| :: metas[i].isSigner && metas[i].key == k
    ensures forall i | 0 <= i < |metas| && metas[i].isSigner :: metas[i].key in keys
  {
    if metas == [] then []
    else
      var rest := SignerKeysOf(metas[1..]);
      assert forall k | k in rest :: exists i | 0 <= i < |metas| :: metas[i].isSigner && metas[i].key == k by {
        forall k | k in rest ensures exists i | 0 <= i < |metas| :: metas[i].isSigner && metas[i].key == k {
          var j :| 0 <= j < |metas[1..]| && metas[1..][j].isSigner && metas[1..][j].key == k;
          assert metas[j + 1] == metas[1..][j];
        }
      }
      assert forall i | 1 <= i < |metas| && metas[i].isSigner :: metas[i].key in rest by {
        forall i | 1 <= i < |metas| && metas[i].isSigner ensures metas[i].key in rest {
          assert metas[i] == metas[1..][i - 1];
        }
      }
      (if metas[0].isSigner then [metas[0].key] else []) + rest
  }

  /** The keys that must sign a transaction: its fee payer, then every signer of its instructions. */
  function RequiredSigners(tx: Transaction): seq<Key>
  {
    [tx.feePayer] + SignerKeysIn(tx.instructions)
  }

  function SignerKeysIn(instructions: seq<Instruction>): seq<Key>
  {
    if instructions == [] then [] else SignerKeysOf(instructions[0].accounts) + SignerKeysIn(instructions[1..])
  }

  /**
   * One signature per key, each made with the private key the getter returns,
   * or the first key the getter has no private key for.
   */
  function SignAll(
    keys: seq<Key>, getter: Key -> Option<PrivateKey>, signMessage: (PrivateKey, Transaction) -> Signature,
    tx: Transaction
  ): (r: Result<seq<Signature>, Key>)
    ensures r.Success? <==> forall i | 0 <= i < |keys| :: getter(keys[i]).Some?
    ensures r.Success? ==> (|r.value| == |keys|
        && forall i | 0 <= i < |keys| :: r.value[i] == signMessage(getter(keys[i]).value, tx))
    ensures r.Failure? ==> r.error in keys && getter(r.error).None?
  {
    if keys == [] then Success([])
    else
      match getter(keys[0])
      case None => Failure(keys[0])
      case Some(privateKey) =>
        match SignAll(keys[1..], getter, signMessage, tx)
        case Failure(k) => Failure(k)
        case Success(rest) =>
          assert forall i | 1 <= i < |keys| :: keys[i] == keys[1..][i - 1];
          Success([signMessage(privateKey, tx)] + rest)
  }

  datatype SignError = MissingSigner(key: Key)

  /** `Transaction.Sign`: every required signer must resolve through the getter. */
  function Sign(
    tx: Transaction, getter: Key -> Option<PrivateKey>, signMessage: (PrivateKey, Transaction) -> Signature
  ): (r: Result<Transaction, SignError>)
    ensures r.Success? <==> forall k | k in RequiredSigners(tx) :: getter(k).Some?
    ensures r.Success? ==> (r.value.instructions == tx.instructions && r.value.recentBlockhash == tx.recentBlockhash
        && r.value.feePayer == tx.feePayer && |r.value.signatures| == |RequiredSigners(tx)|)
    ensures r.Failure? ==> r.error.key in RequiredSigners(tx) && getter(r.error.key).None?
  {
    match SignAll(RequiredSigners(tx), getter, signMessage, tx)
    case Failure(k) => Failure(MissingSigner(k))
    case Success(signatures) => Success(tx.(signatures := signatures))
  }

  /** The getter LaunchToken signs with: the user's key, else the mint's, else none. */
  function SignerFor(user: Wallet, mint: Wallet, key: Key): (r: Option<PrivateKey>)
    ensures r.Some? <==> key == user.publicKey || key == mint.publicKey
    ensures key == user.publicKey ==> r == Some(user.privateKey)
    ensures key != user.publicKey && key == mint.publicKey ==> r == Some(mint.privateKey)
  {
    if key == user.publicKey then Some(user.privateKey)
    else if key == mint.publicKey then Some(mint.privateKey)
    else None
  }

  function LaunchSigner(user: Wallet, mint: Wallet): Key -> Option<PrivateKey>
  {
    k => SignerFor(user, mint, k)
  }

  // ---------------------------------------------------------- global account

  datatype GlobalAccountError =
    | DeriveFailed
    | FetchFailed(rpc: RpcError)
    | AccountNotFound
    | AccountEmpty
    | DecodeFailed(decode: DecodeError)

  /**
   * The checks after the fetch loop: a failed call, a missing account and an
   * empty account are each reported as such before the data is decoded.
   */
  function GlobalAccountFromReply(reply: Result<Option<seq<byte>>, RpcError>)
    : (r: Result<GlobalAccount, GlobalAccountError>)
    ensures reply.Failure? ==> r == Failure(FetchFailed(reply.error))
    ensures reply == Success(None) ==> r == Failure(AccountNotFound)
    ensures reply == Success(Some([])) ==> r == Failure(AccountEmpty)
    ensures reply.Success? && reply.value.Some? && reply.value.value != []
        ==> (r.Success? <==> |reply.value.value| >= GlobalAccountSize)
    ensures r.Success? ==> (reply.Success? && reply.value.Some? && |reply.value.value| >= GlobalAccountSize
        && (reply.value.value[8] <= 1 ==> EncodeGlobalAccount(r.value) == reply.value.value[..GlobalAccountSize]))
  {
    match reply
    case Failure(e) => Failure(FetchFailed(e))
    case Success(None) => Failure(AccountNotFound)
    case Success(Some(rawData)) =>
      if |rawData| == 0 then Failure(AccountEmpty)
      else
        match DecodeGlobalAccount(rawData)
        case Failure(e) => Failure(DecodeFailed(e))
        case Success(g) => Success(g)
  }

  /** What `getGlobalAccount` returns, given the node's account replies from call `first` on. */
  function FetchGlobal(lib: Library, replies: nat -> Result<Option<seq<byte>>, RpcError>, first: nat)
    : Result<GlobalAccount, GlobalAccountError>
  {
    if DeriveGlobal(lib.findProgramAddress, PumpFunProgram).exhausted then Failure(DeriveFailed)
    else GlobalAccountFromReply(Outcome(replies, first))
  }

  /** The account requests `getGlobalAccount` sends: none when the derivation fails. */
  function FetchRequests(lib: Library, replies: nat -> Result<Option<seq<byte>>, RpcError>, first: nat)
    : seq<(Key, Commitment)>
  {
    var derived := DeriveGlobal(lib.findProgramAddress, PumpFunProgram);
    if derived.exhausted then [] else Repeat((derived.address, Confirmed), Attempts(replies, first))
  }

  function FetchSleeps(lib: Library, replies: nat -> Result<Option<seq<byte>>, RpcError>, first: nat): seq<nat>
  {
    if DeriveGlobal(lib.findProgramAddress, PumpFunProgram).exhausted then [] else Sleeps(replies, first)
  }

  // -------------------------------------------------------------- instructions

  /** `AddCreateInstruction` for a given fresh mint wallet: the user is the creator. */
  function CreateIxFor(lib: Library, user: Wallet, mint: Wallet, metadata: Metadata, metadataUri: seq<byte>)
    : (ix: Instruction)
    ensures |ix.data| >= 8 && |ix.accounts| == 14
    ensures DecodeCreateData(ix.data[8..]) == Some(CreateData(metadata.name, metadata.symbol, metadataUri, user.publicKey))
         <== |metadata.name| < TWO_32 && |metadata.symbol| < TWO_32 && |metadataUri| < TWO_32
    ensures Keys(ix.accounts)[0] == mint.publicKey && Keys(ix.accounts)[7] == user.publicKey
    ensures SignerIndices(ix.accounts) == {0, 7}
  {
    var createData := CreateData(metadata.name, metadata.symbol, metadataUri, user.publicKey);
    var ix := NewCreateIx(lib.sha256, lib.findProgramAddress, mint.publicKey, user.publicKey, createData);
    if |metadata.name| < TWO_32 && |metadata.symbol| < TWO_32 && |metadataUri| < TWO_32 then
      CreatePayloadDecodes(lib.sha256, lib.findProgramAddress, mint.publicKey, user.publicKey, createData);
      ix
    else
      ix
  }

  datatype BuyError =
    | GlobalAccountFailed(global: GlobalAccountError)
    | PriceFailed(price: PriceError)

  /**
   * `AddBuyInstruction` after the fetch: the token amount is the curve price
   * of `solAmount`, the cost cap the slippage-buffered `solAmount`, and the
   * fee recipient the one the global account names.
   */
  function BuyIxFor(
    lib: Library, user: Key, mint: Key, solAmount: u64, fetched: Result<GlobalAccount, GlobalAccountError>
  ): (r: Result<Instruction, BuyError>)
    ensures fetched.Failure? ==> r == Failure(GlobalAccountFailed(fetched.error))
    ensures fetched.Success? && GetInitialBuyPrice(fetched.value, solAmount).Failure?
        ==> r == Failure(PriceFailed(GetInitialBuyPrice(fetched.value, solAmount).error))
    ensures r.Success? <==> fetched.Success? && GetInitialBuyPrice(fetched.value, solAmount).Success?
    ensures r.Success? ==> |r.value.data| == 24 && |r.value.accounts| == 12
    ensures r.Success? ==> (r.value.programId == PumpFunProgram
        && FromLe(r.value.data[8..16]) == GetInitialBuyPrice(fetched.value, solAmount).value
        && FromLe(r.value.data[16..24]) == lib.slippageLamports(solAmount))
    ensures r.Success? ==> (Keys(r.value.accounts)[1] == fetched.value.feeRecipient
        && Keys(r.value.accounts)[2] == mint && Keys(r.value.accounts)[6] == user
        && SignerIndices(r.value.accounts) == {6})
  {
    match fetched
    case Failure(e) => Failure(GlobalAccountFailed(e))
    case Success(g) =>
      match GetInitialBuyPrice(g, solAmount)
      case Failure(e) => Failure(PriceFailed(e))
      case Success(buyAmount) =>
        var find := lib.findProgramAddress;
        var program := PumpFunProgram;
        var bondingCurve := DeriveBondingCurve(find, mint, program).address;
        var assocBondingCurve := DeriveAssociatedBondingCurve(find, mint, bondingCurve).address;
        var assocUser := DeriveAssociatedTokenAccount(find, user, mint).address;
        var creatorVault := DeriveCreatorVault(find, user, program).address;
        Success(NewBuyIx(
          lib.sha256, find, buyAmount, lib.slippageLamports(solAmount), g.feeRecipient, mint,
          assocBondingCurve, assocUser, user, SystemProgramId, TokenProgramId, creatorVault, EventAuthority))
  }

  /**
   * A buy instruction the client assembles carries the "buy" discriminator and
   * names, in the program's order: the global account, the fetched fee
   * recipient, the mint, the bonding curve and its associated token account,
   * the user's associated token account, the user, the system and token
   * programs, the user's creator vault, the event authority and the program.
   */
  lemma BuyIxForAccounts(
    lib: Library, user: Key, mint: Key, solAmount: u64, fetched: Result<GlobalAccount, GlobalAccountError>)
    ensures var r := BuyIxFor(lib, user, mint, solAmount, fetched);
            r.Success? ==> r.value.data[..8] == Discriminator(lib.sha256, "buy")
    ensures var r := BuyIxFor(lib, user, mint, solAmount, fetched);
            var find := lib.findProgramAddress;
            var bondingCurve := DeriveBondingCurve(find, mint, PumpFunProgram).address;
            r.Success? ==>
              Keys(r.value.accounts)
                == [DeriveGlobal(find, PumpFunProgram).address, fetched.value.feeRecipient, mint, bondingCurve,
                    DeriveAssociatedBondingCurve(find, mint, bondingCurve).address,
                    DeriveAssociatedTokenAccount(find, user, mint).address, user, SystemProgramId, TokenProgramId,
                    DeriveCreatorVault(find, user, PumpFunProgram).address, EventAuthority, PumpFunProgram]
  {
  }

  /** The unsigned transaction LaunchToken builds. */
  function LaunchTransaction(
    lib: Library, user: Wallet, mint: Wallet, metadata: Metadata, metadataUri: seq<byte>,
    buyIx: Instruction, bh: BlockhashResult
  ): Transaction
  {
    var createIx := CreateIxFor(lib, user, mint, metadata, metadataUri);
    var createAssocIx := lib.createAssociatedTokenAccount(user.publicKey, user.publicKey, mint.publicKey);
    Transaction([createIx, createAssocIx, buyIx], bh.blockhash, user.publicKey, [])
  }

  /**
   * The create and buy instructions of one launch name the same mint, global
   * account, bonding curve, associated bonding curve and program.
   */
  lemma CreateAndBuyShareCurveAccounts(
    lib: Library, user: Wallet, mint: Wallet, metadata: Metadata, metadataUri: seq<byte>,
    solAmount: u64, fetched: Result<GlobalAccount, GlobalAccountError>)
    ensures var buy := BuyIxFor(lib, user.publicKey, mint.publicKey, solAmount, fetched);
            var c := Keys(CreateIxFor(lib, user, mint, metadata, metadataUri).accounts);
            buy.Success? ==>
              var b := Keys(buy.value.accounts);
              b[0] == c[4] && b[2] == c[0] && b[3] == c[2] && b[4] == c[3] && b[6] == c[7] && b[11] == c[13]
  {
  }

  /**
   * With an associated-token-account instruction that asks only the user or
   * the mint to sign, every signer of the launch transaction resolves through
   * the launch getter, so signing cannot fail.
   */
  lemma LaunchSignersResolve(
    lib: Library, user: Wallet, mint: Wallet, metadata: Metadata, metadataUri: seq<byte>,
    buyIx: Instruction, bh: BlockhashResult)
    requires SignerIndices(buyIx.accounts) == {6} && |buyIx.accounts| == 12 && Keys(buyIx.accounts)[6] == user.publicKey
    requires forall k | k in SignerKeysOf(lib.createAssociatedTokenAccount(user.publicKey, user.publicKey,
      mint.publicKey).accounts) :: k == user.publicKey || k == mint.publicKey
    ensures Sign(LaunchTransaction(lib, user, mint, metadata, metadataUri, buyIx, bh),
                 LaunchSigner(user, mint), lib.signMessage).Success?
  {
    var tx := LaunchTransaction(lib, user, mint, metadata, metadataUri, buyIx, bh);
    SignersAmong(tx.instructions[0].accounts, {0, 7}, mint.publicKey, user.publicKey);
    SignersAmong(buyIx.accounts, {6}, user.publicKey, user.publicKey);
    SignersResolve(tx, user, mint, lib.signMessage);
  }

  /** The signer keys of an account list whose signer positions all hold one of two keys are those keys. */
  lemma SignersAmong(metas: seq<AccountMeta>, signers: set<nat>, a: Key, b: Key)
    requires SignerIndices(metas) == signers
    requires forall i | i in signers :: i < |metas| && (Keys(metas)[i] == a || Keys(metas)[i] == b)
    ensures forall k | k in SignerKeysOf(metas) :: k == a || k == b
  {
    forall k | k in SignerKeysOf(metas) ensures k == a || k == b {
      var i :| 0 <= i < |metas| && metas[i].isSigner && metas[i].key == k;
      assert i in SignerIndices(metas);
    }
  }

  /** A transaction the user pays for, whose instructions ask only the user or the mint to sign, signs. */
  lemma SignersResolve(tx: Transaction, user: Wallet, mint: Wallet, signMessage: (PrivateKey, Transaction) -> Signature)
    requires tx.feePayer == user.publicKey
    requires forall j, k | 0 <= j < |tx.instructions| && k in SignerKeysOf(tx.instructions[j].accounts)
      :: k == user.publicKey || k == mint.publicKey
    ensures Sign(tx, LaunchSigner(user, mint), signMessage).Success?
  {
    SignerKeysInAmong(tx.instructions, user.publicKey, mint.publicKey);
  }

  lemma {:induction false} SignerKeysInAmong(instructions: seq<Instruction>, a: Key, b: Key)
    requires forall j, k | 0 <= j < |instructions| && k in SignerKeysOf(instructions[j].accounts) :: k == a || k == b
    ensures forall k | k in SignerKeysIn(instructions) :: k == a || k == b
  {
    if instructions != [] {
      assert forall j | 1 <= j < |instructions| :: instructions[j] == instructions[1..][j - 1];
      SignerKeysInAmong(instructions[1..], a, b);
    }
  }

  // -------------------------------------------------------------------- node

  /**
   * The remote node: the c-th call of each kind gets the c-th scripted reply,
   * and every request is logged.
   */
  class Node {
    const blockhashReplies: nat -> Result<BlockhashResult, RpcError>
    const accountInfoReplies: nat -> Result<Option<seq<byte>>, RpcError>
    const sendReplies: nat -> Result<Signature, RpcError>
    var blockhashRequests: seq<Commitment>
    var accountInfoRequests: seq<(Key, Commitment)>
    var sendRequests: seq<(Transaction, SendOpts)>

    constructor(
      blockhashReplies: nat -> Result<BlockhashResult, RpcError>,
      accountInfoReplies: nat -> Result<Option<seq<byte>>, RpcError>,
      sendReplies: nat -> Result<Signature, RpcError>)
      ensures this.blockhashReplies == blockhashReplies && this.accountInfoReplies == accountInfoReplies
      ensures this.sendReplies == sendReplies
      ensures blockhashRequests == [] && accountInfoRequests == [] && sendRequests == []
    {
      this.blockhashReplies := blockhashReplies;
      this.accountInfoReplies := accountInfoReplies;
      this.sendReplies := sendReplies;
      blockhashRequests, accountInfoRequests, sendRequests := [], [], [];
    }

    method GetLatestBlockhash(commitment: Commitment) returns (r: Result<BlockhashResult, RpcError>)
      modifies this`blockhashRequests
      ensures r == blockhashReplies(|old(blockhashRequests)|)
      ensures blockhashRequests == old(blockhashRequests) + [commitment]
    {
      r := blockhashReplies(|blockhashRequests|);
      blockhashRequests := blockhashRequests + [commitment];
    }

    /** `Success(None)` is a call that succeeds with no result. */
    method GetAccountInfoWithOpts(account: Key, commitment: Commitment)
      returns (r: Result<Option<seq<byte>>, RpcError>)
      modifies this`accountInfoRequests
      ensures r == accountInfoReplies(|old(accountInfoRequests)|)
      ensures accountInfoRequests == old(accountInfoRequests) + [(account, commitment)]
    {
      r := accountInfoReplies(|accountInfoRequests|);
      accountInfoRequests := accountInfoRequests + [(account, commitment)];
    }

    method SendTransactionWithOpts(tx: Transaction, opts: SendOpts) returns (r: Result<Signature, RpcError>)
      modifies this`sendRequests
      ensures r == sendReplies(|old(sendRequests)|)
      ensures sendRequests == old(sendRequests) + [(tx, opts)]
    {
      r := sendReplies(|sendRequests|);
      sendRequests := sendRequests + [(tx, opts)];
    }
  }

  // ------------------------------------------------------------------ client

  datatype LaunchError =
    | BuyInstructionFailed(buy: BuyError)
    | BlockhashFailed(rpc: RpcError)
    | TransactionFailed(transaction: TransactionError)
    | SignFailed(sign: SignError)
    | SendFailed(rpc: RpcError)

  /** The launcher's client: a node, the user's wallet and, once a create instruction is built, the mint's. */
  class RPCClient {
    const node: Node
    const user: Wallet
    const lib: Library
    var mint: Option<Wallet>
    /** The sleeps so far, in seconds. */
    var sleeps: seq<nat>

    constructor(node: Node, user: Wallet, lib: Library)
      ensures this.node == node && this.user == user && this.lib == lib
      ensures mint == None && sleeps == []
    {
      this.node := node;
      this.user := user;
      this.lib := lib;
      mint := None;
      sleeps := [];
    }

    /** Records `freshMint` as the client's mint and builds its create instruction. */
    method AddCreateInstruction(metadata: Metadata, metadataUri: seq<byte>, freshMint: Wallet)
      returns (createIx: Instruction)
      modifies this`mint
      ensures mint == Some(freshMint)
      ensures createIx == CreateIxFor(lib, user, freshMint, metadata, metadataUri)
    {
      mint := Some(freshMint);
      createIx := NewCreateIx(
        lib.sha256, lib.findProgramAddress, freshMint.publicKey, user.publicKey,
        CreateData(metadata.name, metadata.symbol, metadataUri, user.publicKey));
    }

    method GetGlobalAccount() returns (r: Result<GlobalAccount, GlobalAccountError>)
      modifies this`sleeps, node`accountInfoRequests
      ensures r == FetchGlobal(lib, node.accountInfoReplies, old(|node.accountInfoRequests|))
      ensures node.accountInfoRequests
           == old(node.accountInfoRequests) + FetchRequests(lib, node.accountInfoReplies, old(|node.accountInfoRequests|))
      ensures sleeps == old(sleeps) + FetchSleeps(lib, node.accountInfoReplies, old(|node.accountInfoRequests|))
    {
      var programId := PumpFunProgram;
      var derived := DeriveGlobal(lib.findProgramAddress, programId);
      if derived.exhausted {
        return Failure(DeriveFailed);
      }
      var globalAccount := derived.address;
      ghost var first := |node.accountInfoRequests|;
      var accountInfo: Option<seq<byte>> := None;
      var err: Option<RpcError> := None;
      var i := 0;
      while i < MaxAttempts
        invariant i <= MaxAttempts
        invariant node.accountInfoRequests == old(node.accountInfoRequests) + Repeat((globalAccount, Confirmed), i)
        invariant sleeps == old(sleeps) + Backoff(i)
        invariant forall c | first <= c < first + i :: node.accountInfoReplies(c).Failure?
        invariant i > 0 ==> err == Some(node.accountInfoReplies(first + i - 1).error)
        invariant i == MaxAttempts ==> StopFrom(node.accountInfoReplies, first, 0) == MaxAttempts - 1
      {
        var reply := node.GetAccountInfoWithOpts(globalAccount, Confirmed);
        if reply.Success? {
          accountInfo, err := reply.value, None;
          StopFromIs(node.accountInfoReplies, first, 0, i);
          break;
        }
        accountInfo, err := None, Some(reply.error);
        if i == MaxAttempts - 1 {
          StopFromIs(node.accountInfoReplies, first, 0, i);
        }
        sleeps := sleeps + [i + 1];
        i := i + 1;
      }
      if err.Some? {
        return Failure(FetchFailed(err.value));
      }
      if accountInfo.None? {
        return Failure(AccountNotFound);
      }
      var rawData := accountInfo.value;
      if |rawData| == 0 {
        return Failure(AccountEmpty);
      }
      var decoded := DecodeGlobalAccount(rawData);
      if decoded.Failure? {
        return Failure(DecodeFailed(decoded.error));
      }
      return Success(decoded.value);
    }

    method AddBuyInstruction(mintKey: Key, solAmount: u64) returns (r: Result<Instruction, BuyError>)
      modifies this`sleeps, node`accountInfoRequests
      ensures r == BuyIxFor(lib, user.publicKey, mintKey, solAmount,
                            FetchGlobal(lib, node.accountInfoReplies, old(|node.accountInfoRequests|)))
      ensures node.accountInfoRequests
           == old(node.accountInfoRequests) + FetchRequests(lib, node.accountInfoReplies, old(|node.accountInfoRequests|))
      ensures sleeps == old(sleeps) + FetchSleeps(lib, node.accountInfoReplies, old(|node.accountInfoRequests|))
    {
      var globalAccount := GetGlobalAccount();
      if globalAccount.Failure? {
        return Failure(GlobalAccountFailed(globalAccount.error));
      }
      var buyAmount := GetInitialBuyPrice(globalAccount.value, solAmount);
      if buyAmount.Failure? {
        return Failure(PriceFailed(buyAmount.error));
      }
      var lamportsWithBuffer := lib.slippageLamports(solAmount);
      var find := lib.findProgramAddress;
      var program := PumpFunProgram;
      var bondingCurve := DeriveBondingCurve(find, mintKey, program).address;
      var assocBondingCurve := DeriveAssociatedBondingCurve(find, mintKey, bondingCurve).address;
      var assocUser := DeriveAssociatedTokenAccount(find, user.publicKey, mintKey).address;
      var eventAuthority := EventAuthority;
      var creatorVault := DeriveCreatorVault(find, user.publicKey, program).address;
      var buyIx := NewBuyIx(
        lib.sha256, find, buyAmount.value, lamportsWithBuffer, globalAccount.value.feeRecipient, mintKey,
        assocBondingCurve, assocUser, user.publicKey, SystemProgramId, TokenProgramId, creatorVault,
        eventAuthority);
      return Success(buyIx);
    }

    /** The blockhash loop of LaunchToken, at commitment Processed. */
    method GetLatestBlockhashWithRetry() returns (r: Result<BlockhashResult, RpcError>)
      modifies this`sleeps, node`blockhashRequests
      ensures r == Outcome(node.blockhashReplies, old(|node.blockhashRequests|))
      ensures node.blockhashRequests
           == old(node.blockhashRequests) + Repeat(Processed, Attempts(node.blockhashReplies, old(|node.blockhashRequests|)))
      ensures sleeps == old(sleeps) + Sleeps(node.blockhashReplies, old(|node.blockhashRequests|))
    {
      ghost var first := |node.blockhashRequests|;
      var i := 0;
      r := Failure(RpcError(0, ""));
      while i < MaxAttempts
        invariant i <= MaxAttempts
        invariant node.blockhashRequests == old(node.blockhashRequests) + Repeat(Processed, i)
        invariant sleeps == old(sleeps) + Backoff(i)
        invariant forall c | first <= c < first + i :: node.blockhashReplies(c).Failure?
        invariant i > 0 ==> r == node.blockhashReplies(first + i - 1)
        invariant i == MaxAttempts ==> StopFrom(node.blockhashReplies, first, 0) == MaxAttempts - 1
      {
        r := node.GetLatestBlockhash(Processed);
        if r.Success? {
          StopFromIs(node.blockhashReplies, first, 0, i);
          break;
        }
        if i == MaxAttempts - 1 {
          StopFromIs(node.blockhashReplies, first, 0, i);
        }
        sleeps := sleeps + [i + 1];
        i := i + 1;
      }
    }

    /** The submission loop of LaunchToken. */
    method SendTransactionWithRetry(tx: Transaction, opts: SendOpts) returns (r: Result<Signature, RpcError>)
      modifies this`sleeps, node`sendRequests
      ensures r == Outcome(node.sendReplies, old(|node.sendRequests|))
      ensures node.sendRequests
           == old(node.sendRequests) + Repeat((tx, opts), Attempts(node.sendReplies, old(|node.sendRequests|)))
      ensures sleeps == old(sleeps) + Sleeps(node.sendReplies, old(|node.sendRequests|))
    {
      ghost var first := |node.sendRequests|;
      var i := 0;
      r := Failure(RpcError(0, ""));
      while i < MaxAttempts
        invariant i <= MaxAttempts
        invariant node.sendRequests == old(node.sendRequests) + Repeat((tx, opts), i)
        invariant sleeps == old(sleeps) + Backoff(i)
        invariant forall c | first <= c < first + i :: node.sendReplies(c).Failure?
        invariant i > 0 ==> r == node.sendReplies(first + i - 1)
        invariant i == MaxAttempts ==> StopFrom(node.sendReplies, first, 0) == MaxAttempts - 1
      {
        r := node.SendTransactionWithOpts(tx, opts);
        if r.Success? {
          StopFromIs(node.sendReplies, first, 0, i);
          break;
        }
        if i == MaxAttempts - 1 {
          StopFromIs(node.sendReplies, first, 0, i);
        }
        sleeps := sleeps + [i + 1];
        i := i + 1;
      }
    }

    /**
     * Builds create, associated-token-account and buy instructions for a
     * fresh mint, fetches a blockhash, signs with the user's and the mint's
     * keys and submits. Each step runs only when every earlier one succeeded.
     */
    method LaunchToken(metadata: Metadata, metadataUri: seq<byte>, solAmount: u64, freshMint: Wallet)
      returns (err: Option<LaunchError>)
      modifies this`mint, this`sleeps, node`accountInfoRequests, node`blockhashRequests, node`sendRequests
      ensures mint == Some(freshMint)
      ensures node.accountInfoRequests
           == old(node.accountInfoRequests) + FetchRequests(lib, node.accountInfoReplies, old(|node.accountInfoRequests|))
      ensures err.Some? ==> !err.value.TransactionFailed?
      // the buy instruction fails: nothing more is asked of the node
      ensures var buy := BuyIxFor(lib, user.publicKey, freshMint.publicKey, solAmount,
                                  FetchGlobal(lib, node.accountInfoReplies, old(|node.accountInfoRequests|)));
              buy.Failure? ==> (err == Some(BuyInstructionFailed(buy.error))
                && node.blockhashRequests == old(node.blockhashRequests) && node.sendRequests == old(node.sendRequests)
                && sleeps == old(sleeps) + FetchSleeps(lib, node.accountInfoReplies, old(|node.accountInfoRequests|)))
      // the blockhash loop fails: nothing is sent
      ensures var buy := BuyIxFor(lib, user.publicKey, freshMint.publicKey, solAmount,
                                  FetchGlobal(lib, node.accountInfoReplies, old(|node.accountInfoRequests|)));
              var bh := Outcome(node.blockhashReplies, old(|node.blockhashRequests|));
              buy.Success? ==> (node.blockhashRequests == old(node.blockhashRequests)
                  + Repeat(Processed, Attempts(node.blockhashReplies, old(|node.blockhashRequests|)))
                && (bh.Failure? ==> (err == Some(BlockhashFailed(bh.error)) && node.sendRequests == old(node.sendRequests)
                  && sleeps == old(sleeps) + FetchSleeps(lib, node.accountInfoReplies, old(|node.accountInfoRequests|))
                       + Sleeps(node.blockhashReplies, old(|node.blockhashRequests|)))))
      // signing fails: nothing is sent
      ensures var buy := BuyIxFor(lib, user.publicKey, freshMint.publicKey, solAmount,
                                  FetchGlobal(lib, node.accountInfoReplies, old(|node.accountInfoRequests|)));
              var bh := Outcome(node.blockhashReplies, old(|node.blockhashRequests|));
              buy.Success? && bh.Success? ==>
                var signed := Sign(LaunchTransaction(lib, user, freshMint, metadata, metadataUri, buy.value, bh.value),
                                   LaunchSigner(user, freshMint), lib.signMessage);
                signed.Failure? ==> (err == Some(SignFailed(signed.error)) && node.sendRequests == old(node.sendRequests)
                  && sleeps == old(sleeps) + FetchSleeps(lib, node.accountInfoReplies, old(|node.accountInfoRequests|))
                       + Sleeps(node.blockhashReplies, old(|node.blockhashRequests|)))
      // otherwise the signed transaction is submitted, against the blockhash's slot
      ensures var buy := BuyIxFor(lib, user.publicKey, freshMint.publicKey, solAmount,
                                  FetchGlobal(lib, node.accountInfoReplies, old(|node.accountInfoRequests|)));
              var bh := Outcome(node.blockhashReplies, old(|node.blockhashRequests|));
              buy.Success? && bh.Success? ==>
                var signed := Sign(LaunchTransaction(lib, user, freshMint, metadata, metadataUri, buy.value, bh.value),
                                   LaunchSigner(user, freshMint), lib.signMessage);
                var sent := Outcome(node.sendReplies, old(|node.sendRequests|));
                signed.Success? ==>
                  node.sendRequests == old(node.sendRequests)
                    + Repeat((signed.value, SendOpts(false, Processed, bh.value.slot)),
                             Attempts(node.sendReplies, old(|node.sendRequests|)))
                  && (sent.Success? ==> err == None)
                  && (sent.Failure? ==> err == Some(SendFailed(sent.error)))
                  && sleeps == old(sleeps) + FetchSleeps(lib, node.accountInfoReplies, old(|node.accountInfoRequests|))
                       + Sleeps(node.blockhashReplies, old(|node.blockhashRequests|))
                       + Sleeps(node.sendReplies, old(|node.sendRequests|))
      // with an associated-token-account instruction signed by the user or the mint, signing never fails
      ensures (forall k | k in SignerKeysOf(lib.createAssociatedTokenAccount(user.publicKey, user.publicKey,
                 freshMint.publicKey).accounts) :: k == user.publicKey || k == freshMint.publicKey)
              ==> err.Some? ==> !err.value.SignFailed?
    {
      var createIx := AddCreateInstruction(metadata, metadataUri, freshMint);
      var mintWallet := mint.value;
      var createAssocIx := lib.createAssociatedTokenAccount(user.publicKey, user.publicKey, mintWallet.publicKey);
      var buyIx := AddBuyInstruction(mintWallet.publicKey, solAmount);
      if buyIx.Failure? {
        return Some(BuyInstructionFailed(buyIx.error));
      }
      var bh := GetLatestBlockhashWithRetry();
      if bh.Failure? {
        return Some(BlockhashFailed(bh.error));
      }
      var tx := NewTransaction([createIx, createAssocIx, buyIx.value], bh.value.blockhash, user.publicKey);
      if tx.Failure? {
        // NewTransaction refuses only an empty list, and this one holds three instructions
        assert false;
      }
      assert tx.value == LaunchTransaction(lib, user, mintWallet, metadata, metadataUri, buyIx.value, bh.value);
      if forall k | k in SignerKeysOf(createAssocIx.accounts) :: k == user.publicKey || k == mintWallet.publicKey {
        LaunchSignersResolve(lib, user, mintWallet, metadata, metadataUri, buyIx.value, bh.value);
      }
      var signed := Sign(tx.value, LaunchSigner(user, mintWallet), lib.signMessage);
      if signed.Failure? {
        return Some(SignFailed(signed.error));
      }
      var sig := SendTransactionWithRetry(signed.value, SendOpts(false, Processed, bh.value.slot));
      if sig.Failure? {
        return Some(SendFailed(sig.error));
      }
      return None;
    }
  }
}
