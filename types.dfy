/**
 * Records of internal/types/main.go, their Borsh layouts, and the initial-buy
 * pricing on pump.fun's constant-product bonding curve.
 *
 * Borsh lays fields out in declaration order with no padding: u64 as 8 bytes
 * little-endian, bool as one byte, a public key as its 32 raw bytes, a string
 * as a u32 little-endian byte count followed by the bytes.
 */
module Types {
  import opened Wrappers
  import opened Bytes
  import opened Solana

  datatype BuyData = BuyData(amount: u64, maxSolCost: u64)

  /** Strings are Go strings, i.e. byte sequences. */
  datatype CreateData = CreateData(name: seq<byte>, symbol: seq<byte>, uri: seq<byte>, creator: Key)

  /** The token's off-chain metadata document; only `name` and `symbol` reach an instruction. */
  datatype Metadata = Metadata(
    name: seq<byte>, symbol: seq<byte>, description: seq<byte>, image: seq<byte>, showName: bool,
    createdOn: seq<byte>, twitter: seq<byte>, telegram: seq<byte>, website: seq<byte>)

  /** The program's global configuration account. */
  datatype GlobalAccount = GlobalAccount(
    discriminator: u64,
    initialized: bool,
    authority: Key,
    feeRecipient: Key,
    initialVirtualTokenReserves: u64,
    initialVirtualSolReserves: u64,
    initialRealTokenReserves: u64,
    tokenTotalSupply: u64,
    feeBasisPoints: u64)

  // ---------------------------------------------------------------- Borsh

  function BorshBool(b: bool): seq<byte>
  {
    if b then [1] else [0]
  }

  /** A string: its length as a u32 (the low 32 bits of the length) then its bytes. */
  function BorshString(s: seq<byte>): (b: seq<byte>)
    ensures |b| == 4 + |s| && b[4..] == s
  {
    LeBytes(|s|, 4) + s
  }

  function EncodeBuyData(d: BuyData): (b: seq<byte>)
    ensures |b| == 16
  {
    U64Le(d.amount) + U64Le(d.maxSolCost)
  }

  function EncodeCreateData(d: CreateData): (b: seq<byte>)
    ensures |b| == 44 + |d.name| + |d.symbol| + |d.uri|
  {
    BorshString(d.name) + BorshString(d.symbol) + BorshString(d.uri) + d.creator
  }

  /** Decoding of a Borsh string at the front of `b`: the string and the bytes after it. */
  function DecodeString(b: seq<byte>): Option<(seq<byte>, seq<byte>)>
  {
    if |b| < 4 then None
    else
      var n := FromLe(b[..4]);
      if |b| - 4 < n then None else Some((b[4..4 + n], b[4 + n..]))
  }

  /** The program's view of a create payload's arguments: three strings and a key, nothing after. */
  function DecodeCreateData(b: seq<byte>): Option<CreateData>
  {
    match DecodeString(b)
    case None => None
    case Some((name, r1)) =>
      match DecodeString(r1)
      case None => None
      case Some((symbol, r2)) =>
        match DecodeString(r2)
        case None => None
        case Some((uri, r3)) =>
          if |r3| != 32 then None else Some(CreateData(name, symbol, uri, r3))
  }

  lemma DecodeStringOfEncoding(s: seq<byte>, rest: seq<byte>)
    requires |s| < TWO_32
    ensures DecodeString(BorshString(s) + rest) == Some((s, rest))
  {
    var b := BorshString(s) + rest;
    Pow256Widths();
    FromLeLeBytes(|s|, 4);
    assert b[..4] == LeBytes(|s|, 4);
    assert b[4..4 + |s|] == s;
    assert b[4 + |s|..] == rest;
  }

  /** Encoding the create arguments then decoding them recovers them, for strings under 4 GiB. */
  lemma {:induction false} CreateDataRoundTrip(d: CreateData)
    requires |d.name| < TWO_32 && |d.symbol| < TWO_32 && |d.uri| < TWO_32
    ensures DecodeCreateData(EncodeCreateData(d)) == Some(d)
  {
    var tail3 := d.creator;
    var tail2 := BorshString(d.uri) + tail3;
    var tail1 := BorshString(d.symbol) + tail2;
    assert EncodeCreateData(d) == BorshString(d.name) + tail1;
    DecodeStringOfEncoding(d.name, tail1);
    DecodeStringOfEncoding(d.symbol, tail2);
    DecodeStringOfEncoding(d.uri, tail3);
  }

  // ------------------------------------------------------- GlobalAccount

  /** 8 + 1 + 32 + 32 + 5 * 8 bytes. */
  const GlobalAccountSize: nat := 113

  datatype DecodeError = DataTooShort

  function EncodeGlobalAccount(g: GlobalAccount): (b: seq<byte>)
    ensures |b| == GlobalAccountSize
  {
    U64Le(g.discriminator) + BorshBool(g.initialized) + g.authority + g.feeRecipient
    + U64Le(g.initialVirtualTokenReserves) + U64Le(g.initialVirtualSolReserves)
    + U64Le(g.initialRealTokenReserves) + U64Le(g.tokenTotalSupply) + U64Le(g.feeBasisPoints)
  }

  function ReadU64(b: seq<byte>, at: nat): (x: u64)
    requires at + 8 <= |b|
  {
    Pow256Widths();
    FromLe(b[at..at + 8])
  }

  /**
   * `borsh.Deserialize` into a GlobalAccount: the fields are read from the first
   * 113 bytes; later bytes (the on-chain account holds more fields) are not read.
   * The initialized flag is true for any non-zero byte.
   */
  function DecodeGlobalAccount(data: seq<byte>): (r: Result<GlobalAccount, DecodeError>)
    ensures r.Failure? <==> |data| < GlobalAccountSize
    ensures r.Success? && data[8] <= 1 ==> EncodeGlobalAccount(r.value) == data[..GlobalAccountSize]
  {
    if |data| < GlobalAccountSize then Failure(DataTooShort)
    else
      var g := GlobalAccount(
        ReadU64(data, 0), data[8] != 0, data[9..41], data[41..73],
        ReadU64(data, 73), ReadU64(data, 81), ReadU64(data, 89), ReadU64(data, 97), ReadU64(data, 105));
      EncodeOfDecoded(data, g);
      Success(g)
  }

  lemma EncodeU64Field(data: seq<byte>, at: nat)
    requires at + 8 <= |data|
    ensures U64Le(ReadU64(data, at)) == data[at..at + 8]
  {
    LeBytesFromLe(data[at..at + 8]);
  }

  lemma EncodeOfDecoded(data: seq<byte>, g: GlobalAccount)
    requires |data| >= GlobalAccountSize
    requires g == GlobalAccount(
        ReadU64(data, 0), data[8] != 0, data[9..41], data[41..73],
        ReadU64(data, 73), ReadU64(data, 81), ReadU64(data, 89), ReadU64(data, 97), ReadU64(data, 105))
    ensures data[8] <= 1 ==> EncodeGlobalAccount(g) == data[..GlobalAccountSize]
  {
    if data[8] <= 1 {
      EncodeU64Field(data, 0);
      EncodeU64Field(data, 73);
      EncodeU64Field(data, 81);
      EncodeU64Field(data, 89);
      EncodeU64Field(data, 97);
      EncodeU64Field(data, 105);
      assert BorshBool(g.initialized) == data[8..9];
      PrefixStep(data, 8, 9);
      PrefixStep(data, 9, 41);
      PrefixStep(data, 41, 73);
      PrefixStep(data, 73, 81);
      PrefixStep(data, 81, 89);
      PrefixStep(data, 89, 97);
      PrefixStep(data, 97, 105);
      PrefixStep(data, 105, 113);
    }
  }

  lemma PrefixStep(data: seq<byte>, k: nat, m: nat)
    requires k <= m <= |data|
    ensures data[..k] + data[k..m] == data[..m]
  {
  }

  lemma ReadU64Of(b: seq<byte>, at: nat, x: u64)
    requires at + 8 <= |b| && b[at..at + 8] == U64Le(x)
    ensures ReadU64(b, at) == x
  {
  }

  /** If `p + f` begins `b`, then so does `p`, and `f` follows it. */
  lemma PrefixSplit(p: seq<byte>, f: seq<byte>, b: seq<byte>)
    requires |p| + |f| <= |b| && b[..|p| + |f|] == p + f
    ensures b[..|p|] == p && b[|p|..|p| + |f|] == f
  {
    assert b[..|p|] == b[..|p| + |f|][..|p|];
    assert b[|p|..|p| + |f|] == b[..|p| + |f|][|p|..];
  }

  /** Decoding an encoded account recovers it, whatever follows the 113 bytes. */
  lemma GlobalAccountRoundTrip(g: GlobalAccount, trailing: seq<byte>)
    ensures DecodeGlobalAccount(EncodeGlobalAccount(g) + trailing) == Success(g)
  {
    var e1 := U64Le(g.discriminator);
    var e2 := e1 + BorshBool(g.initialized);
    var e3 := e2 + g.authority;
    var e4 := e3 + g.feeRecipient;
    var e5 := e4 + U64Le(g.initialVirtualTokenReserves);
    var e6 := e5 + U64Le(g.initialVirtualSolReserves);
    var e7 := e6 + U64Le(g.initialRealTokenReserves);
    var e8 := e7 + U64Le(g.tokenTotalSupply);
    var e9 := e8 + U64Le(g.feeBasisPoints);
    var b := EncodeGlobalAccount(g) + trailing;
    assert b[..113] == e9;
    PrefixSplit(e8, U64Le(g.feeBasisPoints), b);
    PrefixSplit(e7, U64Le(g.tokenTotalSupply), b);
    PrefixSplit(e6, U64Le(g.initialRealTokenReserves), b);
    PrefixSplit(e5, U64Le(g.initialVirtualSolReserves), b);
    PrefixSplit(e4, U64Le(g.initialVirtualTokenReserves), b);
    PrefixSplit(e3, g.feeRecipient, b);
    PrefixSplit(e2, g.authority, b);
    PrefixSplit(e1, BorshBool(g.initialized), b);
    PrefixSplit([], e1, b);
    ReadU64Of(b, 0, g.discriminator);
    ReadU64Of(b, 73, g.initialVirtualTokenReserves);
    ReadU64Of(b, 81, g.initialVirtualSolReserves);
    ReadU64Of(b, 89, g.initialRealTokenReserves);
    ReadU64Of(b, 97, g.tokenTotalSupply);
    ReadU64Of(b, 105, g.feeBasisPoints);
  }

  // -------------------------------------------------------------- pricing

  datatype PriceError = NegativeTokenAmount | TokenAmountOverflow

  /** The payment plus a 5% slippage buffer, rounded down: floor(21 · solAmount / 20). */
  function BufferedAmount(solAmount: nat): (a: nat)
    ensures 20 * a <= 21 * solAmount < 20 * a + 20
  {
    solAmount + solAmount / 20
  }

  /**
   * floor(k / n) + 1: the least count whose product with n exceeds k. When n
   * divides k this is one more than the exact quotient.
   */
  function RemainingTokens(k: nat, n: nat): (r: nat)
    requires n > 0
    ensures r * n > k && (r - 1) * n <= k
  {
    k / n + 1
  }

  function Min(a: int, b: int): int
  {
    if a < b then a else b
  }

  /** The "token amount overflow" error, as a price result. */
  const Overflow: Result<u64, PriceError> := Failure(TokenAmountOverflow)

  /**
   * `GlobalAccount.GetInitialBuyPrice`: the tokens an initial buy of `solAmount`
   * lamports receives, on exact (unbounded) integers.
   */
  function GetInitialBuyPrice(g: GlobalAccount, solAmount: u64): (r: Result<u64, PriceError>)
    ensures solAmount == 0 ==> r == Success(0)
    ensures r.Success? ==> r.value <= g.initialRealTokenReserves
    ensures r != Failure(TokenAmountOverflow)
  {
    if solAmount <= 0 then Success(0)
    else
      var vSol := g.initialVirtualSolReserves;
      var vToken := g.initialVirtualTokenReserves;
      var amount := BufferedAmount(solAmount);
      var k := vSol * vToken;
      var newSolReserves := vSol + amount;
      var r := RemainingTokens(k, newSolReserves);
      var s := vToken - r;
      if s < 0 then Failure(NegativeTokenAmount)
      else if s >= TWO_64 then Overflow
      else if s < g.initialRealTokenReserves then Success(s)
      else Success(g.initialRealTokenReserves)
  }

  /**
   * Selling t of the vToken virtual tokens for a buffered payment eff keeps the
   * product of the virtual reserves strictly above k = vSol · vToken, and t + 1
   * tokens would not: t is the largest purchase that never lowers the product.
   */
  predicate IsCurveQuote(vSol: nat, vToken: nat, eff: nat, t: int)
  {
    (vSol + eff) * (vToken - t) > vSol * vToken >= (vSol + eff) * (vToken - t - 1)
  }

  lemma MulMonotone(a: int, b: int, n: nat)
    requires a <= b
    ensures a * n <= b * n
  {
  }

  /** At most one count exceeds k when multiplied by n while its predecessor does not. */
  lemma LeastExceedingUnique(k: int, n: nat, a: int, b: int)
    requires a * n > k >= (a - 1) * n
    requires b * n > k >= (b - 1) * n
    ensures a == b
  {
    if a < b {
      MulMonotone(a, b - 1, n);
    } else if b < a {
      MulMonotone(b, a - 1, n);
    }
  }

  /** A larger divisor gives a quotient no larger. */
  lemma DivAntitone(k: nat, n1: nat, n2: nat)
    requires 0 < n1 <= n2
    ensures k / n2 <= k / n1
  {
    var q2 := k / n2;
    MulMonotone(n1, n2, q2);
    assert q2 * n1 <= k;
    if q2 > k / n1 {
      MulMonotone(k / n1 + 1, q2, n1);
    }
  }

  /** Every state and positive buffered payment has a curve quote. */
  lemma CurveQuoteExists(vSol: nat, vToken: nat, eff: nat)
    requires eff > 0
    ensures IsCurveQuote(vSol, vToken, eff, vToken - RemainingTokens(vSol * vToken, vSol + eff))
  {
  }

  /**
   * For a positive payment the price is the curve quote for the buffered
   * payment, rejected when negative and otherwise clamped to the real reserves.
   */
  lemma {:induction false} InitialBuyPriceOnCurve(g: GlobalAccount, solAmount: u64, t: int)
    requires solAmount > 0
    requires IsCurveQuote(g.initialVirtualSolReserves, g.initialVirtualTokenReserves, BufferedAmount(solAmount), t)
    ensures GetInitialBuyPrice(g, solAmount)
         == if t < 0 then Failure(NegativeTokenAmount) else Success(Min(t, g.initialRealTokenReserves))
  {
    var vSol, vToken := g.initialVirtualSolReserves, g.initialVirtualTokenReserves;
    var n := vSol + BufferedAmount(solAmount);
    var r := RemainingTokens(vSol * vToken, n);
    LeastExceedingUnique(vSol * vToken, n, r, vToken - t);
  }

  /**
   * For a positive payment the "negative token amount" error happens exactly
   * when the virtual token reserves are zero: otherwise the quote is at least 0.
   */
  lemma {:induction false} NegativeOnlyWithoutTokenReserves(g: GlobalAccount, solAmount: u64)
    requires solAmount > 0
    ensures GetInitialBuyPrice(g, solAmount) == Failure(NegativeTokenAmount)
        <==> g.initialVirtualTokenReserves == 0
  {
    var vSol, vToken := g.initialVirtualSolReserves, g.initialVirtualTokenReserves;
    var n := vSol + BufferedAmount(solAmount);
    var r := RemainingTokens(vSol * vToken, n);
    if vToken > 0 {
      MulMonotone(vSol + 1, n, vToken);
      assert vSol * vToken < vToken * n;
      if r > vToken {
        MulMonotone(vToken, r - 1, n);
      }
    }
  }

  /**
   * For a fixed state, successful prices do not decrease as the payment grows,
   * and a payment that succeeds makes every larger payment succeed.
   */
  lemma {:induction false} InitialBuyPriceMonotone(g: GlobalAccount, a: u64, b: u64)
    requires a <= b
    requires GetInitialBuyPrice(g, a).Success?
    ensures a > 0 ==> GetInitialBuyPrice(g, b).Success?
    ensures GetInitialBuyPrice(g, b).Success? ==> GetInitialBuyPrice(g, a).value <= GetInitialBuyPrice(g, b).value
  {
    if a > 0 {
      var vSol, vToken := g.initialVirtualSolReserves, g.initialVirtualTokenReserves;
      var k := vSol * vToken;
      var na, nb := vSol + BufferedAmount(a), vSol + BufferedAmount(b);
      assert a / 20 <= b / 20;
      DivAntitone(k, na, nb);
      NegativeOnlyWithoutTokenReserves(g, a);
      NegativeOnlyWithoutTokenReserves(g, b);
    }
  }

  /**
   * A fixed regression value: pump.fun's launch reserves (30 SOL and 1.073e15
   * virtual token units, 7.931e14 real) and a 0.01 SOL payment.
   */
  lemma GoldenInitialBuyPrice(authority: Key, feeRecipient: Key)
    ensures GetInitialBuyPrice(
              GlobalAccount(0, true, authority, feeRecipient, 1_073_000_000_000_000, 30_000_000_000,
                            793_100_000_000_000, 1_000_000_000_000_000, 100),
              10_000_000)
         == Success(375_418_603_488)
  {
    var k: nat := 30_000_000_000 * 1_073_000_000_000_000;
    var n: nat := 30_000_000_000 + BufferedAmount(10_000_000);
    assert n == 30_010_500_000;
    assert k == 1_072_624_581_396_511 * n + 6_634_500_000;
    assert RemainingTokens(k, n) == 1_072_624_581_396_512;
  }

  /**
   * The same payment against virtual SOL reserves of 30 000 SOL
   * (3e13 lamports): the larger reserves make the price a thousand times
   * smaller.
   */
  lemma GoldenInitialBuyPriceLargeReserves(authority: Key, feeRecipient: Key)
    ensures GetInitialBuyPrice(
              GlobalAccount(0, true, authority, feeRecipient, 1_073_000_000_000_000, 30_000_000_000_000,
                            793_100_000_000_000, 1_000_000_000_000_000, 100),
              10_000_000)
         == Success(375_549_868)
  {
    var k: nat := 30_000_000_000_000 * 1_073_000_000_000_000;
    var n: nat := 30_000_000_000_000 + BufferedAmount(10_000_000);
    assert n == 30_000_010_500_000;
    assert k == 1_072_999_624_450_131 * n + 13_273_624_500_000;
    assert RemainingTokens(k, n) == 1_072_999_624_450_132;
  }
}
