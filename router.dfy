/** The mock DEX router: two simulated venues whose prices are affine in a
    random draw, the best-quote rule, and the simulated swap that yields a
    transaction hash and an executed price.

    The source's `randomFn` is a stream of draws; here `rnd(k)` is the value
    of its `k`-th call within one operation. Within `getBestQuote` the
    raydium quote takes the first draw and the meteora quote the second
    (both wait the same 200 ms before drawing, and their timers fire in the
    order they were set). Within `executeSwap` draw 0 sets the simulated
    latency, draws 1 to 64 the hash digits, and draw 65 the price. */
module DexRouter {
  import opened Domain

  datatype DexQuote = DexQuote(dex: Dex, price: real, fee: real)

  /** `getBestQuote`'s result: the winning quote and every candidate. */
  datatype BestQuote = BestQuote(best: DexQuote, all: seq<DexQuote>)

  datatype SwapResult = SwapResult(txHash: string, executedPrice: real)

  const RaydiumFee: real := 0.003
  const MeteoraFee: real := 0.002

  /** The number of hex digits after the `0x` prefix of a transaction hash. */
  const HashDigits: nat := 64

  /** Draws `executeSwap` takes from the stream: latency, digits, price. */
  const SwapDraws: nat := 66

  /** Scaling a non-negative base by a factor in [lo, hi] stays in
      [base*lo, base*hi]. */
  lemma ScaleBounds(base: real, factor: real, lo: real, hi: real)
    requires 0.0 <= base && lo <= factor <= hi
    ensures base * lo <= base * factor <= base * hi
  {
    assert base * (factor - lo) >= 0.0;
    assert base * (hi - factor) >= 0.0;
  }

  /** `getRaydiumQuote`: price `base*(0.98 + r*0.04)`, fee 0.3%. */
  function RaydiumQuote(basePrice: real, r: real): (q: DexQuote)
    ensures q.dex == Raydium && q.fee == RaydiumFee
  {
    DexQuote(Raydium, basePrice * (0.98 + r * 0.04), RaydiumFee)
  }

  /** `getMeteoraQuote`: price `base*(0.97 + r*0.05)`, fee 0.2%. */
  function MeteoraQuote(basePrice: real, r: real): (q: DexQuote)
    ensures q.dex == Meteora && q.fee == MeteoraFee
  {
    DexQuote(Meteora, basePrice * (0.97 + r * 0.05), MeteoraFee)
  }

  /** For a draw in [0, 1] a raydium price lies in [0.98, 1.02] times the
      base price. */
  lemma RaydiumPriceRange(basePrice: real, r: real)
    requires 0.0 <= basePrice && 0.0 <= r <= 1.0
    ensures basePrice * 0.98 <= RaydiumQuote(basePrice, r).price <= basePrice * 1.02
  {
    ScaleBounds(basePrice, 0.98 + r * 0.04, 0.98, 1.02);
  }

  /** For a draw in [0, 1] a meteora price lies in [0.97, 1.02] times the
      base price. */
  lemma MeteoraPriceRange(basePrice: real, r: real)
    requires 0.0 <= basePrice && 0.0 <= r <= 1.0
    ensures basePrice * 0.97 <= MeteoraQuote(basePrice, r).price <= basePrice * 1.02
  {
    ScaleBounds(basePrice, 0.97 + r * 0.05, 0.97, 1.02);
  }

  /** `getBestQuote`: both venues are asked, listed raydium first, and the
      raydium quote wins only when its price is strictly higher, so an exact
      tie goes to meteora. */
  function GetBestQuote(basePrice: real, rnd: nat -> real): (r: BestQuote)
    ensures r.all == [RaydiumQuote(basePrice, rnd(0)), MeteoraQuote(basePrice, rnd(1))]
    ensures r.best in r.all
    ensures forall q :: q in r.all ==> q.price <= r.best.price
    ensures r.best.dex == Raydium <==> r.all[0].price > r.all[1].price
  {
    var raydium := RaydiumQuote(basePrice, rnd(0));
    var meteora := MeteoraQuote(basePrice, rnd(1));
    BestQuote(if raydium.price > meteora.price then raydium else meteora, [raydium, meteora])
  }

  /** With `randomFn = () => 1` (the routing test's maximal draw) both venues
      quote 1.02 at base price 1, and the tie goes to meteora. */
  lemma MaximalDrawsTieToMeteora()
    ensures GetBestQuote(1.0, _ => 1.0).all[0].price == GetBestQuote(1.0, _ => 1.0).all[1].price == 1.02
    ensures GetBestQuote(1.0, _ => 1.0).best.dex == Meteora
  {
  }

  // ---------------------------------------------------------------------
  // Transaction hash
  // ---------------------------------------------------------------------

  const HexAlphabet: string := "0123456789abcdef"

  /** `Number.prototype.toString(16)` of a natural number. */
  function NatHex(n: nat): (s: string)
    ensures |s| >= 1
    ensures forall i :: 0 <= i < |s| ==> s[i] in HexAlphabet
    ensures n < 16 ==> s == [HexAlphabet[n]]
    ensures n >= 16 ==> |s| >= 2
    decreases n
  {
    if n < 16 then [HexAlphabet[n]] else NatHex(n / 16) + [HexAlphabet[n % 16]]
  }

  /** `Number.prototype.toString(16)` of an integer (a minus sign, then the
      digits of its magnitude). */
  function IntHex(n: int): string {
    if n < 0 then "-" + NatHex(-n) else NatHex(n)
  }

  /** One digit of the hash: `Math.floor(r * 16).toString(16)`. */
  function HashDigit(r: real): string {
    IntHex((r * 16.0).Floor)
  }

  /** The strings of `ss`, joined. */
  function Concat(ss: seq<string>): (s: string)
    ensures ss == [] ==> s == ""
    decreases |ss|
  {
    if ss == [] then "" else ss[0] + Concat(ss[1..])
  }

  /** The digits `executeSwap` draws, one string per call: the `i`-th
      comes from `rnd(1 + i)`. */
  function HashDigitList(rnd: nat -> real): (ds: seq<string>)
    ensures |ds| == HashDigits
    ensures forall i :: 0 <= i < HashDigits ==> ds[i] == HashDigit(rnd(1 + i))
  {
    seq(HashDigits, i requires 0 <= i < HashDigits => HashDigit(rnd(1 + i)))
  }

  /** The hash `executeSwap` builds: `0x` followed by the 64 drawn digits. */
  function TxHash(rnd: nat -> real): string {
    "0x" + Concat(HashDigitList(rnd))
  }

  /** A draw in [0, 1) yields exactly one lowercase hex digit. */
  lemma HashDigitIsOneHexChar(r: real)
    requires 0.0 <= r < 1.0
    ensures |HashDigit(r)| == 1 && HashDigit(r)[0] in HexAlphabet
  {
    var d := (r * 16.0).Floor;
    assert 0.0 <= r * 16.0 < 16.0;
    assert 0 <= d < 16;
  }

  /** Joining one-character strings keeps one character per string. */
  lemma {:induction false} ConcatOfSingles(ss: seq<string>)
    requires forall i :: 0 <= i < |ss| ==> |ss[i]| == 1
    ensures |Concat(ss)| == |ss|
    ensures forall i :: 0 <= i < |ss| ==> Concat(ss)[i] == ss[i][0]
    decreases |ss|
  {
    if ss != [] {
      ConcatOfSingles(ss[1..]);
      var c := Concat(ss);
      assert c == ss[0] + Concat(ss[1..]);
      forall i | 0 <= i < |ss| ensures c[i] == ss[i][0] {
        if i > 0 {
          assert c[i] == Concat(ss[1..])[i - 1];
          assert ss[1..][i - 1] == ss[i];
        }
      }
    }
  }

  /** For draws in [0, 1) the hash is 66 characters: `0x`, then 64 lowercase
      hex digits (the test's `/^0x[0-9a-f]{64}$/`). */
  lemma TxHashWellFormed(rnd: nat -> real)
    requires forall k :: 1 <= k <= HashDigits ==> 0.0 <= rnd(k) < 1.0
    ensures |TxHash(rnd)| == 2 + HashDigits
    ensures TxHash(rnd)[..2] == "0x"
    ensures forall i :: 2 <= i < |TxHash(rnd)| ==> TxHash(rnd)[i] in HexAlphabet
  {
    var ds := HashDigitList(rnd);
    forall i | 0 <= i < |ds| ensures |ds[i]| == 1 && ds[i][0] in HexAlphabet {
      HashDigitIsOneHexChar(rnd(1 + i));
    }
    ConcatOfSingles(ds);
    var h := TxHash(rnd);
    forall i | 2 <= i < |h| ensures h[i] in HexAlphabet {
      assert h[i] == Concat(ds)[i - 2] == ds[i - 2][0];
    }
  }

  /** Joining `n` copies of `s`. */
  function Repeat(s: string, n: nat): (r: string)
    ensures |r| == |s| * n
  {
    if n == 0 then "" else s + Repeat(s, n - 1)
  }

  lemma {:induction false} ConcatOfCopies(ss: seq<string>, s: string)
    requires forall i :: 0 <= i < |ss| ==> ss[i] == s
    ensures Concat(ss) == Repeat(s, |ss|)
    decreases |ss|
  {
    if ss != [] {
      ConcatOfCopies(ss[1..], s);
    }
  }

  /** The hash format relies on draws staying below 1: a draw of exactly 1
      gives the two-character digit `10`, so a stream of ones yields a
      130-character hash. */
  lemma DrawOfOneBreaksHashFormat()
    ensures |TxHash(_ => 1.0)| == 2 + 2 * HashDigits
  {
    var ds := HashDigitList(_ => 1.0);
    forall i | 0 <= i < |ds| ensures ds[i] == "10" {
      assert HashDigit(1.0) == "10";
    }
    ConcatOfCopies(ds, "10");
  }

  /** The format the tests check: `/^0x[0-9a-f]{64}$/`. */
  predicate WellFormedHash(h: string) {
    && |h| == 2 + HashDigits && h[..2] == "0x"
    && forall i :: 2 <= i < |h| ==> h[i] in HexAlphabet
  }

  // ---------------------------------------------------------------------
  // The swap
  // ---------------------------------------------------------------------

  /** The executed price for a price draw `r`: `base*(0.99 + r*0.02)`. */
  function SwapPrice(basePrice: real, r: real): real {
    basePrice * (0.99 + r * 0.02)
  }

  /** `executeSwap`: neither the venue nor the order influences the mock's
      result. For digit draws in [0, 1) the hash is `0x` and 64 lowercase
      hex digits; for a price draw in [0, 1] the price lies within 1% of
      the base price. */
  function ExecuteSwap(basePrice: real, dex: Dex, rnd: nat -> real): (s: SwapResult)
    ensures (forall k :: 1 <= k <= HashDigits ==> 0.0 <= rnd(k) < 1.0) ==> WellFormedHash(s.txHash)
    ensures 0.0 <= basePrice && 0.0 <= rnd(SwapDraws - 1) <= 1.0 ==>
      basePrice * 0.99 <= s.executedPrice <= basePrice * 1.01
  {
    assert (forall k :: 1 <= k <= HashDigits ==> 0.0 <= rnd(k) < 1.0) ==> WellFormedHash(TxHash(rnd)) by {
      if forall k :: 1 <= k <= HashDigits ==> 0.0 <= rnd(k) < 1.0 {
        TxHashWellFormed(rnd);
      }
    }
    assert 0.0 <= basePrice && 0.0 <= rnd(SwapDraws - 1) <= 1.0 ==>
      basePrice * 0.99 <= SwapPrice(basePrice, rnd(SwapDraws - 1)) <= basePrice * 1.01 by {
      if 0.0 <= basePrice && 0.0 <= rnd(SwapDraws - 1) <= 1.0 {
        SwapPriceRange(basePrice, rnd(SwapDraws - 1));
      }
    }
    SwapResult(TxHash(rnd), SwapPrice(basePrice, rnd(SwapDraws - 1)))
  }

  /** For a price draw in [0, 1] the executed price lies in [0.99, 1.01]
      times the base price, so it is positive when the base price is. */
  lemma SwapPriceRange(basePrice: real, r: real)
    requires 0.0 <= basePrice && 0.0 <= r <= 1.0
    ensures basePrice * 0.99 <= SwapPrice(basePrice, r) <= basePrice * 1.01
    ensures 0.0 < basePrice ==> 0.0 < SwapPrice(basePrice, r)
  {
    ScaleBounds(basePrice, 0.99 + r * 0.02, 0.99, 1.01);
  }
}
