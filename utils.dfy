/** src/utils/utils.go: block statuses, the big-endian int64 encoder and the
    command-line argument matchers. */
module Utils {
  import opened Numeric
  import opened Wrappers

  /** The ten outcomes of block validation, numbered 0..9 in this order
      (an iota enumeration in the source). */
  datatype BlockStatus =
    | Verified
    | WrongGenesis
    | PrevBlockNotFound
    | HashMismatch
    | WrongTxID
    | TooManyCoinbaseTX
    | SourceTXONotFound
    | WrongTXInputSignature
    | InputSumOutputSumMismatch
    | DoubleSpending
  {
    function Code(): (c: int)
      ensures 0 <= c <= 9
    {
      match this
      case Verified => 0
      case WrongGenesis => 1
      case PrevBlockNotFound => 2
      case HashMismatch => 3
      case WrongTxID => 4
      case TooManyCoinbaseTX => 5
      case SourceTXONotFound => 6
      case WrongTXInputSignature => 7
      case InputSumOutputSumMismatch => 8
      case DoubleSpending => 9
    }
  }

  /** The status with a given number, if there is one. */
  function FromCode(c: int): (r: Option<BlockStatus>)
    ensures r.Some? <==> 0 <= c <= 9
    ensures r.Some? ==> r.value.Code() == c
  {
    if c == 0 then Some(Verified)
    else if c == 1 then Some(WrongGenesis)
    else if c == 2 then Some(PrevBlockNotFound)
    else if c == 3 then Some(HashMismatch)
    else if c == 4 then Some(WrongTxID)
    else if c == 5 then Some(TooManyCoinbaseTX)
    else if c == 6 then Some(SourceTXONotFound)
    else if c == 7 then Some(WrongTXInputSignature)
    else if c == 8 then Some(InputSumOutputSumMismatch)
    else if c == 9 then Some(DoubleSpending)
    else None
  }

  /** `BlockStatus.String()`: the status's name for the ten known numbers,
      "Unknown" for any other value of the underlying integer. */
  function StatusString(code: int): (r: string)
    ensures r == "Unknown" <==> !(0 <= code <= 9)
  {
    match FromCode(code)
    case Some(Verified) => "Verified"
    case Some(WrongGenesis) => "WrongGenesis"
    case Some(PrevBlockNotFound) => "PrevBlockNotFound"
    case Some(HashMismatch) => "HashMismatch"
    case Some(WrongTxID) => "WrongTxID"
    case Some(TooManyCoinbaseTX) => "TooManyCoinbaseTX"
    case Some(SourceTXONotFound) => "SourceTXONotFound"
    case Some(WrongTXInputSignature) => "WrongTXInputSignature"
    case Some(InputSumOutputSumMismatch) => "InputSumOutputSumMismatch"
    case Some(DoubleSpending) => "DoubleSpending"
    case None => "Unknown"
  }

  /** Numbering and naming agree: every status round-trips through its number,
      and distinct numbers get distinct names. */
  lemma StatusNumbering(s: BlockStatus, c1: int, c2: int)
    ensures FromCode(s.Code()) == Some(s)
    ensures 0 <= c1 <= 9 && 0 <= c2 <= 9 && c1 != c2 ==> StatusString(c1) != StatusString(c2)
  {
  }

  /** `Int2Hex`: the 8-byte big-endian two's-complement encoding of an int64. */
  function Int2Hex(n: int): (r: seq<byte>)
    ensures |r| == 8
  {
    NatToBytes(n % TwoTo64, 8)
  }

  /** Reads 8 big-endian bytes back as a signed 64-bit integer. */
  function Hex2Int(b: seq<byte>): int
    requires |b| == 8
  {
    var u := BytesToNat(b);
    if u > MaxInt64 then u - TwoTo64 else u
  }

  lemma Pow2Is64()
    ensures Pow2(64) == TwoTo64
  {
    assert Pow2(8) == 0x100;
    Pow2Add(8, 8);
    assert Pow2(16) == 0x1_0000;
    Pow2Add(16, 16);
    assert Pow2(32) == 0x1_0000_0000;
    Pow2Add(32, 32);
  }

  /** Decoding the encoder's output recovers every int64, so the encoder is
      injective on int64. */
  lemma Int2HexRoundTrip(n: int, m: int)
    requires IsInt64(n) && IsInt64(m)
    ensures BytesToNat(Int2Hex(n)) == n % TwoTo64
    ensures Hex2Int(Int2Hex(n)) == n
    ensures Int2Hex(n) == Int2Hex(m) ==> n == m
  {
    Int2HexDecodes(n);
    Int2HexDecodes(m);
  }

  /** One value's round trip through the encoder. */
  lemma Int2HexDecodes(n: int)
    requires IsInt64(n)
    ensures BytesToNat(Int2Hex(n)) == n % TwoTo64
    ensures Hex2Int(Int2Hex(n)) == n
  {
    Pow2Is64();
    NatToBytesRoundTrip(n % TwoTo64, 8);
    Int64Mod(n);
  }

  /** An int64 modulo 2^64: itself when non-negative, shifted up by 2^64
      otherwise. */
  lemma Int64Mod(n: int)
    requires IsInt64(n)
    ensures n >= 0 ==> n % TwoTo64 == n
    ensures n < 0 ==> n % TwoTo64 == n + TwoTo64
  {
    if n >= 0 {
      SmallModulus(n, TwoTo64);
    } else {
      SmallModulus(n + TwoTo64, TwoTo64);
    }
  }

  /** `Match`: the expected words are a prefix of the input words. */
  function Match(input: seq<string>, expected: seq<string>): (r: bool)
    ensures r <==> |input| >= |expected| && input[..|expected|] == expected
  {
    |input| >= |expected| && MatchFrom(input, expected, 0)
  }

  /** The loop of `Match` from position idx on. */
  function MatchFrom(input: seq<string>, expected: seq<string>, idx: nat): (r: bool)
    requires idx <= |expected| <= |input|
    ensures r <==> input[idx..|expected|] == expected[idx..]
    decreases |expected| - idx
  {
    if idx == |expected| then true
    else if input[idx] != expected[idx] then false
    else
      var r := MatchFrom(input, expected, idx + 1);
      assert input[idx..|expected|] == [input[idx]] + input[idx + 1..|expected|];
      assert expected[idx..] == [expected[idx]] + expected[idx + 1..];
      r
  }

  /** `CheckArgumentCount`: the input has exactly the expected number of words. */
  function CheckArgumentCount(input: seq<string>, expected: int): (r: bool)
  {
    |input| == expected
  }

  /** The shell accepts a command when it matches the expected words and has
      exactly that many words: together the two checks mean equality. */
  lemma ExactCommand(input: seq<string>, expected: seq<string>)
    ensures Match(input, expected) && CheckArgumentCount(input, |expected|) <==> input == expected
  {
  }
}
