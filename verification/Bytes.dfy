/** Bytes, and the 8-byte little-endian length header that frames every record on the launcher bus. */
module Bytes {

  type byte = x: int | 0 <= x < 256

  // `size_of::<usize>()` on the 64-bit targets the extension is built for.
  const HEADER_SIZE: nat := 8

  // One more than the largest `usize`.
  const USIZE_LIMIT: nat := 0x1_0000_0000_0000_0000

  // Rust allows no object of more than `isize::MAX` bytes.
  const ISIZE_LIMIT: nat := 0x8000_0000_0000_0000

  datatype Option<+T> = None | Some(value: T)

  ghost function Power256(k: nat): nat {
    if k == 0 then 1 else 256 * Power256(k - 1)
  }

  /** `usize::to_le_bytes`, for any number of digits. */
  function ToLittleEndian(n: nat, k: nat): (s: seq<byte>)
    ensures |s| == k
  {
    if k == 0 then [] else [n % 256] + ToLittleEndian(n / 256, k - 1)
  }

  /** `usize::from_le_bytes`, for any number of digits. */
  function FromLittleEndian(s: seq<byte>): nat {
    if s == [] then 0 else s[0] + 256 * FromLittleEndian(s[1..])
  }

  lemma {:induction false} DecodeOfEncode(n: nat, k: nat)
    requires n < Power256(k)
    ensures FromLittleEndian(ToLittleEndian(n, k)) == n
  {
    if k == 0 {
    } else {
      DecodeOfEncode(n / 256, k - 1);
      assert ToLittleEndian(n, k)[1..] == ToLittleEndian(n / 256, k - 1);
    }
  }

  /** Digit `i` counts the `256^i`s: the least significant comes first. */
  lemma {:induction false} DigitsInOrder(n: nat, k: nat, i: nat)
    requires i < k
    ensures Power256(i) > 0 && ToLittleEndian(n, k)[i] == n / Power256(i) % 256
  {
    if i > 0 {
      DigitsInOrder(n / 256, k - 1, i - 1);
      DivideTwice(n, Power256(i - 1));
    }
  }

  lemma DivideTwice(n: nat, b: nat)
    requires b > 0
    ensures n / 256 / b == n / (256 * b)
  {
    var m, q := n / 256, n / 256 / b;
    assert m == b * q + m % b;
    QuotientUnique(n, 256 * b, q, 256 * (m % b) + n % 256);
  }

  lemma QuotientUnique(n: nat, d: nat, q: nat, r: nat)
    requires n == d * q + r && r < d
    ensures n / d == q
  {
    var e := n / d - q;
    assert d * e == r - n % d;
    MultipleIsFar(d, e);
  }

  lemma MultipleIsFar(d: nat, e: int)
    ensures (e >= 1 ==> d * e >= d) && (e <= -1 ==> d * e + d <= 0)
  {
  }

  /** Conversely, any bytes are the encoding of what they decode to. */
  lemma {:induction false} EncodeOfDecode(s: seq<byte>)
    ensures FromLittleEndian(s) < Power256(|s|)
    ensures ToLittleEndian(FromLittleEndian(s), |s|) == s
  {
    if s == [] {
    } else {
      EncodeOfDecode(s[1..]);
      var n := FromLittleEndian(s);
      assert n % 256 == s[0] && n / 256 == FromLittleEndian(s[1..]);
      assert s == [s[0]] + s[1..];
    }
  }

  /** The header as `try_send` writes it. */
  function Header(len: nat): (s: seq<byte>)
    ensures |s| == HEADER_SIZE
  {
    ToLittleEndian(len, HEADER_SIZE)
  }

  /** Eight digits are exactly what a `usize` needs. */
  lemma HeaderHoldsUsize()
    ensures HEADER_SIZE == 8 && Power256(HEADER_SIZE) == USIZE_LIMIT
  {
    assert Power256(2) == 0x1_0000;
    assert Power256(4) == 0x1_0000_0000;
    assert Power256(6) == 0x1_0000_0000_0000;
  }

  /**
    The header decodes to the length it encoded, for every length a `usize` can hold. Its eight
    bytes are the digits of the length, the least significant first.
   */
  lemma HeaderRoundTrip(len: nat)
    requires len < USIZE_LIMIT
    ensures FromLittleEndian(Header(len)) == len
    ensures |Header(len)| == 8
    ensures forall i: nat :: i < 8 ==> Power256(i) > 0 && Header(len)[i] == len / Power256(i) % 256
  {
    HeaderHoldsUsize();
    DecodeOfEncode(len, HEADER_SIZE);
    forall i: nat | i < 8 ensures Power256(i) > 0 && Header(len)[i] == len / Power256(i) % 256 {
      DigitsInOrder(len, HEADER_SIZE, i);
    }
  }
}
