/** Reading and writing a circular stretch of a buffer, where either may run past the end and go on at 0. */
module Circular {
  import opened Bytes

  /** The position `i` places after `start`. A `start` of `cap` means the same as 0. */
  function At(start: nat, i: nat, cap: nat): (p: nat)
    requires 0 < cap && start <= cap && i <= cap
    ensures p < cap
  {
    if start + i < cap then start + i
    else if start + i < 2 * cap then start + i - cap
    else 0
  }

  /** It is what the code computes by a remainder. */
  lemma AtIsMod(start: nat, i: nat, cap: nat)
    requires 0 < cap && start <= cap && i <= cap
    ensures At(start, i, cap) == (start + i) % cap
  {
  }

  /** How many places `i` lies after `start`. */
  function Distance(start: nat, i: nat, cap: nat): nat
    requires start < cap && i < cap
  {
    if start <= i then i - start else i + cap - start
  }

  /** The `n` bytes from `start` on. */
  function Window(b: seq<byte>, start: nat, n: nat): (w: seq<byte>)
    requires start <= |b| && n <= |b|
    ensures |w| == n
  {
    seq(n, i requires 0 <= i < n => b[At(start, i, |b|)])
  }

  /** `b` with the bytes from `start` on replaced by `s`. */
  function Put(b: seq<byte>, start: nat, s: seq<byte>): (r: seq<byte>)
    requires start < |b| && |s| <= |b|
    ensures |r| == |b|
  {
    seq(|b|, i requires 0 <= i < |b| =>
      var d := Distance(start, i, |b|);
      if d < |s| then s[d] else b[i])
  }

  /** `b` with `s` copied over the bytes at `at`, without wrapping: Rust's `copy_from_slice`. */
  function Splice(b: seq<byte>, at: nat, s: seq<byte>): (r: seq<byte>)
    requires at + |s| <= |b|
    ensures |r| == |b|
  {
    b[..at] + s + b[at + |s|..]
  }

  lemma PutContiguous(b: seq<byte>, start: nat, s: seq<byte>)
    requires start < |b| && start + |s| <= |b|
    ensures Put(b, start, s) == Splice(b, start, s)
  {
  }

  lemma PutWrapped(b: seq<byte>, start: nat, s: seq<byte>, k: nat)
    requires start < |b| && k <= |s| <= |b| && start + k == |b|
    ensures Put(b, start, s) == Splice(Splice(b, start, s[..k]), 0, s[k..])
  {
  }

  lemma PutConcat(b: seq<byte>, start: nat, s: seq<byte>, t: seq<byte>)
    requires start < |b| && |s| + |t| <= |b| && |s| < |b|
    ensures Put(b, start, s + t) == Put(Put(b, start, s), At(start, |s|, |b|), t)
  {
  }

  lemma WindowOfPut(b: seq<byte>, start: nat, s: seq<byte>)
    requires start < |b| && |s| <= |b|
    ensures Window(Put(b, start, s), start, |s|) == s
  {
  }

  lemma WindowBeforePut(b: seq<byte>, start: nat, n: nat, s: seq<byte>)
    requires 0 < |b| && start <= |b| && n + |s| <= |b| && n < |b|
    ensures Window(Put(b, At(start, n, |b|), s), start, n) == Window(b, start, n)
  {
  }

  lemma WindowConcat(b: seq<byte>, start: nat, n: nat, m: nat)
    requires 0 < |b| && start <= |b| && n + m <= |b|
    ensures Window(b, start, n + m) == Window(b, start, n) + Window(b, At(start, n, |b|), m)
  {
  }

  lemma WindowContiguous(b: seq<byte>, start: nat, n: nat)
    requires start + n <= |b|
    ensures Window(b, start, n) == b[start..start + n]
  {
  }

  lemma WindowWrapped(b: seq<byte>, start: nat, n: nat)
    requires start <= |b| && n <= |b| <= start + n
    ensures Window(b, start, n) == b[start..] + b[..start + n - |b|]
  {
  }

  /** A header written anywhere, split by the end of the buffer or not, reads back as the length it encoded. */
  lemma HeaderReadsBack(b: seq<byte>, w: nat, len: nat)
    requires w < |b| && HEADER_SIZE <= |b| && len < USIZE_LIMIT
    ensures FromLittleEndian(Window(Put(b, w, Header(len)), w, HEADER_SIZE)) == len
    ensures |b| < w + HEADER_SIZE ==>
              var b' := Put(b, w, Header(len));
              FromLittleEndian(b'[w..] + b'[..w + HEADER_SIZE - |b|]) == len
  {
    WindowOfPut(b, w, Header(len));
    HeaderRoundTrip(len);
    if |b| < w + HEADER_SIZE {
      WindowWrapped(Put(b, w, Header(len)), w, HEADER_SIZE);
    }
  }
}
