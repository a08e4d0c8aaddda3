/** The records the C reader fills (ccp/subproblem/params.h), with C's
    fixed-size character buffers and C-string conventions made explicit.
    C strings are byte strings: a JSON string reaches C as its UTF-8
    encoding. A pointer array is a sequence; a NULL array is the empty
    sequence. */
module Params {

  type Byte = b: int | 0 <= b < 256

  const NulByte: Byte := 0
  const NulChar: char := 0 as char

  /** Size of `Shuttle.prev` and of `Request.dir`, in bytes. */
  const PrevSize: nat := 8
  const DirSize: nat := 4

  datatype Params = Params(horizonMin: int, cap: int, tripDist: int, batteryRange: int, nbrShuttles: int)

  /** `T` is the token count of `tokens`; `prev` is the whole 8-byte
      buffer, terminator and padding included. */
  datatype Shuttle = Shuttle(tokens: seq<seq<Byte>>, T: int, soc0: int, delay: int, prev: seq<Byte>)

  datatype Fleet = Fleet(arr: seq<Shuttle>, n: int)

  /** `dir` is the whole 4-byte buffer; `ready` is documented as lying
      in [0, horizon], which nothing checks. */
  datatype Request = Request(dir: seq<Byte>, ready: int)

  datatype DemandPool = DemandPool(arr: seq<Request>, n: int)

  /** The UTF-8 encoding of one Unicode scalar value: one byte below
      0x80, else a lead byte and continuation bytes, none of them 0. */
  function EncodeChar(c: char): (bs: seq<Byte>)
    ensures 1 <= |bs| <= 4
    ensures |bs| == 1 <==> c as int < 0x80
    ensures |bs| == 1 ==> bs[0] == c as int
    ensures NulByte in bs <==> c == NulChar
  {
    var v := c as int;
    if v < 0x80 then [v]
    else if v < 0x800 then [0xC0 + v / 64, 0x80 + v % 64]
    else if v < 0x1_0000 then [0xE0 + v / 4096, 0x80 + (v / 64) % 64, 0x80 + v % 64]
    else [0xF0 + v / 262144, 0x80 + (v / 4096) % 64, 0x80 + (v / 64) % 64, 0x80 + v % 64]
  }

  /** The bytes cJSON hands to C for a JSON string. */
  function Utf8(s: string): (bs: seq<Byte>)
    ensures |bs| >= |s|
  {
    if |s| == 0 then [] else EncodeChar(s[0]) + Utf8(s[1..])
  }

  /** Only U+0000 encodes to a zero byte. */
  lemma {:induction false} Utf8NulFree(s: string)
    ensures NulByte in Utf8(s) <==> NulChar in s
    decreases |s|
  {
    if |s| > 0 {
      Utf8NulFree(s[1..]);
      assert s == [s[0]] + s[1..];
    }
  }

  /** ASCII text is its own encoding, byte for character. */
  lemma {:induction false} Utf8Ascii(s: string)
    requires forall k :: 0 <= k < |s| ==> s[k] as int < 0x80
    ensures |Utf8(s)| == |s|
    ensures forall k :: 0 <= k < |s| ==> Utf8(s)[k] == s[k] as int
    decreases |s|
  {
    if |s| > 0 {
      Utf8Ascii(s[1..]);
      assert Utf8(s) == [s[0] as int] + Utf8(s[1..]);
    }
  }

  /** The text a C function sees in a character buffer: everything before
      the first NUL. */
  function CString(buf: seq<Byte>): (s: seq<Byte>)
    ensures NulByte !in s
    ensures |s| <= |buf| && s == buf[..|s|]
    ensures |s| < |buf| ==> buf[|s|] == NulByte
  {
    if |buf| == 0 || buf[0] == NulByte then [] else [buf[0]] + CString(buf[1..])
  }

  function Take(s: seq<Byte>, n: nat): seq<Byte>
  {
    if |s| <= n then s else s[..n]
  }

  function Zeros(n: nat): (z: seq<Byte>)
    ensures |z| == n && forall k :: 0 <= k < n ==> z[k] == NulByte
  {
    seq(n, k => NulByte)
  }

  /** `strncpy(dst, src, n)`: copies src up to its terminator or n
      bytes, whichever comes first, then pads with NULs to n. */
  function StrNCpy(src: seq<Byte>, n: nat): (r: seq<Byte>)
    ensures |r| == n
    ensures forall k :: 0 <= k < n ==> r[k] == if k < |CString(src)| then src[k] else NulByte
    decreases n
  {
    if n == 0 then []
    else if |src| == 0 || src[0] == NulByte then Zeros(n)
    else [src[0]] + StrNCpy(src[1..], n - 1)
  }

  /** A zero-initialised buffer of `size` bytes into which
      `strncpy(buf, src, size - 1)` has written: the last byte is never
      written and stays the terminator. */
  function FixedCopy(src: seq<Byte>, size: nat): (buf: seq<Byte>)
    requires size >= 1
    ensures |buf| == size && buf[size - 1] == NulByte
    ensures forall k :: 0 <= k < size - 1 ==> buf[k] == if k < |CString(src)| then src[k] else NulByte
  {
    StrNCpy(src, size - 1) + [NulByte]
  }

  lemma {:induction false} StrNCpyReadsBack(src: seq<Byte>, n: nat)
    ensures |StrNCpy(src, n)| == n
    ensures CString(StrNCpy(src, n)) == Take(CString(src), n)
    decreases n
  {
    if n > 0 && |src| > 0 && src[0] != NulByte {
      StrNCpyReadsBack(src[1..], n - 1);
      var r := StrNCpy(src, n);
      assert r == [src[0]] + StrNCpy(src[1..], n - 1);
      assert r[1..] == StrNCpy(src[1..], n - 1);
      assert CString(src) == [src[0]] + CString(src[1..]);
      assert CString(r) == [src[0]] + CString(r[1..]);
    } else if n > 0 {
      assert StrNCpy(src, n) == Zeros(n);
      assert CString(src) == [];
    }
  }

  /** The buffer has exactly `size` bytes, is terminated, and holds the
      first `size - 1` bytes of the source text: a too-long source is
      truncated, never overflows. */
  lemma FixedCopyReadsBack(src: seq<Byte>, size: nat)
    requires size >= 1
    ensures |FixedCopy(src, size)| == size
    ensures FixedCopy(src, size)[size - 1] == NulByte
    ensures CString(FixedCopy(src, size)) == Take(CString(src), size - 1)
  {
    StrNCpyReadsBack(src, size - 1);
    CStringTerminated(StrNCpy(src, size - 1));
  }

  /** A NUL-free text reads back as itself. */
  lemma {:induction false} CStringOfText(s: seq<Byte>)
    requires NulByte !in s
    ensures CString(s) == s
    decreases |s|
  {
    if |s| > 0 {
      CStringOfText(s[1..]);
    }
  }

  /** A terminator appended after a buffer does not change its text. */
  lemma {:induction false} CStringTerminated(a: seq<Byte>)
    ensures CString(a + [NulByte]) == CString(a)
    decreases |a|
  {
    if |a| > 0 && a[0] != NulByte {
      assert (a + [NulByte])[1..] == a[1..] + [NulByte];
      CStringTerminated(a[1..]);
    }
  }

  /** The shape params.h documents for a filled shuttle. */
  predicate ShuttleValid(s: Shuttle)
  {
    && s.T == |s.tokens|
    && |s.prev| == PrevSize && s.prev[PrevSize - 1] == NulByte
  }

  predicate FleetValid(F: Fleet)
  {
    && F.n == |F.arr|
    && forall i :: 0 <= i < |F.arr| ==> ShuttleValid(F.arr[i])
  }

  predicate DemandValid(D: DemandPool)
  {
    && D.n == |D.arr|
    && forall j :: 0 <= j < |D.arr| ==> |D.arr[j].dir| == DirSize && D.arr[j].dir[DirSize - 1] == NulByte
  }

  /** The documented but unchecked range of `Request.ready`. */
  predicate ReadyWithinHorizon(P: Params, D: DemandPool)
  {
    forall j :: 0 <= j < |D.arr| ==> 0 <= D.arr[j].ready <= P.horizonMin
  }

  /** `free_shuttle`: releases the tokens and resets the count; the other
      members are untouched. */
  function FreeShuttle(s: Shuttle): (r: Shuttle)
    ensures ShuttleValid(r) <==> |s.prev| == PrevSize && s.prev[PrevSize - 1] == NulByte
    ensures r.tokens == [] && r.T == 0 && r.soc0 == s.soc0 && r.delay == s.delay && r.prev == s.prev
  {
    s.(tokens := [], T := 0)
  }

  /** `free_fleet`: the fleet is left empty and valid, whatever it held. */
  function FreeFleet(F: Fleet): (r: Fleet)
    ensures FleetValid(r) && |r.arr| == 0
  {
    Fleet([], 0)
  }

  /** `free_demand`: the pool is left empty and valid, whatever it held. */
  function FreeDemand(D: DemandPool): (r: DemandPool)
    ensures DemandValid(r) && |r.arr| == 0
  {
    DemandPool([], 0)
  }
}
