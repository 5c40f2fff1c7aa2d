/** The translation catalogue and its hash, written and loaded. */
module Catalogue {
  // The hash both sides compute (FnvHash.hpp, po2ymo.py), the writer of po2ymo.py and the loader
  // of I18n.hpp, which undo each other.

  import opened Wrappers
  import opened Numbers

  type Byte = b: int | 0 <= b < 256
  type CodeUnit = u: int | 0 <= u < 65536

  const FNV1_32_INIT: nat := 0x811c9dc5
  const FNV_32_PRIME: nat := 0x01000193
  const TWO32: nat := 0x1_0000_0000

  // ---------------------------------------------------------------- the hash

  /** Exclusive or of two unbounded numbers, bit by bit. */
  function Xor(a: nat, b: nat): nat {
    if a == 0 && b == 0 then 0
    else 2 * Xor(a / 2, b / 2) + (if a % 2 != b % 2 then 1 else 0)
  }

  /** The and with a mask of k ones, bit by bit. */
  function Mask(n: nat, k: nat): nat {
    if k == 0 then 0 else 2 * Mask(n / 2, k - 1) + n % 2
  }

  /** Python's fold: unbounded numbers, masked to 32 bits after each product. */
  function MaskedFold(data: seq<Byte>, hval: nat): nat {
    if data == [] then hval
    else Mask(Xor(MaskedFold(data[..|data| - 1], hval), data[|data| - 1]) * FNV_32_PRIME, 32)
  }

  /** C++'s fold: a uint32_t, each product wrapping around. */
  function WrappingFold(data: seq<Byte>, hval: nat): nat {
    if data == [] then hval
    else Xor(WrappingFold(data[..|data| - 1], hval), data[|data| - 1]) * FNV_32_PRIME % TWO32
  }

  lemma {:induction false} HalvesModulo(n: nat, k: nat)
    requires k > 0
    ensures n % Pow2(k) == 2 * (n / 2 % Pow2(k - 1)) + n % 2
  {
    var p := Pow2(k - 1);
    var q := n / 2 / p;
    assert n / 2 == q * p + n / 2 % p;
    assert n == q * (2 * p) + (2 * (n / 2 % p) + n % 2) by {
      assert n == 2 * (n / 2) + n % 2;
      assert 2 * (q * p) == q * (2 * p);
    }
    Remainder(n, 2 * p, q, 2 * (n / 2 % p) + n % 2);
  }

  lemma Remainder(n: nat, m: nat, q: nat, r: nat)
    requires m > 0 && r < m && n == q * m + r
    ensures n % m == r
  {
    var q' := n / m;
    assert (q - q') * m == n % m - r;
    if q > q' {
      AtLeastOnce(q - q', m);
    } else if q < q' {
      AtLeastOnce(q' - q, m);
    }
  }

  lemma AtLeastOnce(k: int, m: nat)
    requires k >= 1
    ensures k * m >= m
  {
  }

  /** Masking is wrapping. */
  lemma {:induction false} MaskIsModulo(n: nat, k: nat)
    ensures Mask(n, k) == n % Pow2(k)
  {
    if k > 0 {
      MaskIsModulo(n / 2, k - 1);
      HalvesModulo(n, k);
    }
  }

  lemma {:induction false} FoldsAgree(data: seq<Byte>, hval: nat)
    requires hval < TWO32
    ensures MaskedFold(data, hval) == WrappingFold(data, hval) < TWO32
  {
    if data != [] {
      FoldsAgree(data[..|data| - 1], hval);
      var product := Xor(WrappingFold(data[..|data| - 1], hval), data[|data| - 1]) * FNV_32_PRIME;
      Mask32(product);
      hide Xor, Mask;
    }
  }

  lemma Mask32(n: nat)
    ensures Mask(n, 32) == n % TWO32
  {
    Pow2Of32();
    MaskIsModulo(n, 32);
    hide Mask, Pow2;
  }

  lemma Pow2Of32()
    ensures Pow2(32) == TWO32
  {
    assert Pow2(8) == 256;
    assert Pow2(16) == 65536;
    assert Pow2(24) == 16777216;
  }

  /** Bit k of a number. */
  predicate Bit(n: nat, k: nat) { n / Pow2(k) % 2 == 1 }

  ghost predicate BitwiseXor(x: nat, a: nat, b: nat) {
    forall k: nat :: Bit(x, k) <==> Bit(a, k) != Bit(b, k)
  }

  /** One byte of FNV-1a in 32 bits: exclusive or, then the prime. */
  ghost predicate FnvStep(h: nat, b: Byte, next: nat) {
    exists x: nat :: BitwiseXor(x, h, b) && next == x * 16777619 % 0x1_0000_0000
  }

  /** The hash after each byte. */
  ghost predicate FnvRun(hs: seq<nat>, data: seq<Byte>, init: nat) {
    && |hs| == |data| + 1 && hs[0] == init
    && forall i :: 0 <= i < |data| ==> FnvStep(hs[i], data[i], hs[i + 1])
  }

  ghost predicate IsFnv1a(hval: nat, data: seq<Byte>, init: nat) {
    exists hs :: FnvRun(hs, data, init) && hs[|data|] == hval
  }

  lemma {:induction false} BitOfHalf(n: nat, k: nat)
    requires k > 0
    ensures Bit(n, k) == Bit(n / 2, k - 1)
  {
    var p := Pow2(k - 1);
    var q, r := n / 2 / p, n / 2 % p;
    assert n / 2 == q * p + r;
    assert n == q * (2 * p) + (2 * r + n % 2) by {
      assert 2 * (q * p) == q * (2 * p);
    }
    Quotient(n, 2 * p, q, 2 * r + n % 2);
  }

  /** Xor is the exclusive or, bit by bit. */
  lemma {:induction false} XorIsBitwise(a: nat, b: nat, k: nat)
    ensures Bit(Xor(a, b), k) <==> Bit(a, k) != Bit(b, k)
  {
    var x := Xor(a, b);
    assert x / 2 == Xor(a / 2, b / 2) && x % 2 == (if a % 2 != b % 2 then 1 else 0);
    if k > 0 {
      BitOfHalf(a, k);
      BitOfHalf(b, k);
      BitOfHalf(x, k);
      XorIsBitwise(a / 2, b / 2, k - 1);
    }
  }

  /** It undoes itself. */
  lemma {:induction false} XorTwice(a: nat, b: nat)
    ensures Xor(Xor(a, b), b) == a
  {
    if a != 0 || b != 0 {
      XorTwice(a / 2, b / 2);
    }
  }

  lemma {:induction false} XorZero(a: nat)
    ensures Xor(a, 0) == a
  {
    if a != 0 {
      XorZero(a / 2);
    }
  }

  lemma {:induction false} XorBelow(a: nat, b: nat, k: nat)
    requires a < Pow2(k) && b < Pow2(k)
    ensures Xor(a, b) < Pow2(k)
  {
    if k > 0 {
      XorBelow(a / 2, b / 2, k - 1);
    }
  }

  /** The bits determine the number. */
  lemma {:induction false} SameBits(x: nat, y: nat)
    requires forall k: nat :: Bit(x, k) <==> Bit(y, k)
    ensures x == y
  {
    if x != 0 || y != 0 {
      forall k: nat ensures Bit(x / 2, k) <==> Bit(y / 2, k) {
        BitOfHalf(x, k + 1);
        BitOfHalf(y, k + 1);
      }
      SameBits(x / 2, y / 2);
      assert Bit(x, 0) <==> Bit(y, 0);
    }
  }

  /** So a step has exactly one outcome. */
  lemma StepIsXorTimesPrime(h: nat, b: Byte, next: nat)
    ensures FnvStep(h, b, next) <==> next == Xor(h, b) * 16777619 % 0x1_0000_0000
  {
    forall k: nat ensures Bit(Xor(h, b), k) <==> Bit(h, k) != Bit(b, k) {
      XorIsBitwise(h, b, k);
    }
    hide Xor, Bit;
    assert BitwiseXor(Xor(h, b), h, b);
    if FnvStep(h, b, next) {
      var x: nat :| BitwiseXor(x, h, b) && next == x * 16777619 % 0x1_0000_0000;
      SameBits(x, Xor(h, b));
    }
  }

  /** The prime is odd: 899433627 times it is one more than 3513497 * 2^32. */
  lemma PrimeIsInvertible(x: nat)
    requires x < TWO32
    ensures x * 16777619 % TWO32 * 899433627 % TWO32 == x
  {
    var q, r := x * 16777619 / TWO32, x * 16777619 % TWO32;
    assert x * 16777619 == q * TWO32 + r;
    assert 16777619 * 899433627 == 3513497 * TWO32 + 1;
    assert r * 899433627 == (3513497 * x - 899433627 * q) * TWO32 + x;
    assert 3513497 * x - 899433627 * q >= 0;
    Remainder(r * 899433627, TWO32, 3513497 * x - 899433627 * q, x);
  }

  /** A step tells any two bytes apart. */
  lemma StepTellsBytesApart(h: nat, a: Byte, b: Byte, next: nat)
    requires h < TWO32 && FnvStep(h, a, next) && FnvStep(h, b, next)
    ensures a == b
  {
    StepIsXorTimesPrime(h, a, next);
    StepIsXorTimesPrime(h, b, next);
    Pow2Of32();
    XorBelow(h, a, 32);
    XorBelow(h, b, 32);
    hide Xor, FnvStep;
    PrimeIsInvertible(Xor(h, a));
    PrimeIsInvertible(Xor(h, b));
    XorCancels(h, a, b);
  }

  lemma {:induction false} XorCancels(h: nat, a: nat, b: nat)
    requires Xor(h, a) == Xor(h, b)
    ensures a == b
  {
    if h != 0 || a != 0 || b != 0 {
      XorCancels(h / 2, a / 2, b / 2);
    }
  }

  /** The fold is FNV-1a, byte after byte. */
  lemma {:induction false} FoldIsFnv1a(data: seq<Byte>, init: nat)
    ensures IsFnv1a(WrappingFold(data, init), data, init)
  {
    var hs := FoldRuns(data, init);
  }

  lemma {:induction false} FoldRuns(data: seq<Byte>, init: nat) returns (hs: seq<nat>)
    ensures FnvRun(hs, data, init) && hs[|data|] == WrappingFold(data, init)
  {
    hide Xor, FnvStep;
    if data == [] {
      hs := [init];
    } else {
      var n := |data| - 1;
      var before := FoldRuns(data[..n], init);
      hs := before + [WrappingFold(data, init)];
      StepIsXorTimesPrime(before[n], data[n], hs[n + 1]);
    }
  }

  lemma XorOneMore(a: nat, b: nat, i: nat, j: nat)
    requires i < 2 && j < 2
    ensures Xor(2 * a + i, 2 * b + j) == 2 * Xor(a, b) + (if i != j then 1 else 0)
  {
    if a == 0 && b == 0 && i == 0 && j == 0 {
    } else {
      assert (2 * a + i) / 2 == a && (2 * b + j) / 2 == b;
    }
  }

  /** The published value for one letter. */
  lemma HashOfLetterA()
    ensures WrappingFold([0x61], FNV1_32_INIT) == 0xe40c292c
  {
    hide Xor;
    XorZero(0x102393b);
    XorOneMore(0x102393b, 0x0, 1, 1);
    XorOneMore(0x2047277, 0x1, 0, 1);
    XorOneMore(0x408e4ee, 0x3, 0, 0);
    XorOneMore(0x811c9dc, 0x6, 0, 0);
    XorOneMore(0x102393b8, 0xc, 1, 0);
    XorOneMore(0x20472771, 0x18, 0, 0);
    XorOneMore(0x408e4ee2, 0x30, 1, 1);
    assert [0x61][..0] == [];
  }

  /** fnv1a_32 of FnvHash.hpp. */
  method Fnv1a32(buf: seq<Byte>, len: nat, init: nat) returns (hval: nat)
    requires len <= |buf|
    ensures hval == WrappingFold(buf[..len], init)
    ensures IsFnv1a(hval, buf[..len], init) && (len == 0 ==> hval == init)
  {
    FoldIsFnv1a(buf[..len], init);
    hide IsFnv1a;
    hval := init;
    var i := 0;
    while i < len
      invariant i <= len && hval == WrappingFold(buf[..i], init)
    {
      assert buf[..i + 1][..i] == buf[..i];
      hval := Xor(hval, buf[i]);
      hval := hval * FNV_32_PRIME % TWO32;
      i := i + 1;
    }
  }

  /** fnv1a_32 of po2ymo.py: the same value for the same bytes. */
  method Fnv1a32Masked(data: seq<Byte>, init: nat) returns (hval: nat)
    requires init < TWO32
    ensures hval == WrappingFold(data, init) < TWO32
    ensures IsFnv1a(hval, data, init) && (data == [] ==> hval == init)
  {
    FoldIsFnv1a(data, init);
    hide IsFnv1a;
    hval := init;
    var i := 0;
    while i < |data|
      invariant i <= |data| && hval == MaskedFold(data[..i], init)
    {
      assert data[..i + 1][..i] == data[..i];
      hval := Xor(hval, data[i]);
      hval := Mask(hval * FNV_32_PRIME, 32);
      i := i + 1;
    }
    assert data[..i] == data;
    FoldsAgree(data, init);
  }

  // ---------------------------------------------------------------- bytes

  function Le16(n: nat): (r: seq<Byte>)
    requires n < 65536
    ensures |r| == 2
  {
    [n % 256, n / 256]
  }

  function Le32(n: nat): (r: seq<Byte>)
    requires n < TWO32
    ensures |r| == 4
  {
    [n % 256, n / 256 % 256, n / 65536 % 256, n / 16777216]
  }

  function Read16(bytes: seq<Byte>, at: nat): nat
    requires at + 2 <= |bytes|
  {
    var low: nat, high: nat := bytes[at], bytes[at + 1];
    low + 256 * high
  }

  function Read32(bytes: seq<Byte>, at: nat): nat
    requires at + 4 <= |bytes|
  {
    Read16(bytes, at) + 65536 * Read16(bytes, at + 2)
  }

  /** UTF-16LE. */
  function Encode(units: seq<CodeUnit>): (r: seq<Byte>)
    ensures |r| == 2 * |units|
  {
    if units == [] then [] else Le16(units[0]) + Encode(units[1..])
  }

  // ---------------------------------------------------------------- the writer

  datatype Unit = Unit(hash: nat, target: seq<CodeUnit>)

  /** A dictionary in insertion order. */
  predicate IsDictionary(units: seq<Unit>) {
    && (forall i :: 0 <= i < |units| ==> units[i].hash < TWO32)
    && (forall i, j :: 0 <= i < j < |units| ==> units[i].hash != units[j].hash)
  }

  function Data(u: Unit): seq<Byte> {
    Encode(u.target) + [0, 0]
  }

  function Strings(units: seq<Unit>): seq<Byte> {
    if units == [] then [] else Data(units[0]) + Strings(units[1..])
  }

  /** Where the string of units[i] starts when the first one starts at offset. */
  function StartOf(units: seq<Unit>, offset: nat, i: nat): nat
    requires i <= |units|
  {
    if i == 0 then offset else StartOf(units, offset, i - 1) + |Data(units[i - 1])|
  }

  function Start(units: seq<Unit>, i: nat): nat
    requires i <= |units|
  {
    StartOf(units, 2 + 6 * |units|, i)
  }

  /** What fits the format: a 16-bit count and 16-bit string starts. */
  predicate Fits(units: seq<Unit>) {
    |units| < 65536 && forall i :: 0 <= i < |units| ==> Start(units, i) < 65536
  }

  function Table(units: seq<Unit>, n: nat): (r: seq<Byte>)
    requires n <= |units| && IsDictionary(units) && Fits(units)
    ensures |r| == 6 * n
  {
    if n == 0 then []
    else Table(units, n - 1) + Le32(units[n - 1].hash) + Le16(Start(units, n - 1))
  }

  function Image(units: seq<Unit>): seq<Byte>
    requires IsDictionary(units) && Fits(units)
  {
    Le16(|units|) + Table(units, |units|) + Strings(units)
  }

  /** The writing half of po2ymo; None stands for the OverflowError of to_bytes. */
  method WriteCatalogue(units: seq<Unit>) returns (out: Option<seq<Byte>>)
    requires IsDictionary(units)
    ensures out.Some? <==> Fits(units)
    ensures out.Some? ==> out.value == Image(units)
  {
    if |units| >= 65536 {
      return None;
    }
    var offset := 2 + |units| * (4 + 2);
    var table: seq<(nat, nat)> := [];
    var i := 0;
    while i < |units|
      invariant i <= |units| && |table| == i && offset == Start(units, i)
      invariant forall k :: 0 <= k < i ==> Start(units, k) < 65536 && table[k] == (units[k].hash, Start(units, k))
    {
      if offset >= 65536 {
        return None;
      }
      table := table + [(units[i].hash, offset)];
      offset := offset + |Data(units[i])|;
      i := i + 1;
    }
    hide Start, Data;
    var file := Assemble(units, table);
    out := Some(file);
  }

  method Assemble(units: seq<Unit>, table: seq<(nat, nat)>) returns (file: seq<Byte>)
    requires IsDictionary(units) && Fits(units) && |table| == |units|
    requires forall k :: 0 <= k < |units| ==> table[k] == (units[k].hash, Start(units, k))
    ensures file == Image(units)
  {
    hide Start, Le16, Le32, Data;
    file := Le16(|units|);
    var n := 0;
    while n < |units|
      invariant n <= |units| && file == Le16(|units|) + Table(units, n)
    {
      file := file + Le32(table[n].0) + Le16(table[n].1);
      n := n + 1;
    }
    var k := 0;
    while k < |units|
      invariant k <= |units| && file + Strings(units[k..]) == Image(units)
    {
      assert units[k..][1..] == units[k + 1..];
      file := file + Data(units[k]);
      k := k + 1;
    }
    assert units[k..] == [];
  }

  // ---------------------------------------------------------------- the loader

  const HEADER_SIZE: nat := 2
  const ENTRY_SIZE: nat := 6

  /** A terminator somewhere from offset on, inside the resource. */
  predicate Terminated(resource: seq<Byte>, offset: nat) {
    exists k: nat :: k <= |resource| && offset + 2 * k + 2 <= |resource| && Read16(resource, offset + 2 * k) == 0
  }

  /** The characters from offset up to the terminator. */
  function CString(resource: seq<Byte>, offset: nat): seq<CodeUnit>
    decreases |resource| - offset
  {
    if offset + 2 > |resource| || Read16(resource, offset) == 0 then []
    else [Read16(resource, offset)] + CString(resource, offset + 2)
  }

  predicate HasTable(resource: seq<Byte>) {
    |resource| >= HEADER_SIZE && Read16(resource, 0) * ENTRY_SIZE <= |resource| - HEADER_SIZE
  }

  function EntryHash(resource: seq<Byte>, i: nat): nat
    requires HasTable(resource) && i < Read16(resource, 0)
  {
    Read32(resource, HEADER_SIZE + ENTRY_SIZE * i)
  }

  function EntryOffset(resource: seq<Byte>, i: nat): nat
    requires HasTable(resource) && i < Read16(resource, 0)
  {
    Read16(resource, HEADER_SIZE + ENTRY_SIZE * i + 4)
  }

  /** The checks an entry must pass to be loaded. */
  predicate Usable(resource: seq<Byte>, i: nat)
    requires HasTable(resource) && i < Read16(resource, 0)
  {
    var offset := EntryOffset(resource, i);
    && offset >= HEADER_SIZE + ENTRY_SIZE * Read16(resource, 0) && offset % 2 == 0 && offset + 2 <= |resource|
    && Terminated(resource, offset)
  }

  /** hashToStrMap after n entries; strings are kept as their offsets, as the source keeps pointers. */
  function LoadedFirst(resource: seq<Byte>, n: nat): map<nat, nat>
    requires HasTable(resource) && n <= Read16(resource, 0)
  {
    if n == 0 then map[]
    else
      var m := LoadedFirst(resource, n - 1);
      if Usable(resource, n - 1) && EntryHash(resource, n - 1) !in m
      then m[EntryHash(resource, n - 1) := EntryOffset(resource, n - 1)]
      else m
  }

  function Loaded(resource: seq<Byte>): map<nat, nat> {
    if HasTable(resource) then LoadedFirst(resource, Read16(resource, 0)) else map[]
  }

  /** wmemchr over the rest of the resource. */
  method FindTerminator(resource: seq<Byte>, offset: nat) returns (found: bool)
    requires offset + 2 <= |resource|
    ensures found <==> Terminated(resource, offset)
  {
    var remainingCharacters := (|resource| - offset) / 2;
    var k := 0;
    while k < remainingCharacters
      invariant k <= remainingCharacters
      invariant forall j :: 0 <= j < k ==> Read16(resource, offset + 2 * j) != 0
    {
      if Read16(resource, offset + 2 * k) == 0 {
        return true;
      }
      k := k + 1;
    }
    found := false;
  }

  method LoadTranslateData(resource: seq<Byte>) returns (hashToStr: map<nat, nat>)
    ensures hashToStr == Loaded(resource)
  {
    hashToStr := map[];
    if |resource| < HEADER_SIZE {
      return;
    }
    var len := Read16(resource, 0);
    var tableSize := len * ENTRY_SIZE;
    if tableSize > |resource| - HEADER_SIZE {
      return;
    }
    var stringsOffset := HEADER_SIZE + tableSize;
    var i := 0;
    while i < len
      invariant i <= len && hashToStr == LoadedFirst(resource, i)
    {
      var hash := Read32(resource, HEADER_SIZE + ENTRY_SIZE * i);
      var offset := Read16(resource, HEADER_SIZE + ENTRY_SIZE * i + 4);
      if !(offset < stringsOffset || offset % 2 != 0 || offset >= |resource| || |resource| - offset < 2) {
        var found := FindTerminator(resource, offset);
        if found && hash !in hashToStr {
          hashToStr := hashToStr[hash := offset];
        }
      }
      i := i + 1;
    }
  }

  /** On arbitrary bytes, every loaded string lies behind the table and ends inside the resource. */
  lemma {:induction false} LoadedStringsAreSafe(resource: seq<Byte>, n: nat, hash: nat)
    requires HasTable(resource) && n <= Read16(resource, 0) && hash in LoadedFirst(resource, n)
    ensures
      var offset := LoadedFirst(resource, n)[hash];
      && HEADER_SIZE + ENTRY_SIZE * Read16(resource, 0) <= offset && offset % 2 == 0
      && Terminated(resource, offset)
      && offset + 2 * |CString(resource, offset)| + 2 <= |resource|
      && Read16(resource, offset + 2 * |CString(resource, offset)|) == 0
  {
    hide HasTable, Usable, EntryHash, EntryOffset, Terminated, CString, Read16;
    if hash in LoadedFirst(resource, n - 1) {
      LoadedStringsAreSafe(resource, n - 1, hash);
    } else {
      UsableStringIsSafe(resource, n - 1);
    }
  }

  lemma UsableStringIsSafe(resource: seq<Byte>, i: nat)
    requires HasTable(resource) && i < Read16(resource, 0) && Usable(resource, i)
    ensures
      var offset := EntryOffset(resource, i);
      && HEADER_SIZE + ENTRY_SIZE * Read16(resource, 0) <= offset && offset % 2 == 0
      && Terminated(resource, offset)
      && offset + 2 * |CString(resource, offset)| + 2 <= |resource|
      && Read16(resource, offset + 2 * |CString(resource, offset)|) == 0
  {
    hide EntryOffset, CString, Read16;
    var offset := EntryOffset(resource, i);
    var k: nat :| k <= |resource| && offset + 2 * k + 2 <= |resource| && Read16(resource, offset + 2 * k) == 0;
    StringEnds(resource, offset, k);
  }

  lemma {:induction false} StringEnds(resource: seq<Byte>, offset: nat, k: nat)
    requires offset + 2 * k + 2 <= |resource| && Read16(resource, offset + 2 * k) == 0
    ensures
      var n := |CString(resource, offset)|;
      n <= k && offset + 2 * n + 2 <= |resource| && Read16(resource, offset + 2 * n) == 0
    decreases k
  {
    if Read16(resource, offset) != 0 {
      StringEnds(resource, offset + 2, k - 1);
    }
  }

  // ---------------------------------------------------------------- the round trip

  lemma ReadIn(a: seq<Byte>, b: seq<Byte>, at: nat)
    ensures at + 2 <= |a| ==> Read16(a + b, at) == Read16(a, at)
    ensures at + 2 <= |b| ==> Read16(a + b, |a| + at) == Read16(b, at)
  {
  }

  lemma ReadIn32(a: seq<Byte>, b: seq<Byte>, at: nat)
    ensures at + 4 <= |a| ==> Read32(a + b, at) == Read32(a, at)
    ensures at + 4 <= |b| ==> Read32(a + b, |a| + at) == Read32(b, at)
  {
    ReadIn(a, b, at);
    ReadIn(a, b, at + 2);
    hide Read16;
  }

  lemma ReadsLe16(n: nat)
    requires n < 65536
    ensures Read16(Le16(n), 0) == n
  {
  }

  lemma ReadsLe32(n: nat)
    requires n < TWO32
    ensures Read32(Le32(n), 0) == n
  {
    hide Read16, Le16, Le32;
    var low, high := n % 65536, n / 65536;
    HalvesOfLe32(n);
    ReadIn(Le16(low), Le16(high), 0);
    ReadsLe16(low);
    ReadsLe16(high);
  }

  lemma HalvesOfLe32(n: nat)
    requires n < TWO32
    ensures Le32(n) == Le16(n % 65536) + Le16(n / 65536)
  {
    LowBytes(n);
    HighBytes(n);
  }

  lemma LowBytes(n: nat)
    ensures n % 65536 % 256 == n % 256 && n % 65536 / 256 == n / 256 % 256
  {
    var q, r := n / 65536, n % 65536;
    assert n == 256 * (256 * q) + r;
    Quotient(n, 256, 256 * q + r / 256, r % 256);
    Quotient(n / 256, 256, q, r / 256);
  }

  lemma HighBytes(n: nat)
    ensures n / 65536 / 256 == n / 16777216
  {
    var q, r := n / 16777216, n % 16777216;
    Quotient(n, 65536, 256 * q + r / 65536, r % 65536);
    Quotient(n / 65536, 256, q, r / 65536);
  }

  lemma Quotient(n: nat, m: nat, q: nat, r: nat)
    requires m > 0 && r < m && n == q * m + r
    ensures n / m == q && n % m == r
  {
    Remainder(n, m, q, r);
    var q' := n / m;
    assert (q - q') * m == 0;
    if q > q' {
      AtLeastOnce(q - q', m);
    } else if q < q' {
      AtLeastOnce(q' - q, m);
    }
  }

  /** Row i of the table says where string i is. */
  lemma {:induction false} TableRow(units: seq<Unit>, n: nat, i: nat)
    requires IsDictionary(units) && Fits(units) && i < n <= |units|
    ensures Read32(Table(units, n), 6 * i) == units[i].hash
    ensures Read16(Table(units, n), 6 * i + 4) == Start(units, i)
  {
    var before := Table(units, n - 1);
    var hash := Le32(units[n - 1].hash);
    var start := Le16(Start(units, n - 1));
    ReadIn32(before + hash, start, 6 * i);
    ReadIn32(before, hash, 0);
    ReadIn32(before, hash, 6 * i);
    ReadIn(before + hash, start, 6 * i + 4);
    ReadIn(before + hash, start, 0);
    ReadIn(before, hash, 6 * i + 4);
    ReadsLe32(units[n - 1].hash);
    ReadsLe16(Start(units, n - 1));
    if i < n - 1 {
      TableRow(units, n - 1, i);
    }
    hide Read16, Read32, Start, Le16, Le32;
  }

  lemma ImageRow(units: seq<Unit>, trailing: seq<Byte>, i: nat)
    requires IsDictionary(units) && Fits(units) && i < |units|
    ensures
      var resource := Image(units) + trailing;
      && HasTable(resource) && Read16(resource, 0) == |units|
      && EntryHash(resource, i) == units[i].hash && EntryOffset(resource, i) == Start(units, i)
  {
    hide Image, HasTable, Read16, Read32, Start, Le16, Strings, Table, Fits, IsDictionary;
    StartIs(units, i);
    var count := Le16(|units|);
    var table := Table(units, |units|);
    var rest := Strings(units) + trailing;
    ImageHeader(units, trailing);
    ImageParts(units, trailing);
    TableRow(units, |units|, i);
    ReadIn32(table, rest, 6 * i);
    ReadIn(table, rest, 6 * i + 4);
    ReadIn32(count, table + rest, 6 * i);
    ReadIn(count, table + rest, 6 * i + 4);
  }

  lemma ImageParts(units: seq<Unit>, trailing: seq<Byte>)
    requires IsDictionary(units) && Fits(units)
    ensures Image(units) + trailing == Le16(|units|) + (Table(units, |units|) + (Strings(units) + trailing))
  {
    hide Le16, Table, Strings, IsDictionary, Fits;
  }

  lemma ImageHeader(units: seq<Unit>, trailing: seq<Byte>)
    requires IsDictionary(units) && Fits(units)
    ensures
      var resource := Image(units) + trailing;
      HasTable(resource) && Read16(resource, 0) == |units|
  {
    var count := Le16(|units|);
    var rest := Table(units, |units|) + Strings(units) + trailing;
    assert Image(units) + trailing == count + rest;
    ReadIn(count, rest, 0);
    ReadsLe16(|units|);
    hide Read16, Le16, Strings, Table, Fits, Image;
    assert |rest| >= 6 * |units|;
  }

  /** What precedes string i among the strings is as long as its offset says. */
  lemma {:induction false} StringsBefore(units: seq<Unit>, offset: nat, i: nat) returns (before: seq<Byte>)
    requires i <= |units|
    ensures Strings(units) == before + Strings(units[i..]) && |before| == StartOf(units, offset, i) - offset
    ensures |before| % 2 == 0
  {
    if i == 0 {
      before := [];
      assert units[0..] == units;
    } else {
      var earlier := StringsBefore(units, offset, i - 1);
      assert units[i - 1..][1..] == units[i..];
      before := earlier + Data(units[i - 1]);
      hide Data, Encode;
      assert before + Strings(units[i..]) == earlier + (Data(units[i - 1]) + Strings(units[i..]));
    }
  }

  /** The loader reads back exactly the encoded characters, if none of them is a terminator. */
  lemma {:induction false} ReadsBack(before: seq<Byte>, target: seq<CodeUnit>, after: seq<Byte>)
    requires 0 !in target
    ensures
      var resource := before + (Encode(target) + [0, 0] + after);
      CString(resource, |before|) == target && Terminated(resource, |before|) && |before| + 2 <= |resource|
    decreases |target|
  {
    hide Read16, Le16, Encode, Terminated;
    if target == [] {
      ReadsNothing(before, after);
    } else {
      var first := Le16(target[0]);
      var rest := Encode(target[1..]) + [0, 0] + after;
      OneCharacter(before, target, after);
      ReadIn(before, first + rest, 0);
      ReadIn(first, rest, 0);
      ReadsLe16(target[0]);
      ReadsBack(before + first, target[1..], after);
      TerminatedFurther(before + (first + rest), |before|);
      assert target == [target[0]] + target[1..];
    }
  }

  lemma ReadsNothing(before: seq<Byte>, after: seq<Byte>)
    ensures
      var resource := before + (Encode([]) + [0, 0] + after);
      CString(resource, |before|) == [] && Terminated(resource, |before|) && |before| + 2 <= |resource|
  {
    var resource := before + (Encode([]) + [0, 0] + after);
    assert Read16(resource, |before| + 2 * 0) == 0;
  }

  lemma OneCharacter(before: seq<Byte>, target: seq<CodeUnit>, after: seq<Byte>)
    requires target != []
    ensures
      var first := Le16(target[0]);
      var rest := Encode(target[1..]) + [0, 0] + after;
      && before + (Encode(target) + [0, 0] + after) == before + (first + rest)
      && before + (first + rest) == (before + first) + rest
  {
    hide Le16;
    Reassociate(before, Le16(target[0]), Encode(target[1..]), [0, 0], after);
  }

  lemma Reassociate<T>(a: seq<T>, b: seq<T>, c: seq<T>, d: seq<T>, e: seq<T>)
    ensures a + (b + c + d + e) == a + (b + (c + d + e)) == (a + b) + (c + d + e)
  {
  }

  lemma TerminatedFurther(resource: seq<Byte>, offset: nat)
    ensures Terminated(resource, offset + 2) ==> Terminated(resource, offset)
  {
    if Terminated(resource, offset + 2) {
      var k: nat :| k <= |resource| && offset + 2 + 2 * k + 2 <= |resource|
        && Read16(resource, offset + 2 + 2 * k) == 0;
      assert offset + 2 * (k + 1) == offset + 2 + 2 * k;
    }
  }

  lemma StringAt(units: seq<Unit>, trailing: seq<Byte>, i: nat)
    requires IsDictionary(units) && Fits(units) && i < |units| && 0 !in units[i].target
    ensures
      var resource := Image(units) + trailing;
      var offset := Start(units, i);
      && 2 + 6 * |units| <= offset && offset % 2 == 0 && offset + 2 <= |resource|
      && Terminated(resource, offset) && CString(resource, offset) == units[i].target
  {
    hide *;
    var strings := StringsBefore(units, 2 + 6 * |units|, i);
    StartIs(units, i);
    var head := Le16(|units|) + Table(units, |units|) + strings;
    ImageSplit(units, trailing, i, strings);
    ReadsBackAt(Image(units) + trailing, head, units[i].target, Strings(units[i + 1..]) + trailing, Start(units, i));
  }

  lemma StartIs(units: seq<Unit>, i: nat)
    requires i < |units|
    ensures Start(units, i) == StartOf(units, 2 + 6 * |units|, i)
    ensures Fits(units) ==> |units| < 65536
  {
    hide StartOf;
  }

  lemma ReadsBackAt(resource: seq<Byte>, before: seq<Byte>, target: seq<CodeUnit>, after: seq<Byte>, offset: nat)
    requires 0 !in target && resource == before + (Encode(target) + [0, 0] + after) && offset == |before|
    ensures CString(resource, offset) == target && Terminated(resource, offset) && offset + 2 <= |resource|
  {
    ReadsBack(before, target, after);
    hide *;
  }

  lemma Regroup<T>(a: seq<T>, b: seq<T>, c: seq<T>, d: seq<T>, e: seq<T>, s: seq<T>)
    requires s == b + (c + d)
    ensures a + s + e == a + b + (c + (d + e))
  {
  }

  lemma ImageSplit(units: seq<Unit>, trailing: seq<Byte>, i: nat, strings: seq<Byte>)
    requires IsDictionary(units) && Fits(units) && i < |units|
    requires Strings(units) == strings + Strings(units[i..])
    ensures
      var head := Le16(|units|) + Table(units, |units|) + strings;
      Image(units) + trailing == head + (Encode(units[i].target) + [0, 0] + (Strings(units[i + 1..]) + trailing))
  {
    StringsHead(units, i);
    assert Strings(units[i..]) == (Encode(units[i].target) + [0, 0]) + Strings(units[i + 1..]);
    Regroup(Le16(|units|) + Table(units, |units|), strings, Encode(units[i].target) + [0, 0], Strings(units[i + 1..]),
            trailing, Strings(units));
    hide Le16, Table, Strings, Encode, Fits, IsDictionary;
  }

  lemma StringsHead(units: seq<Unit>, i: nat)
    requires i < |units|
    ensures Strings(units[i..]) == Data(units[i]) + Strings(units[i + 1..])
  {
    assert units[i..][1..] == units[i + 1..];
  }

  lemma StringRow(units: seq<Unit>, trailing: seq<Byte>, i: nat)
    requires IsDictionary(units) && Fits(units) && i < |units| && 0 !in units[i].target
    ensures
      var resource := Image(units) + trailing;
      && HasTable(resource) && i < Read16(resource, 0) && Usable(resource, i)
      && EntryHash(resource, i) == units[i].hash && EntryOffset(resource, i) == Start(units, i)
      && CString(resource, Start(units, i)) == units[i].target
  {
    ImageRow(units, trailing, i);
    StringAt(units, trailing, i);
    hide Image, Terminated, Read16, EntryHash, EntryOffset, CString, Fits, IsDictionary, Start, HasTable;
  }

  predicate NoTerminators(units: seq<Unit>) {
    forall i :: 0 <= i < |units| ==> 0 !in units[i].target
  }

  lemma OneMore(resource: seq<Byte>, units: seq<Unit>, n: nat)
    requires HasTable(resource) && 0 < n <= |units| && Read16(resource, 0) == |units| && IsDictionary(units)
    requires Usable(resource, n - 1)
    requires EntryHash(resource, n - 1) == units[n - 1].hash && EntryOffset(resource, n - 1) == Start(units, n - 1)
    requires AllLoaded(LoadedFirst(resource, n - 1), units, n - 1)
    ensures AllLoaded(LoadedFirst(resource, n), units, n)
  {
    hide Usable, EntryHash, EntryOffset, Start, HasTable, Read16;
  }

  ghost predicate AllLoaded(m: map<nat, nat>, units: seq<Unit>, n: nat)
    requires n <= |units|
  {
    && (forall i :: 0 <= i < n ==> units[i].hash in m && m[units[i].hash] == Start(units, i))
    && (forall hash :: hash in m ==> exists i :: 0 <= i < n && units[i].hash == hash)
  }

  lemma {:induction false} LoadsEveryRow(units: seq<Unit>, trailing: seq<Byte>, n: nat)
    requires IsDictionary(units) && Fits(units) && NoTerminators(units) && n <= |units|
    ensures HasTable(Image(units) + trailing) && Read16(Image(units) + trailing, 0) == |units|
    ensures AllLoaded(LoadedFirst(Image(units) + trailing, n), units, n)
  {
    ImageHeader(units, trailing);
    if n > 0 {
      assert 0 !in units[n - 1].target;
      hide *;
      LoadsEveryRow(units, trailing, n - 1);
      StringRow(units, trailing, n - 1);
      OneMore(Image(units) + trailing, units, n);
    }
  }

  /** Loading what was written, whatever bytes follow, gives back exactly the written map. */
  lemma CatalogueRoundTrip(units: seq<Unit>, trailing: seq<Byte>)
    requires IsDictionary(units) && Fits(units) && NoTerminators(units)
    ensures
      var resource := Image(units) + trailing;
      var m := Loaded(resource);
      && (forall hash :: hash in m <==> exists i :: 0 <= i < |units| && units[i].hash == hash)
      && (forall i :: 0 <= i < |units| ==> units[i].hash in m && CString(resource, m[units[i].hash]) == units[i].target)
  {
    var resource := Image(units) + trailing;
    LoadsEveryRow(units, trailing, |units|);
    forall i | 0 <= i < |units| ensures CString(resource, Start(units, i)) == units[i].target {
      StringRow(units, trailing, i);
    }
    hide Image, Start, Fits, Read16, CString, LoadedFirst;
  }

  // ---------------------------------------------------------------- which messages are written

  datatype Message = Message(source: seq<CodeUnit>, context: seq<CodeUnit>, target: seq<CodeUnit>, translated: bool,
                             fuzzy: bool)
  {
    predicate Included(includeFuzzy: bool) { translated || (fuzzy && includeFuzzy && target != []) }

    function Key(): seq<CodeUnit> { if context != [] then context + [4] + source else source }

    function Hash(): nat { WrappingFold(Encode(Key()), FNV1_32_INIT) }
  }

  /** units[hash] = data: an existing key keeps its place. */
  function Put(units: seq<Unit>, u: Unit): seq<Unit> {
    if units == [] then [u]
    else if units[0].hash == u.hash then [u] + units[1..]
    else [units[0]] + Put(units[1..], u)
  }

  lemma {:induction false} PutKeeps(units: seq<Unit>, u: Unit)
    requires IsDictionary(units) && u.hash < TWO32
    ensures IsDictionary(Put(units, u)) && u in Put(units, u)
    ensures forall v :: v in Put(units, u) ==> v == u || v in units
    ensures forall v :: v in units && v.hash != u.hash ==> v in Put(units, u)
  {
    PutElements(units, u);
    if units != [] && units[0].hash != u.hash {
      PutKeeps(units[1..], u);
      PutElements(units[1..], u);
      PutInFront(units, Put(units[1..], u), u);
    }
  }

  lemma {:induction false} PutElements(units: seq<Unit>, u: Unit)
    ensures u in Put(units, u)
    ensures forall v :: v in Put(units, u) ==> v == u || v in units
    ensures forall v :: v in units && v.hash != u.hash ==> v in Put(units, u)
  {
    if units != [] {
      assert units == [units[0]] + units[1..];
      PutElements(units[1..], u);
    }
  }

  lemma PutInFront(units: seq<Unit>, rest: seq<Unit>, u: Unit)
    requires units != [] && IsDictionary(units) && IsDictionary(rest) && units[0].hash != u.hash
    requires forall v :: v in rest ==> v == u || v in units[1..]
    ensures IsDictionary([units[0]] + rest)
  {
    forall j | 0 <= j < |rest| ensures rest[j].hash != units[0].hash {
      assert rest[j] in rest;
      if rest[j] != u {
        var k :| 0 <= k < |units[1..]| && units[1..][k] == rest[j];
        assert units[k + 1] == rest[j];
      }
    }
  }

  /** What po2ymo has collected: every hash once, whatever the messages. */
  function Collected(messages: seq<Message>, includeFuzzy: bool): (r: seq<Unit>)
    ensures IsDictionary(r)
  {
    if messages == [] then []
    else
      var units := Collected(messages[..|messages| - 1], includeFuzzy);
      var m := messages[|messages| - 1];
      FoldsAgree(Encode(m.Key()), FNV1_32_INIT);
      PutKeeps(units, Unit(m.Hash(), m.target));
      if m.Included(includeFuzzy) then Put(units, Unit(m.Hash(), m.target)) else units
  }

  /** The collecting half of po2ymo. */
  method CollectUnits(messages: seq<Message>, includeFuzzy: bool) returns (units: seq<Unit>)
    ensures units == Collected(messages, includeFuzzy)
  {
    units := [];
    var i := 0;
    while i < |messages|
      invariant i <= |messages| && units == Collected(messages[..i], includeFuzzy)
    {
      var m := messages[i];
      assert messages[..i + 1][..i] == messages[..i];
      if m.Included(includeFuzzy) {
        var hash := Fnv1a32Masked(Encode(m.Key()), FNV1_32_INIT);
        units := Put(units, Unit(hash, m.target));
      }
      i := i + 1;
    }
    assert messages[..i] == messages;
  }

  /** Message k is the last included one with its hash. */
  predicate Prevails(messages: seq<Message>, includeFuzzy: bool, k: nat)
    requires k < |messages|
  {
    && (messages[k].translated || (messages[k].fuzzy && includeFuzzy && messages[k].target != []))
    && forall j :: k < j < |messages| && messages[j].Included(includeFuzzy) ==> messages[j].Hash() != messages[k].Hash()
  }

  lemma PrevailsBefore(messages: seq<Message>, includeFuzzy: bool, k: nat)
    requires k < |messages| - 1 && Prevails(messages, includeFuzzy, k)
    ensures Prevails(messages[..|messages| - 1], includeFuzzy, k)
    ensures
      var m := messages[|messages| - 1];
      m.Included(includeFuzzy) ==> m.Hash() != messages[k].Hash()
  {
    hide WrappingFold;
  }

  lemma {:induction false} PrevailingIsCollected(messages: seq<Message>, includeFuzzy: bool, k: nat)
    requires k < |messages| && Prevails(messages, includeFuzzy, k)
    ensures Unit(messages[k].Hash(), messages[k].target) in Collected(messages, includeFuzzy)
  {
    var n := |messages| - 1;
    CollectedPut(messages, includeFuzzy);
    if k < n {
      PrevailsBefore(messages, includeFuzzy, k);
      PrevailingIsCollected(messages[..n], includeFuzzy, k);
    }
    hide Collected, WrappingFold, Encode;
  }

  /** And nothing else is. */
  lemma {:induction false} CollectedPrevails(messages: seq<Message>, includeFuzzy: bool, u: Unit) returns (k: nat)
    requires u in Collected(messages, includeFuzzy)
    ensures k < |messages| && Prevails(messages, includeFuzzy, k)
    ensures u == Unit(messages[k].Hash(), messages[k].target)
  {
    hide Put, WrappingFold, Encode;
    var n := |messages| - 1;
    var m := messages[n];
    LastOrBefore(messages, includeFuzzy, u);
    if m.Included(includeFuzzy) && u == Unit(m.Hash(), m.target) {
      k := n;
    } else {
      k := CollectedPrevails(messages[..n], includeFuzzy, u);
      forall j | k < j < |messages| && messages[j].Included(includeFuzzy)
        ensures messages[j].Hash() != messages[k].Hash()
      {
        assert j < n ==> messages[j] == messages[..n][j];
      }
    }
  }

  lemma LastOrBefore(messages: seq<Message>, includeFuzzy: bool, u: Unit)
    requires u in Collected(messages, includeFuzzy)
    ensures messages != []
    ensures
      var n := |messages| - 1;
      var m := messages[n];
      if m.Included(includeFuzzy) && u.hash == m.Hash() then u == Unit(m.Hash(), m.target)
      else u in Collected(messages[..n], includeFuzzy)
  {
    var n := |messages| - 1;
    var m := messages[n];
    FoldsAgree(Encode(m.Key()), FNV1_32_INIT);
    var before := Collected(messages[..n], includeFuzzy);
    PutKeeps(before, Unit(m.Hash(), m.target));
    hide Put, WrappingFold, Encode;
    OneOfEachHash(Collected(messages, includeFuzzy));
  }

  lemma OneOfEachHash(units: seq<Unit>)
    requires IsDictionary(units)
    ensures forall u, v :: u in units && v in units && u.hash == v.hash ==> u == v
  {
  }

  /** What is collected: exactly the last included message of each hash. */
  lemma CollectedExactly(messages: seq<Message>, includeFuzzy: bool, u: Unit)
    ensures u in Collected(messages, includeFuzzy) <==>
              exists k :: 0 <= k < |messages| && Prevails(messages, includeFuzzy, k)
                          && u == Unit(messages[k].Hash(), messages[k].target)
  {
    hide Collected, Prevails, WrappingFold;
    if u in Collected(messages, includeFuzzy) {
      var k := CollectedPrevails(messages, includeFuzzy, u);
    }
    forall k | 0 <= k < |messages| && Prevails(messages, includeFuzzy, k)
      ensures Unit(messages[k].Hash(), messages[k].target) in Collected(messages, includeFuzzy)
    {
      PrevailingIsCollected(messages, includeFuzzy, k);
    }
  }

  lemma {:induction false} PutNew(units: seq<Unit>, u: Unit)
    requires forall i :: 0 <= i < |units| ==> units[i].hash != u.hash
    ensures Put(units, u) == units + [u]
  {
    if units != [] {
      PutNew(units[1..], u);
      assert units == [units[0]] + units[1..];
    }
  }

  lemma {:induction false} PutKnown(units: seq<Unit>, u: Unit, k: nat)
    requires k < |units| && units[k].hash == u.hash && forall i :: 0 <= i < k ==> units[i].hash != u.hash
    ensures Put(units, u) == units[k := u]
  {
    assert units == [units[0]] + units[1..];
    if k > 0 {
      PutKnown(units[1..], u, k - 1);
    }
  }

  /** A new hash goes to the end, a known one keeps its place. */
  lemma PutInPlace(units: seq<Unit>, u: Unit)
    requires IsDictionary(units)
    ensures
      || ((forall i :: 0 <= i < |units| ==> units[i].hash != u.hash) && Put(units, u) == units + [u])
      || exists k :: 0 <= k < |units| && units[k].hash == u.hash && Put(units, u) == units[k := u]
  {
    hide Put;
    if k :| 0 <= k < |units| && units[k].hash == u.hash {
      PutKnown(units, u, k);
    } else {
      PutNew(units, u);
    }
  }

  lemma CollectedPut(messages: seq<Message>, includeFuzzy: bool)
    requires messages != []
    ensures
      var n := |messages| - 1;
      var m := messages[n];
      var before := Collected(messages[..n], includeFuzzy);
      var units := Collected(messages, includeFuzzy);
      && (m.Included(includeFuzzy) ==> Unit(m.Hash(), m.target) in units)
      && (forall v :: v in before && !(m.Included(includeFuzzy) && v.hash == m.Hash()) ==> v in units)
  {
    var n := |messages| - 1;
    var m := messages[n];
    FoldsAgree(Encode(m.Key()), FNV1_32_INIT);
    PutKeeps(Collected(messages[..n], includeFuzzy), Unit(m.Hash(), m.target));
    hide Put, IsDictionary, WrappingFold, Encode;
  }

  /** End to end: looking up a prevailing message's key in the loaded catalogue finds its
      translation, whatever the resource section appends. */
  lemma TranslationIsFound(messages: seq<Message>, includeFuzzy: bool, k: nat, trailing: seq<Byte>)
    requires k < |messages| && Prevails(messages, includeFuzzy, k)
    requires
      var units := Collected(messages, includeFuzzy);
      Fits(units) && NoTerminators(units)
    ensures
      var resource := Image(Collected(messages, includeFuzzy)) + trailing;
      var m := Loaded(resource);
      messages[k].Hash() in m && CString(resource, m[messages[k].Hash()]) == messages[k].target
  {
    var units := Collected(messages, includeFuzzy);
    PrevailingIsCollected(messages, includeFuzzy, k);
    CatalogueRoundTrip(units, trailing);
    var i :| 0 <= i < |units| && units[i] == Unit(messages[k].Hash(), messages[k].target);
  }

  // ---------------------------------------------------------------- looking a text up

  function Lookup(resource: seq<Byte>, str: seq<CodeUnit>): Option<seq<CodeUnit>> {
    var hash := WrappingFold(Encode(str), FNV1_32_INIT);
    var m := Loaded(resource);
    if hash in m then Some(CString(resource, m[hash])) else None
  }

  /** Translate: the text itself where there is no translation. */
  function Translate(resource: seq<Byte>, str: seq<CodeUnit>): seq<CodeUnit> {
    var found := Lookup(resource, str);
    if found.Some? then found.value else str
  }

  /** TranslateContext, and the macro that puts the two texts together. */
  function TranslateContext(resource: seq<Byte>, context: seq<CodeUnit>, str: seq<CodeUnit>): seq<CodeUnit> {
    var found := Lookup(resource, context + [4] + str);
    if found.Some? then found.value else str
  }

  /** The writer's key is the one the program asks for, with and without a context: a message that
      is the last with its hash is shown translated. */
  lemma MessageIsTranslated(messages: seq<Message>, includeFuzzy: bool, k: nat, trailing: seq<Byte>)
    requires k < |messages| && Prevails(messages, includeFuzzy, k)
    requires
      var units := Collected(messages, includeFuzzy);
      Fits(units) && NoTerminators(units)
    ensures
      var m := messages[k];
      var resource := Image(Collected(messages, includeFuzzy)) + trailing;
      m.target == if m.context == [] then Translate(resource, m.source)
                  else TranslateContext(resource, m.context, m.source)
  {
    TranslationIsFound(messages, includeFuzzy, k, trailing);
    hide Collected, Prevails, Image, Loaded, CString, WrappingFold, Fits, NoTerminators, Encode;
  }
}
