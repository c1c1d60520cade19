/**
 * ROM header helpers of the command-line tools (src/bin/check_sum.rs and
 * src/bin/show_gametitle.rs). The internal header is looked for at three
 * candidate bases: 0x7F00 (LoROM), 0xFF00 (HiROM) and 0x40FF00 (ExHiROM).
 */
module RomHeader {
  import opened Wrappers
  import opened Arith
  import opened CpuTypes

  const Bases: seq<nat> := [0x7F00, 0xFF00, 0x40FF00]

  /** The plain sum of all bytes. */
  function Sum(s: seq<u8>): nat
  {
    if |s| == 0 then 0 else Sum(s[..|s| - 1]) + s[|s| - 1]
  }

  /** `calc_checksum`: a 16-bit wrapping sum over every byte of the image. */
  method CalcChecksum(rom: seq<u8>) returns (sum: nat)
    ensures sum < 0x10000
    ensures sum == Sum(rom) % 0x10000
  {
    sum := 0;
    for i := 0 to |rom|
      invariant sum < 0x10000
      invariant sum == Sum(rom[..i]) % 0x10000
    {
      assert rom[..i + 1][..i] == rom[..i];
      ghost var before := Sum(rom[..i]);
      var next := sum + rom[i];
      DivMod(before + rom[i], 0x10000, before / 0x10000 + next / 0x10000, next % 0x10000);
      sum := next % 0x10000;
    }
    assert rom[..|rom|] == rom;
  }

  lemma {:induction false} SumAppend(a: seq<u8>, b: seq<u8>)
    ensures Sum(a + b) == Sum(a) + Sum(b)
    decreases |b|
  {
    if |b| == 0 {
      assert a + b == a;
    } else {
      assert (a + b)[..|a + b| - 1] == a + b[..|b| - 1];
      SumAppend(a, b[..|b| - 1]);
    }
  }

  /** Taking out the byte at `j` takes its value out of the sum. */
  lemma SumRemoveAt(b: seq<u8>, j: nat)
    requires j < |b|
    ensures Sum(b) == Sum(b[..j] + b[j + 1..]) + b[j]
  {
    var p, x, q := b[..j], b[j], b[j + 1..];
    assert b == p + [x] + q;
    SumMiddle(p, x, q);
  }

  /** A byte between two runs adds its value to the sum of the two runs. */
  lemma SumMiddle(p: seq<u8>, x: u8, q: seq<u8>)
    ensures Sum(p + [x] + q) == Sum(p + q) + x
  {
    SumAppend(p + [x], q);
    SumAppend(p, [x]);
    SumAppend(p, q);
    assert [x][..0] == [];
  }

  /** Taking out the byte at `j` takes one occurrence of it out of the multiset. */
  lemma MultisetRemoveAt(b: seq<u8>, j: nat)
    requires j < |b|
    ensures multiset(b[..j] + b[j + 1..]) == multiset(b) - multiset{b[j]}
  {
    assert b == b[..j] + [b[j]] + b[j + 1..];
  }

  /** The checksum does not depend on the order of the bytes. */
  lemma {:induction false} SumPermutation(a: seq<u8>, b: seq<u8>)
    requires multiset(a) == multiset(b)
    ensures Sum(a) == Sum(b)
    decreases |a|
  {
    if |a| > 0 {
      var x := a[|a| - 1];
      var a' := a[..|a| - 1];
      assert a == a' + [x];
      assert x in multiset(b);
      var j :| 0 <= j < |b| && b[j] == x;
      var b' := b[..j] + b[j + 1..];
      SumRemoveAt(b, j);
      MultisetRemoveAt(b, j);
      SumRemoveAt(a, |a| - 1);
      MultisetRemoveAt(a, |a| - 1);
      assert a[..|a| - 1] + a[|a|..] == a';
      SumPermutation(a', b');
    }
  }

  /** The two header words: the checksum complement and the checksum. */
  datatype HeaderWords = HeaderWords(complement: nat, checksum: nat)

  /** `u16::from_le_bytes` of rom[at..at + 2]. */
  function LeWord(rom: seq<u8>, at: nat): (w: nat)
    requires at + 2 <= |rom|
    ensures w < 0x10000
    ensures w % 0x100 == rom[at] && w / 0x100 == rom[at + 1]
  {
    var w := rom[at] as int + 0x100 * rom[at + 1] as int;
    DivMod(w, 0x100, rom[at + 1] as int, rom[at] as int);
    w
  }

  /**
   * The header check of `main` at one base: "over" (`None`) when the 256-byte
   * header page does not fit, otherwise the little-endian words at base + 0xDC
   * and base + 0xDE, which then lie inside the image.
   */
  function ReadHeader(rom: seq<u8>, base: nat): (r: Option<HeaderWords>)
    ensures r.None? <==> base + 0x100 > |rom|
    ensures r.Some? ==> base + 0xE0 <= |rom| &&
                        r.value.complement == LeWord(rom, base + 0xDC) &&
                        r.value.checksum == LeWord(rom, base + 0xDE)
  {
    if base + 0x100 > |rom| then None
    else Some(HeaderWords(LeWord(rom, base + 0xDC), LeWord(rom, base + 0xDE)))
  }

  /** The title entry for one base: "over", the trimmed title, or "None". */
  function TitleAt(rom: seq<u8>, base: nat, fromUtf8: seq<u8> -> Option<string>, trim: string -> string): (t: string)
    ensures base + 0x100 > |rom| ==> t == "over"
    ensures base + 0x100 <= |rom| && fromUtf8(rom[base + 0xC0..base + 0xC0 + 21]).None? ==> t == "None"
    ensures base + 0x100 <= |rom| && fromUtf8(rom[base + 0xC0..base + 0xC0 + 21]).Some? ==>
              t == trim(fromUtf8(rom[base + 0xC0..base + 0xC0 + 21]).value)
  {
    if base + 0x100 > |rom| then "over"
    else match fromUtf8(rom[base + 0xC0..base + 0xC0 + 21])
      case Some(title) => trim(title)
      case None => "None"
  }

  /**
   * `get_title`: one entry per base, in base order. UTF-8 decoding and
   * whitespace trimming are library calls, passed in as `fromUtf8` and `trim`.
   */
  method GetTitle(rom: seq<u8>, fromUtf8: seq<u8> -> Option<string>, trim: string -> string)
    returns (ret: seq<string>)
    ensures |ret| == 3
    ensures forall k :: 0 <= k < 3 ==> ret[k] == TitleAt(rom, Bases[k], fromUtf8, trim)
  {
    ret := [];
    for k := 0 to |Bases|
      invariant |ret| == k
      invariant forall j :: 0 <= j < k ==> ret[j] == TitleAt(rom, Bases[j], fromUtf8, trim)
    {
      var base := Bases[k];
      if base + 0x100 > |rom| {
        ret := ret + ["over"];
        continue;
      }
      var tmp := match fromUtf8(rom[base + 0xC0..base + 0xC0 + 21])
        case Some(title) => trim(title)
        case None => "None";
      ret := ret + [tmp];
    }
  }
}
