/** What the loader reads of a file, byte by byte (the ELF-64 object file format). */
module ElfFormat {
  import opened Wrappers
  import opened ByteMemory
  import opened ElfLoader

  /** The four bytes from `a` are a small number. */
  predicate IsWord32(file: Bytes, a: int, v: Byte) {
    file(a) == v && file(a + 1) == 0 && file(a + 2) == 0 && file(a + 3) == 0
  }

  lemma Number2(file: Bytes, a: int, n: nat)
    requires n == 2
    ensures Le(file, a, n) == file(a) + 0x100 * file(a + 1)
  {
    assert Le(file, a + 1, 1) == file(a + 1);
  }

  lemma Number4(file: Bytes, a: int, n: nat, v: Byte)
    requires n == 4
    ensures Le(file, a, n) == v <==> IsWord32(file, a, v)
  {
    LeSplit(file, a, 1, n);
    if IsWord32(file, a, v) {
      LeLow(file, a, n);
    } else if Le(file, a, n) == v {
      assert Le(file, a, 1) == file(a);
      NumberZero(file, a + 1, 3);
    }
  }

  lemma {:induction false} NumberZero(file: Bytes, a: int, n: nat)
    requires Le(file, a, n) == 0
    ensures forall x :: a <= x < a + n ==> file(x) == 0
    decreases n
  {
    if n > 0 { NumberZero(file, a + 1, n - 1); }
  }

  /** Which files pass: identification, class, operating system and type. */
  lemma HeaderBytes(file: Bytes)
    ensures HeaderAccepted(file) <==>
            && file(0) == 0x7F && file(1) == 0x45 && file(2) == 0x4C && file(3) == 0x46
            && file(4) == 2 && (file(7) == 0 || file(7) == 3) && file(16) == 2 && file(17) == 0
  {
    Number2(file, 16, E_TYPE.width);
  }

  /** Where the entry point and the two tables are found. */
  lemma TableBytes(file: Bytes)
    ensures GetEntry(file) == Le(file, 24, 8)
    ensures Phdrs(file) == Table(file(56) + 0x100 * file(57), Le(file, 32, 8), file(54) + 0x100 * file(55))
    ensures Shdrs(file) == Table(file(60) + 0x100 * file(61), Le(file, 40, 8), file(58) + 0x100 * file(59))
  {
    Number2(file, 56, E_PHNUM.width);
    Number2(file, 54, E_PHENTSIZE.width);
    Number2(file, 60, E_SHNUM.width);
    Number2(file, 58, E_SHENTSIZE.width);
  }

  /** A program header is loaded exactly if its type is 1. */
  lemma LoadBytes(file: Bytes, phdr: nat)
    ensures GetInfoIfLoad(file, phdr).Some? <==> IsWord32(file, phdr, 1)
    ensures var l := GetInfoIfLoad(file, phdr);
            l.Some? ==> l.value.offset == Le(file, phdr + 8, 8) && l.value.vaddr == Le(file, phdr + 16, 8)
  {
    Number4(file, phdr, P_TYPE.width, 1);
  }

  lemma LoadSizeBytes(file: Bytes, phdr: nat)
    ensures var l := GetInfoIfLoad(file, phdr);
            l.Some? ==> l.value.size == Le(file, phdr + 32, 8) && l.value.memsz == Le(file, phdr + 40, 8)
  {
  }

  /** A section is cleared exactly if its type is 8 and bit 1 of its flags is set. */
  lemma BssBytes(file: Bytes, shdr: nat)
    ensures GetInfoIfBss(file, shdr).Some? <==> IsWord32(file, shdr + 4, 8) && file(shdr + 8) / 2 % 2 == 1
    ensures var b := GetInfoIfBss(file, shdr);
            b.Some? ==> b.value.vaddr == Le(file, shdr + 16, 8) && b.value.size == Le(file, shdr + 32, 8)
  {
    Number4(file, shdr + 4, SH_TYPE.width, 8);
    LowBit(file(shdr + 8), Le(file, shdr + 9, SH_FLAGS.width - 1));
  }

  lemma LowBit(b: Byte, rest: nat)
    ensures (b + 0x100 * rest) / 2 % 2 == b / 2 % 2
  {
    assert (b + 0x100 * rest) / 2 == b / 2 + 0x80 * rest;
  }

  lemma NotBss(file: Bytes, offs: seq<nat>, j: nat)
    requires j < |offs| && !IsWord32(file, offs[j] + 4, 8)
    ensures Sections(file, offs)[j] == None
  {
    BssBytes(file, offs[j]);
  }

  lemma NothingCleared(m: Bytes, bs: seq<Option<Bss>>, a: int)
    requires forall j :: 0 <= j < |bs| ==> bs[j] == None
    ensures Cleared(m, bs)(a) == m(a)
  {
    ClearedByte(m, bs, a);
  }

  lemma NoBssSections(file: Bytes, m: Bytes, offs: seq<nat>, a: int)
    requires forall off :: off in offs ==> !IsWord32(file, off + 4, 8)
    ensures Cleared(m, Sections(file, offs))(a) == m(a)
  {
    var bs := Sections(file, offs);
    forall j | 0 <= j < |bs| ensures bs[j] == None {
      assert offs[j] in offs;
      NotBss(file, offs, j);
    }
    NothingCleared(m, bs, a);
  }

  /** If no visited section has type 8, nothing is cleared. */
  lemma NoBssNoClearing(file: Bytes, m: Bytes, a: int)
    requires forall off :: off in Offsets(Shdrs(file), 0) ==> !IsWord32(file, off + 4, 8)
    ensures Deployed(file, m, LoadsOf(file), SectionsOf(file))(a) == Loaded(file, m, LoadsOf(file))(a)
  {
    NoBssSections(file, Loaded(file, m, LoadsOf(file)), Offsets(Shdrs(file), 0), a);
  }
}
