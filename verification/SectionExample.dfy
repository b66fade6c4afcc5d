/**
  A file with one segment and three sections: the loader copies the part of the segment that the file has,
  clears the one section that is to be cleared, and makes the image.
  */
module SectionExample {
  import opened Wrappers
  import opened InitialTables
  import opened ByteMemory
  import opened ElfLoader
  import opened ElfFormat

  /** The bytes that are not zero.  The header: entry 0x100001008, program headers at 0x40 and section headers at
      0x100.  The segment: 0x20 bytes from 0x210 of the file to 0x100001000, 0x30 bytes in memory.  The sections:
      code at 0x100001000, cleared data at 0x100001020, and 0x40 bytes at 0x100002000 that are not allocated. */
  function File(): Bytes {
    (a: int) =>
      if a < 0x40 then
        (if a == 0 then 0x7F else if a == 1 then 0x45 else if a == 2 then 0x4C else if a == 3 then 0x46
         else if a == 4 then 2 else if a == 16 then 2
         else if a == 24 then 0x08 else if a == 25 then 0x10 else if a == 28 then 1      // e_entry
         else if a == 32 then 0x40 else if a == 41 then 1                                // e_phoff, e_shoff
         else if a == 54 then 56 else if a == 56 then 1                                  // program headers
         else if a == 58 then 64 else if a == 60 then 3                                  // section headers
         else 0)
      else if a < 0x100 then
        (if a == 0x40 then 1 else if a == 0x48 then 0x10 else if a == 0x49 then 0x02     // p_type, p_offset
         else if a == 0x51 then 0x10 else if a == 0x54 then 1                            // p_vaddr
         else if a == 0x60 then 0x20 else if a == 0x68 then 0x30                         // p_filesz, p_memsz
         else 0)
      else if a < 0x140 then
        (if a == 0x104 then 1 else if a == 0x108 then 2                                  // PROGBITS, ALLOC
         else if a == 0x111 then 0x10 else if a == 0x114 then 1 else if a == 0x120 then 0x20
         else 0)
      else if a < 0x180 then
        (if a == 0x144 then 8 else if a == 0x148 then 3                                  // NOBITS, WRITE and ALLOC
         else if a == 0x150 then 0x20 else if a == 0x151 then 0x10 else if a == 0x154 then 1
         else if a == 0x160 then 0x10
         else 0)
      else if a < 0x210 then
        (if a == 0x184 then 8 else if a == 0x188 then 1                                  // NOBITS, WRITE
         else if a == 0x191 then 0x20 else if a == 0x194 then 1 else if a == 0x1A0 then 0x40
         else 0)
      else if a < 0x230 then a - 0x200
      else 0
  }

  /** A number of eight bytes of which the first two and the fifth may be other than zero. */
  lemma Address(file: Bytes, a: int, n: nat)
    requires n == 8 && file(a + 2) == 0 && file(a + 3) == 0 && file(a + 5) == 0 && file(a + 6) == 0 && file(a + 7) == 0
    ensures Le(file, a, n) == file(a) + 0x100 * file(a + 1) + 0x1_0000_0000 * file(a + 4)
  {
    LeSplit(file, a, 4, n);
    LeSplit(file, a, 2, 4);
    ZeroBytes(file, a + 2, 2);
    Number2(file, a, 2);
    LeLow(file, a + 4, 4);
    assert Bytes8(4) == 0x1_0000_0000;
  }

  lemma Accepted(file: Bytes)
    requires file == File()
    ensures HeaderAccepted(file)
  {
    HeaderBytes(file);
  }

  lemma Entry(file: Bytes)
    requires file == File()
    ensures Le(file, 24, 8) == 0x1_0000_1008
  {
    Address(file, 24, 8);
  }

  lemma TableOffsets(file: Bytes)
    requires file == File()
    ensures Le(file, 32, 8) == 0x40 && Le(file, 40, 8) == 0x100
  {
    Address(file, 32, 8);
    Address(file, 40, 8);
  }

  lemma Tables(file: Bytes)
    requires file == File()
    ensures GetEntry(file) == 0x1_0000_1008
    ensures Phdrs(file) == Table(1, 0x40, 56) && Shdrs(file) == Table(3, 0x100, 64)
  {
    TableBytes(file);
    Entry(file);
    TableOffsets(file);
  }

  lemma LoadPlace(file: Bytes)
    requires file == File()
    ensures Le(file, 0x48, 8) == 0x210 && Le(file, 0x50, 8) == 0x1_0000_1000
  {
    Address(file, 0x48, 8);
    Address(file, 0x50, 8);
  }

  lemma LoadSize(file: Bytes)
    requires file == File()
    ensures Le(file, 0x60, 8) == 0x20 && Le(file, 0x68, 8) == 0x30
  {
    Address(file, 0x60, 8);
    Address(file, 0x68, 8);
  }

  lemma TheLoad(file: Bytes)
    requires file == File()
    ensures GetInfoIfLoad(file, 0x40) == Some(Load(0x1_0000_1000, 0x210, 0x20, 0x30))
  {
    LoadBytes(file, 0x40);
    LoadSizeBytes(file, 0x40);
    LoadPlace(file);
    LoadSize(file);
  }

  lemma NotCleared(file: Bytes, shdr: nat)
    requires file == File() && (shdr == 0x100 || shdr == 0x180)
    ensures GetInfoIfBss(file, shdr) == None
  {
    BssBytes(file, shdr);
  }

  lemma BssPlace(file: Bytes, shdr: nat)
    requires file == File() && shdr == 0x140
    ensures Le(file, shdr + 16, 8) == 0x1_0000_1020 && Le(file, shdr + 32, 8) == 0x10
  {
    Address(file, shdr + 16, 8);
    Address(file, shdr + 32, 8);
  }

  lemma BssKind(file: Bytes, shdr: nat)
    requires file == File() && shdr == 0x140
    ensures IsWord32(file, shdr + 4, 8) && file(shdr + 8) == 3
  {
  }

  lemma TheBss(file: Bytes, shdr: nat)
    requires file == File() && shdr == 0x140
    ensures GetInfoIfBss(file, shdr) == Some(Bss(0x1_0000_1020, 0x10))
  {
    BssBytes(file, shdr);
    BssKind(file, shdr);
    BssPlace(file, shdr);
  }

  lemma OneOffset(t: Table)
    requires t == Table(1, 0x40, 56)
    ensures Offsets(t, 0) == [0x40]
  {
    VisitsAll(t);
    OffsetsAt(t, 0, 0);
  }

  lemma ThreeOffsets(t: Table)
    requires t == Table(3, 0x100, 64)
    ensures Offsets(t, 0) == [0x100, 0x140, 0x180]
  {
    VisitsAll(t);
    OffsetsAt(t, 0, 0);
    OffsetsAt(t, 0, 1);
    OffsetsAt(t, 0, 2);
  }

  lemma LoadsWalk(file: Bytes, t: Table)
    requires file == File() && t == Table(1, 0x40, 56)
    ensures Loads(file, Offsets(t, 0)) == [Some(Load(0x1_0000_1000, 0x210, 0x20, 0x30))]
  {
    OneOffset(t);
    TheLoad(file);
  }

  lemma SectionsWalk(file: Bytes, t: Table)
    requires file == File() && t == Table(3, 0x100, 64)
    ensures Sections(file, Offsets(t, 0)) == [None, Some(Bss(0x1_0000_1020, 0x10)), None]
  {
    ThreeOffsets(t);
    NotCleared(file, 0x100);
    TheBss(file, 0x140);
    NotCleared(file, 0x180);
  }

  lemma Walks(file: Bytes)
    requires file == File()
    ensures LoadsOf(file) == [Some(Load(0x1_0000_1000, 0x210, 0x20, 0x30))]
    ensures SectionsOf(file) == [None, Some(Bss(0x1_0000_1020, 0x10)), None]
  {
    Tables(file);
    LoadsWalk(file, Phdrs(file));
    SectionsWalk(file, Shdrs(file));
  }

  lemma Contents(a: int)
    requires 0x210 <= a < 0x230
    ensures File()(a) == a - 0x200
  {
  }

  lemma EachByte(file: Bytes, m: Bytes, ls: seq<Option<Load>>, bs: seq<Option<Bss>>, a: int)
    requires ls == [Some(Load(0x1_0000_1000, 0x210, 0x20, 0x30))]
    requires bs == [None, Some(Bss(0x1_0000_1020, 0x10)), None]
    ensures LoadsPass(ls) && SectionsPass(bs) && Disjoint(ls)
    ensures Deployed(file, m, ls, bs)(a) ==
            if 0x1_0000_1000 <= a < 0x1_0000_1020 then file(a - 0x1_0000_1000 + 0x210)
            else if 0x1_0000_1020 <= a < 0x1_0000_1030 then 0
            else m(a)
  {
    ClearedByte(Loaded(file, m, ls), bs, a);
    assert SomeBss(bs, a) <==> InBss(bs[1], a);
    if InFile(ls[0], a) { LoadedByte(file, m, ls, 0, a); } else { LoadedElsewhere(file, m, ls, a); }
  }

  lemma TheFileDeploys(file: Bytes)
    requires file == File()
    ensures Deploys(file)
  {
    Accepted(file);
    Walks(file);
    EachByte(file, AllBytes(0), LoadsOf(file), SectionsOf(file), 0);
  }

  /** The file deploys; the bytes 0x10, 0x11, .. of its segment are at 0x100001000, the next 0x10 bytes are
      zero, and everything else is as before. */
  lemma SectionsCleared(m: Bytes, a: int)
    ensures Deploys(File()) && GetEntry(File()) == 0x1_0000_1008
    ensures Deployed(File(), m, LoadsOf(File()), SectionsOf(File()))(a) ==
            if 0x1_0000_1000 <= a < 0x1_0000_1020 then a - 0x1_0000_1000 + 0x10
            else if 0x1_0000_1020 <= a < 0x1_0000_1030 then 0
            else m(a)
  {
    TheFileDeploys(File());
    Tables(File());
    Walks(File());
    EachByte(File(), m, LoadsOf(File()), SectionsOf(File()), a);
    if 0x1_0000_1000 <= a < 0x1_0000_1020 { Contents(a - 0x1_0000_1000 + 0x210); }
  }
}
