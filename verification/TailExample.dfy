/**
  A file that the loader accepts and whose image it does not make: one segment of one byte, none of it in the
  file, and no sections.
  */
module TailExample {
  import opened Wrappers
  import opened InitialTables
  import opened ByteMemory
  import opened ElfLoader

  /** The bytes that are not zero: the identification, the type, where the program headers are, and one
      program header at offset 64. */
  function File(): Bytes {
    (a: int) =>
      if a == 0 then 0x7F else if a == 1 then 'E' as int else if a == 2 then 'L' as int else if a == 3 then 'F' as int
      else if a == 4 then 2                                             // ELFCLASS64
      else if a == 16 then 2                                            // ET_EXEC
      else if a == 32 then 64                                           // e_phoff
      else if a == 54 then 56 else if a == 56 then 1                    // e_phentsize, e_phnum
      else if a == 64 then 1                                            // p_type
      else if a == 84 then 1                                            // p_vaddr: 0x100000000
      else if a == 104 then 1                                           // p_memsz
      else 0
  }

  /** A field whose lowest byte is the only one that is not zero. */
  lemma ReadLow(file: Bytes, header: nat, f: Field)
    requires f.width > 0 && forall x :: header + f.at < x < header + f.at + f.width ==> file(x) == 0
    ensures Read(file, header, f) == file(header + f.at)
  {
    LeLow(file, header + f.at, f.width);
  }

  /** A field of eight bytes of which the fifth is the only one that is not zero. */
  lemma ReadHigh(file: Bytes, header: nat, f: Field)
    requires f.width == 8 && forall x :: f.at <= x - header < f.at + 8 && x - header != f.at + 4 ==> file(x) == 0
    ensures Read(file, header, f) == 0x1_0000_0000 * file(header + f.at + 4)
  {
    var a := header + f.at;
    LeSplit(file, a, 4, f.width);
    ZeroBytes(file, a, 4);
    LeLow(file, a + 4, f.width - 4);
    assert Bytes8(4) == 0x1_0000_0000;
  }

  lemma Identified(file: Bytes)
    requires file == File()
    ensures HeaderAccepted(file)
  {
    ReadLow(file, 0, E_TYPE);
  }

  lemma FieldRead(header: nat, f: Field, v: nat)
    requires f.width > 0 && File()(header + f.at) == v
    requires forall x :: header + f.at < x < header + f.at + f.width ==> File()(x) == 0
    ensures Read(File(), header, f) == v
  {
    ReadLow(File(), header, f);
  }

  lemma PhdrsRead()
    ensures Phdrs(File()) == Table(1, 64, 56)
  {
    FieldRead(0, E_PHNUM, 1);
    FieldRead(0, E_PHOFF, 64);
    FieldRead(0, E_PHENTSIZE, 56);
  }

  lemma ShdrsRead()
    ensures Shdrs(File()) == Table(0, 0, 0)
  {
    FieldRead(0, E_SHNUM, 0);
    FieldRead(0, E_SHOFF, 0);
    FieldRead(0, E_SHENTSIZE, 0);
  }

  lemma SegmentKind(phdr: nat)
    requires phdr == 64
    ensures Read(File(), phdr, P_TYPE) == 1 && Read(File(), phdr, P_OFFSET) == 0
  {
    FieldRead(phdr, P_TYPE, 1);
    FieldRead(phdr, P_OFFSET, 0);
  }

  lemma SegmentSizes(phdr: nat)
    requires phdr == 64
    ensures Read(File(), phdr, P_FILESZ) == 0 && Read(File(), phdr, P_MEMSZ) == 1
  {
    FieldRead(phdr, P_FILESZ, 0);
    FieldRead(phdr, P_MEMSZ, 1);
  }

  lemma SegmentAddress(phdr: nat)
    requires phdr == 64
    ensures Read(File(), phdr, P_VADDR) == 0x1_0000_0000
  {
    ReadHigh(File(), phdr, P_VADDR);
  }

  lemma SegmentRead(file: Bytes, phdr: nat)
    requires file == File() && phdr == 64
    ensures GetInfoIfLoad(file, phdr) == Some(Load(DEPLOY_PHYS_ADDR_START, 0, 0, 1))
  {
    SegmentKind(phdr);
    SegmentSizes(phdr);
    SegmentAddress(phdr);
  }

  lemma OneOffset(t: Table)
    requires t == Table(1, 64, 56)
    ensures Offsets(t, 0) == [64]
  {
    VisitsAll(t);
    OffsetsAt(t, 0, 0);
  }

  lemma Walks(file: Bytes)
    requires file == File()
    ensures LoadsOf(file) == [Some(Load(DEPLOY_PHYS_ADDR_START, 0, 0, 1))] && SectionsOf(file) == []
  {
    PhdrsRead();
    ShdrsRead();
    OneOffset(Phdrs(file));
    VisitsAll(Shdrs(file));
    SegmentRead(file, 64);
  }

  /** One segment of one byte without file contents, no sections: the byte keeps what the memory held. */
  lemma TailKept(file: Bytes, ls: seq<Option<Load>>, a: int)
    requires ls == [Some(Load(DEPLOY_PHYS_ADDR_START, 0, 0, 1))] && a == DEPLOY_PHYS_ADDR_START
    ensures LoadsPass(ls) && Disjoint(ls) && Deployed(file, AllBytes(1), ls, [])(a) == 1
    ensures !ImageAt(file, ls, AllBytes(1), Deployed(file, AllBytes(1), ls, []), a)
  {
    LoadedElsewhere(file, AllBytes(1), ls, a);
    assert InSegment(ls[0], a) && SegmentByte(file, ls[0], a) == 0;
  }

  /** The loader accepts the file, and does not make its image. */
  lemma UnclearedTail()
    ensures var file, a := File(), DEPLOY_PHYS_ADDR_START;
            var ls, bs := LoadsOf(file), SectionsOf(file);
            && Deploys(file) && Disjoint(ls)
            && !ImageAt(file, ls, AllBytes(1), Deployed(file, AllBytes(1), ls, bs), a)
  {
    var file := File();
    Identified(file);
    Walks(file);
    TailKept(file, LoadsOf(file), DEPLOY_PHYS_ADDR_START);
  }
}
