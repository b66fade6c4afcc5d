# Toshokan: a model of its protocol, page tables, loader and start-up

Toshokan lets a Linux process, hakase, load a binary onto cores taken away from Linux, the friends.  These
Dafny modules model the four parts of it that carry whole-run invariants, and prove what they are for.

- **Offloading** (`Offload*.dfy`).  A friend hands a block of code to hakase, which jumps into the friend's
  saved context, runs the block on the friend's stack and jumps back.  `OffloadMachine` gives the instructions
  of `_OFFLOAD`, `TryReceive` and the context-saving assembly over any number of friends, as a step relation in
  which a schedule picks who moves.  `OffloadBuffered` executes them on x86-TSO: stores go through a FIFO
  buffer per core (section 8.2 of the Intel SDM, volume 3A).  `OffloadSequential` executes them on plain memory,
  and `OffloadSpec` is the specification, in which a block runs in one step.  Two simulations lead from the
  first to the last, and `OffloadTheorems` and `OffloadProgress` draw the conclusions for every run.  The programs
  of the cores and the blocks are parameters.  The theorems ask one thing of them, and only in the specification:
  when blocks are run one at a time and in one step, each keeps to its friend's frame and hakase's memory
  (`WellBehaved`).  `OffloadBlocks` gives a way to show that, and a block that uses the stack.
- **Page tables and TLB** (`Paging`, `InitialTables`, `TableExtension`, `Tlb`, `AddressSpaces`, `Mapping`,
  `PageFault`).  One 4-level walk (section 4.5 of the Intel SDM, volume 3A) and a TLB that fills and evicts as it likes
  (section 4.10).  The code that builds, switches, extends and edits tables is proved against the walk, with
  the TLB active before every instruction.
- **Loader and setup** (`ByteMemory`, `PhysicalMemory`, `ElfLoader`, `ElfFormat`, `TailExample`,
  `SectionExample`, `Setup`, `StraightMap`).  Headers are read from the bytes of the file.  The result of the two
  header walks is compared with the image that the section "Program Header" of chapter 5 of the System V ABI
  defines, and composed with the page tables and the exported symbols.
- **Start and stop** (`StartStop`).  Any number of cores take stacks and go through `friend_init` in any
  interleaving.

A 64-bit word of a table is modelled by its fields (`Paging.Word`), and a virtual address by its indices
(`Paging.Va`); lemmas connect both to the integers and to the bitwise or of the code.  Where tables are built,
memory is bytes, and its aligned words are a view of them (`PhysicalMemory.Ram`).  Memory words of the
offload protocol are named rather than addressed.  What the hardware does around an instruction is a parameter
wherever it is not determined.

Four things the sources suggest do not hold for all inputs; each has a concrete instance and an exact condition.

- `CheckMemoryRegion` accepts some areas outside the friend region, when their end wraps around
  (`WrappedAreaPasses`, `CheckExactly`, `DeployFrameExactly`).
- Clearing by sections makes the System V image only if the sections match the tails of the segments
  (`UnclearedTail`, `DeploysImageExactly`).
- `memdevice_mmap` accepts page offsets that wrap around (`LargeOffsetWraps`, `ReachesRegionExactly`).  The function
  admits them as arguments; mmap on x86-64 takes a 64-bit offset in bytes and passes at most 2^52 - 1 pages.
- `is_friend_stopped` is documented as telling whether all friend cores have finished.  It tells so exactly if
  all cores have entered when the destructors are first started (`LateCore`, `FlagIsTrueExactly`).

## Model

| member | source | states |
|---|---|---|
| `OffloadTheorems.OffloadRefines` | common/offload.h:21-58 | every run of any number of friends and hakase under x86-TSO store buffers is a run of the atomic specification with the same calls: blocks run one at a time, in the order the lock was won, each on hakase in the callee-saved registers and frame of the friend that asked, and the friend resumes with what the block left |
| `OffloadTheorems.ExactlyOnce` | common/offload.h:43-58 | in every run the blocks run through so far, each recorded with the core that ran it, were run by hakase, and those of a friend are the ones it asked for, once each and in order, at most the last one outstanding, and none once the friend is past its `_OFFLOAD` |
| `OffloadTheorems.BlocksRun` | common/offload.h:49-53 | in every reachable state the recorded executions are those of the requests that won the lock, in that order and all by hakase, and no friend is inside a block |
| `OffloadBlocks.GuardedIsWellBehaved` | common/offload.h:50-52 | blocks whose every instruction can be justified from the registers, by an assertion kept from the `_OFFLOAD` on, are well behaved in all runs |
| `OffloadBlocks.PushPopIsWellBehaved` | common/offload.h:49-56 | a block that pushes, stores below rbp and pops is well behaved from an initial state in which it can be offloaded, so the theorems apply to it |
| `OffloadTheorems.SingleWriter` | common/offload.h:22-29 | in every reachable state at most one core has a store to `_friend_ctx` buffered or about to be issued |
| `OffloadTheorems.SignalsExclude` | common/offload.h:45-57 | in memory slots 8 and 9 are never both up, and either is up only while the lock is held |
| `OffloadTheorems.WaitLoopExit` | common/offload.S:41-54 | a friend that leaves the wait loop sees slot 8 down, and no store of any core to the context or to its frame is still buffered, so it sees all its block wrote |
| `OffloadTheorems.LockWinnerFinds` | common/offload.h:45-48 | the friend whose compare-and-swap succeeds finds slots 8 and 9 down, and no buffered store of anyone to the context or the lock |
| `OffloadTheorems.Conservation` | common/offload.h:21-32 | acquired less released, raised less taken and answered less cleared are each 0 or 1, and are the lock, slot 8 and slot 9 once the buffers have drained; taken less answered is 1 exactly while hakase serves |
| `OffloadTheorems.HakaseTransparent` | common/offload.h:26-31 | however often hakase polls and whatever blocks it runs, it is back with its callee-saved registers and stack pointer as they were |
| `OffloadTheorems.ReturnsWhereCalled` | common/offload.S:55-68 | every return of the protocol ends where the context was saved, or at the caller: hakase's into the block, out of both saves and back out of the friend's context, and the friend's out of its wait |
| `OffloadProgress.SomeStepProgresses` | common/offload.h:43-58 | while an offload is unfinished some step other than a spin is enabled and lowers a lexicographic measure, unless a request waits for hakase and hakase is in its own code where it does not poll |
| `OffloadProgress.CanAlwaysFinish` | hakase/hakase.cc:153-157 | from every reachable state with hakase in the protocol or where it polls, and polling again after each request, the steps of the protocol alone can finish every offload under way |
| `OffloadSimulation.StepRefines` | common/offload.h:21-58 | every step on unbuffered memory is a step of the atomic specification, or none, and keeps the relation between the two |
| `OffloadSimulation.SaveKeeps` | common/offload.S:17-28 | each instruction of the saving half stores the next register and loses none stored before; after the last the buffer holds the whole context and the caller's return point; nothing but the slots is stored to |
| `OffloadSimulation.RestoreKeeps` | common/offload.S:46-56 | each instruction of the restoring half brings back the register its slot was saved from, in the order of the code, and stores nothing but the saved return point just below the saved stack pointer |
| `OffloadSimulation.HakaseStep` | common/offload.S:16-68 | while it serves, every instruction of hakase keeps to the course into the friend's context, through the block and back, and stores only to the two buffers, the friend's frame and its own memory |
| `OffloadSimulation.Delivered` | common/offload.h:29-29 | when hakase answers, the re-saved context and the friend's frame are the result of running the block |
| `OffloadSpec.RunLocality` | common/offload.h:49-56 | a block confined to its friend's frame and hakase's memory computes the same whatever the rest of memory holds, stays confined, and changes nothing there |
| `OffloadBuffered.StepMatched` | common/offload.S:30-56 | every step of the machine with store buffers, loads forwarded from them, is matched by a step on unbuffered memory that reads the same values |
| `OffloadBuffered.SpinSees` | common/offload.S:42-45 | when the wait loop reads slot 9 up, hakase's buffer holds stores to its own memory only |
| `OffloadBuffered.TestSees` | common/offload.h:22-25 | when hakase reads slot 8 up, the friend's whole context has reached memory |
| `OffloadBuffered.CasWins` | common/offload.h:45-46 | when the compare-and-swap succeeds, no store to slots 8 and 9 is buffered anywhere, and the unbuffered machine takes the lock too |
| `Paging.EntryDecodes` | hakase/loader16.cc:73-75 | an entry made of a page-aligned address or-ed with flags is read back by the walk as that frame with those flags, for every address |
| `Paging.SplitJoins` | hakase/loader16.cc:66-69 | the four indices and the offset that the code takes by remainder and division are the address |
| `Paging.PresentWalkKept` | tutorial/paging/mapping/friend.cc:47-54 | overwriting an entry that is not present changes no translation that succeeds |
| `Paging.WalkSamePage` | hakase/loader16.cc:92-102 | all addresses of a page, of whatever size, have the translation of any of them |
| `InitialTables.InitPageTables` | hakase/loader16.cc:63-103 | the new memory word for word: one PML4 entry, two PDPT entries, one of the first page directory, each of the 512 of the second its own 2 MB, and nothing else |
| `InitialTables.StoreUpper` | hakase/loader16.cc:81-94 | the entries above the second page directory, at the slots the index arithmetic gives |
| `InitialTables.InitialisedTables` | hakase/loader16.cc:81-102 | from zeroed, aligned, distinct pages the writes do not disturb each other and leave exactly the two mappings |
| `InitialTables.IdentityWalk` | hakase/loader16.cc:63-103 | below 512 GB the walk is the identity, writable and open to user mode, on the first 2 MB and the friend region, and a fault everywhere else |
| `InitialTables.TablesMapped` | hakase/loader16.cc:59-61 | every word of the four tables is itself mapped to its own address and writable |
| `InitialTables.InitAndMap` | hakase/loader16.cc:63-103 | after the method every walk below 512 GB is the initial map |
| `Tlb.FillsKeepCoherent` | sample_old/paging/041/friend.cc:68-68 | whatever a TLB takes in and drops, it keeps agreeing with tables that do not change |
| `Tlb.MappingKeepsCoherent` | tutorial/paging/mapping/friend.cc:70-73 | filling an entry that was not present leaves no stale translation, without a flush |
| `Tlb.InvalidateRepairs` | tutorial/paging/mapping/friend.cc:64-64 | `invlpg` of the one page that may be stale makes the TLB agree with the tables again |
| `Tlb.OthersStay` | tutorial/paging/mapping/friend.cc:64-64 | an eviction drops the one entry, and `invlpg` exactly the entries for the address |
| `AddressSpaces.CreatePagetable` | sample_old/paging/041/friend.cc:10-28 | the new memory: the five entries of one address space and nothing else |
| `AddressSpaces.BuildSpaces` | sample_old/paging/041/friend.cc:35-51 | after clearing, the 512-step loop and the two calls, both address spaces and the shared page directory are in place |
| `AddressSpaces.SpaceWalk` | sample_old/paging/041/friend.cc:10-28 | the walk of an address space: the first GB to the friend's memory by global 2 MB pages, the application's page at 3 GB, nothing else |
| `AddressSpaces.SpaceByAddress` | sample_old/paging/041/friend.cc:45-48 | the same map by address: offset by 2 GB on the first GB, the application's frame on one page, else a fault |
| `AddressSpaces.SwitchingIsCoherent` | sample_old/paging/041/friend.cc:68-102 | from an empty TLB, after every sequence of fills, evictions and loads of either CR3, every translation the processor can use is that of the space which the last load named |
| `AddressSpaces.EntryReaches` | sample_old/paging/041/friend.cc:65-103 | a jump to 0xC0000000 then reaches 0x80600000 if app2 was loaded last, and 0x80500000 if app1 was |
| `AddressSpaces.SwitchKeepsShared` | sample_old/paging/041/friend.cc:46-47 | the load of CR3 keeps exactly the cached pages of the shared gigabyte, and each is the page that the tables of the space loaded give |
| `TableExtension.ExtensionKeepsMappings` | tutorial/paging/hierarchy/friend.cc:38-53 | any sequence of stores that spares the words of the two initial mappings keeps them, and every translation of the first GB and of the friend region |
| `TableExtension.FillsKeepPages` | tutorial/paging/hierarchy/friend.cc:38-53 | any sequence of stores that each fill an entry not present at that moment keeps every translation there is, of every address |
| `TableExtension.StoresOffPath` | tutorial/paging/mapping/friend.cc:47-73 | stores that spare the words the walk of an address reads keep that walk, page or fault, however often they rewrite others |
| `TableExtension.NewPageHasLastFrame` | tutorial/paging/mapping/friend.cc:47-73 | after any stores that spare the two initial mappings, in whatever order and however often entries are rewritten, a page whose PDPT, PD and PT entries were last stored as links is the frame last stored, writable and open to user mode |
| `TableExtension.HierarchyMaps` | tutorial/paging/hierarchy/friend.cc:36-53 | with two page tables under one page directory both addresses reach the same frame |
| `Mapping.StoreGoes` | tutorial/paging/mapping/friend.cc:47-54 | a store to a table through the mapping reaches that table, whatever the TLB does |
| `Mapping.SetUp` | tutorial/paging/mapping/friend.cc:47-54 | the tables after the first part, with the TLB still in agreement |
| `Mapping.RemapStaleOnlyThere` | tutorial/paging/mapping/friend.cc:60-61 | after the entry of `vaddr1` is rewritten, only translations of its 4 KB page can be stale |
| `Mapping.Remap` | tutorial/paging/mapping/friend.cc:59-61 | the rewritten entry, and a TLB in agreement except for the page of `vaddr1` |
| `Mapping.FlushIsNeeded` | tutorial/paging/mapping/friend.cc:63-64 | before the flush there is a TLB that sends the load to the old frame, though the tables name the new one |
| `Mapping.Flush` | tutorial/paging/mapping/friend.cc:64-64 | after `invlpg` the TLB agrees with the tables |
| `Mapping.MapOthers` | tutorial/paging/mapping/friend.cc:70-73 | the entries of `vaddr2` and `vaddr3`, with the TLB in agreement although nothing is flushed |
| `Mapping.ShowMemdata` | tutorial/paging/mapping/friend.cc:56-56 | a load of a mapped page goes to the frame of the current mapping and gives the word there |
| `Mapping.FriendMain` | tutorial/paging/mapping/friend.cc:38-78 | whatever the TLB does around each instruction, the four loads go to the two frames in the order the sample maps them and give what those held |
| `PageFault.MakeGate` | tutorial/paging/pagefault/friend.cc:51-55 | for every 64-bit address the three words of the gate decode to it, to selector 0x10 and to a present interrupt gate |
| `PageFault.SetupInthandler` | tutorial/paging/pagefault/friend.cc:47-63 | gate 14 leads to the handler and IDTR to the table, for every 64-bit address of either; the other gates are untouched |
| `PageFault.Prepare` | tutorial/paging/pagefault/friend.cc:81-89 | the tables hooked in with `vaddr` not mapped, `pt_entry` its entry, and a TLB that agrees |
| `PageFault.FaultRecovers` | tutorial/paging/pagefault/int.S:9-21 | from every register state and for every behaviour of the TLB, the load completes after exactly one fault with the word at 0x100000000, all registers, rsp, the flags and the segments as before, and no memory changed but the entry and 64 bytes below the stack |
| `PageFault.FaultRepeats` | tutorial/paging/pagefault/int.S:5-7 | with the first handler every run stays in the loop of fault and return; the load never completes |
| `PageFault.HandlerStep` | tutorial/paging/pagefault/int.S:9-20 | what each instruction of the second handler keeps: saved registers, the interrupt frame with its five values, the tables |
| `PageFault.FlushStep` | tutorial/paging/pagefault/int.S:16-17 | right after `invlpg` no translation of 0x80000000 is cached |
| `ElfLoader.VisitsAll` | hakase/elf_loader.h:104-136 | a table at a nonzero offset that ends in the address space is visited from entry 0 to the last; one at offset zero not at all |
| `ElfLoader.CreatePhdr` | hakase/elf_loader.h:111-136 | walking by index gives the visited program headers in order and then the end |
| `ElfLoader.CreateShdr` | hakase/elf_loader.h:104-129 | walking by index gives the visited section headers in order and then the end |
| `ElfFormat.HeaderBytes` | hakase/elf_loader.h:95-102 | which bytes of the header decide whether a file is accepted, and how |
| `ElfFormat.TableBytes` | hakase/elf_loader.h:103-117 | at which offsets of the file the entry point and the two header tables are found |
| `ElfFormat.LoadBytes` | hakase/elf_loader.h:75-84 | a program header is loaded exactly if its first four bytes are 1; its offset and address are the numbers at 8 and 16 |
| `ElfFormat.LoadSizeBytes` | hakase/elf_loader.h:80-80 | its size in the file is the number at 32, and that in memory the one at 40 |
| `ElfFormat.BssBytes` | hakase/elf_loader.h:41-49 | a section is cleared exactly if its bytes 4 to 7 are 8 and bit 1 of its flags is set; its address and size are the numbers at 16 and 32 |
| `ElfFormat.NoBssNoClearing` | hakase/elf_loader.cc:31-44 | a file without a visited section of type 8 has nothing cleared |
| `SectionExample.SectionsCleared` | hakase/elf_loader.cc:15-46 | the bytes of a file with code, cleared data and data not allocated: it deploys, and every byte of memory afterwards is given |
| `ElfLoader.CheckExactly` | hakase/elf_loader.h:23-30 | the check accepts areas inside the friend region, and besides exactly those whose end wraps around to an address not above the region; without wrap-around it accepts exactly the areas inside |
| `ElfLoader.WrappedAreaPasses` | hakase/elf_loader.h:25-25 | an area that is accepted and not inside the region |
| `ElfLoader.CopyLoads` | hakase/elf_loader.cc:15-29 | it fails exactly if a visited PT_LOAD is refused; memory is that after the accepted ones before it |
| `ElfLoader.ClearSections` | hakase/elf_loader.cc:31-44 | it fails exactly if a visited NOBITS section to be allocated is refused; memory is that after the accepted ones before it |
| `ElfLoader.Deploy` | hakase/elf_loader.cc:4-47 | it succeeds exactly when the header and every visited area are accepted; memory on success and on failure; a refused header changes nothing |
| `ElfLoader.DeployFrame` | hakase/elf_loader.cc:15-46 | wherever it stops, nothing outside the friend region has changed, if no area wraps around |
| `ElfLoader.DeployFrameExactly` | hakase/elf_loader.h:23-30 | over every memory nothing outside the region changes if and only if no accepted area wraps around |
| `ElfLoader.DeploysImage` | hakase/elf_loader.cc:15-46 | where the sections clear the tails of disjoint segments and else only zero bytes of the file, memory is the image of the System V ABI and otherwise unchanged |
| `ElfLoader.DeploysImageExactly` | hakase/elf_loader.cc:31-44 | deploying makes that image over every memory if and only if the sections clear that way |
| `TailExample.UnclearedTail` | hakase/elf_loader.cc:31-44 | the bytes of a file that deploys, with one segment whose tail no section covers, and whose image is not made |
| `ElfLoader.ClearedByte` | hakase/elf_loader.h:41-49 | a byte is zero after the second walk if it is in some cleared section, and else unchanged |
| `PhysicalMemory.AlignedStore` | hakase/loader16.cc:45-45 | at aligned addresses storing eight bytes is storing one word, so memory can be seen by words |
| `PhysicalMemory.Ram.Store` | hakase/loader16.cc:45-45 | the bytes after a store, and that the aligned words follow |
| `Paging.EncodeDecode` | hakase/loader16.cc:73-75 | reading a word by its fields loses no bit of the number |
| `Setup.ExportInit` | hakase/hakase.cc:88-94 | the words after all containers, in order, with the bytes in agreement |
| `Setup.ExportedAt` | hakase/hakase.cc:90-93 | a slot holds the pointer of the last container that names it |
| `Setup.Loader16Init` | hakase/loader16.cc:11-53 | it refuses a trampoline larger than a page; else the binary is copied, the entry stored at offset 8 and the tables built, all in the one byte memory |
| `Setup.Setup` | hakase/hakase.cc:97-136 | it succeeds exactly when the binary deploys and the trampoline fits; for a well-formed image the bytes of memory then hold the identity mapping, in every slot its last pointer, in the trampoline its binary with bytes 24 to 31 of the ELF file as entry word, and everywhere else the deployed image |
| `Setup.SetupReady` | hakase/hakase.cc:119-135 | the same of the composed memory: page tables and exports do not disturb the image or each other, byte by byte |
| `Setup.ObjectCleared` | friend/init.cc:10-10 | every byte of an object in a cleared section, such as the offloader, is zero |
| `Setup.FirstCleared` | hakase/hakase.cc:82-83 | what no segment, table or slot takes of the first 4 MB is zero |
| `StraightMap.AcceptedExactly` | FriendLoader/call_interface.c:28-39 | which requests of 64-bit offset and size pass the bounds, for all of them |
| `StraightMap.SaneAccepted` | FriendLoader/call_interface.c:28-39 | for offsets below 2^52 pages and sizes below 2^47, exactly the requests inside the window of 1 GB |
| `StraightMap.SaneReaches` | FriendLoader/call_interface.c:43-48 | those reach the friend region only, each address the byte at its distance from the start |
| `StraightMap.MemdeviceAnswers` | FriendLoader/call_interface.c:27-50 | which of the three answers is given, for all requests, and that a mapping covers exactly the requested addresses |
| `StraightMap.BootmemAnswers` | FriendLoader/call_interface.c:52-70 | the trampoline is mapped exactly for requests from its start and of 0x2000 bytes that can be remapped, and covers exactly those addresses |
| `StraightMap.ReachesRegionExactly` | FriendLoader/call_interface.c:28-48 | an accepted request reaches nothing outside the region if and only if it lies in the window |
| `StraightMap.LargeOffsetWraps` | FriendLoader/call_interface.c:29-29 | an accepted request whose offset wraps around and that does not reach the region |
| `StraightMap.BothReachTheSame` | hakase/hakase.cc:61-78 | at every address of the region hakase's mapping and the friends' walk give the same physical byte |
| `StraightMap.TrampolineReached` | hakase/loader16.cc:32-34 | wherever the process has room, hakase's request for the trampoline is granted and reaches both its pages, byte for byte from 0x70000 on, where the friends' walk reaches them |
| `StartStop.StacksDisjoint` | friend/boot.S:9-25 | in every run of n cores with 0x2000 + 0x4000 (n - 1) below 2^31 the tops are 0x4000 or more apart, each at 0x2000 + 0x4000 k above the end of the binary for its turn k, and the stacks are disjoint and above the binary |
| `StartStop.SignExtensionExactly` | friend/boot.S:20-21 | the sign extension leaves an offset as it is if and only if it is below 2^31 |
| `StartStop.ConstructorsOnce` | friend/init.cc:26-31 | in every run the constructors are run in order by the one core that entered first |
| `StartStop.DestructorsLast` | friend/init.cc:35-35 | no more cores have returned than entered, and a core starts the destructors only when all that entered have returned |
| `StartStop.FlagIsSet` | friend/init.cc:41-42 | whenever all cores that entered have finished, the flag is 1 |
| `StartStop.FlagAfterDestructors` | friend/init.cc:35-42 | the flag is set only after some core has run all destructors, in order, and finished; if they were started once, nothing else was run |
| `StartStop.FlagMeansReturned` | hakase/hakase.cc:159-161 | in every run, whoever had entered when the destructors were first started has returned, then and for good |
| `StartStop.FlagIsTrueExactly` | hakase/hakase.h:8-10 | from the first start of the destructors on, a set flag means in every continuation that all n cores have returned, if and only if all n had entered by then |
| `StartStop.FlagHasFirstPass` | friend/init.cc:35-41 | every run that sets the flag has such a first start, found by a core about to compare |
| `StartStop.DestructorsOnceExactly` | friend/init.cc:35-42 | when all cores have finished, the destructors were started once if and only if no core entered after they were started, and then one core has run them all in order |
| `StartStop.EntriesFirst` | friend/init.cc:25-43 | if all cores enter before the first returns, the destructors are run at most once, exactly once when all have finished, in order and by one core, and a set flag means that all n have returned and the destructors are done |
| `StartStop.LateCore` | hakase/hakase.h:8-10 | a run of two cores with the flag set before the second has started, and the destructors run twice |

## Left out

- Fairness between friends that compete for the lock: the compare-and-swap loop gives none, so only global progress is proved.
- Offloaded blocks that offload again, that touch the offloader, or that touch another friend's frame; interrupts during an offload; floating-point and SSE state.
- A block is a number of instructions fixed by its site, each chosen by the registers; one that ends earlier goes on with instructions that do nothing.
- Overlap of memory words in the offload protocol: its words are separate locations, eight bytes each, and a core's own code touches its own frame only.
- `OffloadProgress.CanAlwaysFinish`: says that offloads can always be finished by some schedule, not that every schedule finishes them.
- PML4 slots other than 0: the code does not initialise them, so TLB agreement and walks are stated for addresses below 512 GB.
- Paging-structure caches, accessed and dirty bits, execute-disable, PAT, PCID and faults for reserved bits.
- Bytes and unaligned accesses in the samples on mapping and page faults: their cores load and store aligned words.
- `PageFault.FaultRecovers`: the stack and the variable `pt_entry` are in a memory separate from the tables and are reached without translation.
- The processor's privilege checks, the interrupt stack table and the resume flag on delivery of a fault.
- `ElfLoader.Deploy`: headers are read from a total function of the file offset, since the code never looks at the length of the file; the file does not overlap the target memory; an area that wraps around is taken to run on past 2^64.
- The product of entry size and index that exceeds 31 bits, undefined in the source, is modelled as two's complement.
- `Setup.Setup`: starts after `check_version`, `check_bootparam` and the mapping of the memory have succeeded; opening and mapping of device files is not modelled.  Linker addresses are parameters.
- Counters of `friend_init` are unbounded; they would wrap only after 2^31 cores.
- What constructors, destructors and `friend_main` do; cores other than the first do not wait for the constructors.
- Switching from real mode to long mode in hakase/friend_boot16.S: only its entry word at offset 8 and the address of its PML4 are used.
- The kernel module except the arithmetic of its two mapping functions; a failing `remap_pfn_range` is a parameter.
- tutorial/paging/copy_on_write touches addresses it never maps, and the other examples under sample_old/paging, tutorial_template and hakase/deprecated would only add easy members.
