/** The disk drivers and the set-up of the backing store: command words to the device, blocks
    through DMA buffers in memory, word by word (phase4/devSupport.c, phase3/vmSupport.c,
    phase3/initProc.c). Device operations on sectors of the disk succeed. */
module Disks {
  import opened DiskGeometry

  const BLOCK_WORDS: nat := 1024

  type Blocks = map<Chs, seq<int>>

  datatype Status = Ready | DeviceError | Trapped

  ghost predicate Complete(g: Geometry, blocks: Blocks) {
    forall t :: InRange(g, t) ==> t in blocks && |blocks[t]| == BLOCK_WORDS
  }

  /** Memory `m` with `block` written at address `at`. */
  function Pasted(m: seq<int>, at: nat, block: seq<int>): (r: seq<int>)
    requires at + |block| <= |m|
    ensures |r| == |m| && r[at..at + |block|] == block
    ensures forall i :: 0 <= i < |m| && (i < at || at + |block| <= i) ==> r[i] == m[i]
  {
    m[..at] + block + m[at + |block|..]
  }

  /** Address `i` is outside the block at `at`. */
  predicate Beside(at: nat, i: int) { i < at || at + BLOCK_WORDS <= i }

  predicate Apart(a: nat, b: nat) { a + BLOCK_WORDS <= b || b + BLOCK_WORDS <= a }

  /** helper_copy_block */
  method CopyBlock(ram: array<int>, src: nat, dst: nat)
    requires src + BLOCK_WORDS <= ram.Length && dst + BLOCK_WORDS <= ram.Length && Apart(src, dst)
    modifies ram
    ensures ram[..] == Pasted(old(ram[..]), dst, old(ram[src..src + BLOCK_WORDS]))
  {
    for i := 0 to BLOCK_WORDS
      invariant forall j :: dst <= j < dst + i ==> ram[j] == old(ram[src..src + BLOCK_WORDS])[j - dst]
      invariant forall j :: 0 <= j < ram.Length && (j < dst || dst + i <= j) ==> ram[j] == old(ram[j])
    {
      ram[dst + i] := ram[src + i];
    }
  }

  class Disk {
    const geometry: Geometry
    var arm: int
    var blocks: Blocks

    ghost predicate Valid()
      reads this
    {
      Reportable(geometry) && Complete(geometry, blocks) && 0 <= arm < geometry.cylinders
    }

    constructor (g: Geometry, content: Blocks)
      requires Reportable(g) && Complete(g, content)
      ensures Valid() && geometry == g && blocks == content
    {
      geometry, arm, blocks := g, 0, content;
    }

    /** The device moves its arm to the cylinder named in the command word. */
    method Seek(word: int) returns (st: Status)
      requires Valid() && CommandOf(word) == SEEK
      modifies this`arm
      ensures Valid()
      ensures if CylinderOf(word) < geometry.cylinders then st == Ready && arm == CylinderOf(word)
              else st == DeviceError && arm == old(arm)
    {
      if CylinderOf(word) < geometry.cylinders {
        arm := CylinderOf(word);
        return Ready;
      }
      return DeviceError;
    }

    /** The device transfers one block between memory and the track under its arm. */
    method Transfer(word: int, ram: array<int>, at: nat) returns (st: Status)
      requires Valid() && CommandOf(word) in {READ, WRITE} && at + BLOCK_WORDS <= ram.Length
      modifies this`blocks, ram
      ensures Valid()
      ensures st == if InRange(geometry, Chs(arm, HeadOf(word), SectorOf(word))) then Ready else DeviceError
      ensures var t := Chs(arm, HeadOf(word), SectorOf(word));
              if st == Ready && CommandOf(word) == WRITE
              then blocks == old(blocks)[t := old(ram[at..at + BLOCK_WORDS])] && ram[..] == old(ram[..])
              else if st == Ready
              then blocks == old(blocks) && ram[..] == Pasted(old(ram[..]), at, old(blocks)[t])
              else blocks == old(blocks) && ram[..] == old(ram[..])
    {
      var t := Chs(arm, HeadOf(word), SectorOf(word));
      if HeadOf(word) >= geometry.heads || SectorOf(word) >= geometry.sectors {
        return DeviceError;
      }
      if CommandOf(word) == WRITE {
        blocks := blocks[t := ram[at..at + BLOCK_WORDS]];
      } else {
        var block := blocks[t];
        forall i | 0 <= i < BLOCK_WORDS { ram[at + i] := block[i]; }
        assert ram[..] == Pasted(old(ram[..]), at, block);
      }
      return Ready;
    }

    /** Seek, then transfer: the two commands together reach the triple the disk finds in them,
        or nothing happens. */
    method Access(t: Chs, command: int, ram: array<int>, at: nat) returns (st: Status)
      requires Valid() && at + BLOCK_WORDS <= ram.Length && command in {READ, WRITE}
      modifies this`arm, this`blocks, ram
      ensures Valid() && st == (if InRange(geometry, Received(t, command)) then Ready else DeviceError)
      ensures st == DeviceError ==> blocks == old(blocks) && ram[..] == old(ram[..])
      ensures st == Ready && command == WRITE ==>
                blocks == old(blocks)[Received(t, command) := old(ram[at..at + BLOCK_WORDS])] && ram[..] == old(ram[..])
      ensures st == Ready && command == READ ==>
                blocks == old(blocks) && ram[..] == Pasted(old(ram[..]), at, old(blocks)[Received(t, command)])
    {
      CommandsDecode(t, command);
      st := Seek(SeekWord(t));
      if st == Ready {
        st := Transfer(TransferWord(t, command), ram, at);
      }
    }

    /** write_to_disk_for_pager and read_from_disk_for_pager: a page frame and sector `n`.
        A sector number equal to the capacity is accepted and refused by the device. */
    method PagerAccess(n: int, command: int, ram: array<int>, at: nat) returns (st: Status)
      requires Valid() && at + BLOCK_WORDS <= ram.Length && command in {READ, WRITE}
      modifies this`arm, this`blocks, ram
      ensures Valid()
      ensures st == if n > geometry.Capacity() then Trapped
                    else if InRange(geometry, Received(PagerChs(geometry, n), command)) then Ready else DeviceError
      ensures 0 <= n < geometry.Capacity() ==>
                st == Ready && Received(PagerChs(geometry, n), command) == PagerChs(geometry, n)
      ensures n == geometry.Capacity() ==> st == DeviceError
      ensures st != Ready ==> blocks == old(blocks) && ram[..] == old(ram[..])
      ensures st == Ready && command == WRITE ==>
                blocks == old(blocks)[Received(PagerChs(geometry, n), command) := old(ram[at..at + BLOCK_WORDS])]
                && ram[..] == old(ram[..])
      ensures st == Ready && command == READ ==>
                blocks == old(blocks)
                && ram[..] == Pasted(old(ram[..]), at, old(blocks)[Received(PagerChs(geometry, n), command)])
    {
      if !Accepted(geometry, n) {
        return Trapped;
      }
      PagerReaches(geometry, n, command);
      st := Access(PagerChs(geometry, n), command, ram, at);
    }

    /** WRITE_TO_DISK, for any sector number the signed register can hold: the block at `src`
        goes out through the DMA buffer to the triple that the disk finds in the two words. For
        a number from 0 to below the capacity that is the addressed one. */
    method UserWrite(n: int, ram: array<int>, src: nat, buffer: nat) returns (st: Status)
      requires Valid() && src + BLOCK_WORDS <= ram.Length && buffer + BLOCK_WORDS <= ram.Length && Apart(src, buffer)
      modifies this`arm, this`blocks, ram
      ensures Valid()
      ensures st == if n > geometry.Capacity() then Trapped
                    else if InRange(geometry, Received(UserChs(geometry, n), WRITE)) then Ready else DeviceError
      ensures 0 <= n < geometry.Capacity() ==>
                st == Ready && Received(UserChs(geometry, n), WRITE) == UserChs(geometry, n)
      ensures n == geometry.Capacity() ==> st == Ready && Received(UserChs(geometry, n), WRITE) == UserChs(geometry, 0)
      ensures st == Ready ==>
                blocks == old(blocks)[Received(UserChs(geometry, n), WRITE) := old(ram[src..src + BLOCK_WORDS])]
      ensures st != Ready ==> blocks == old(blocks)
      ensures ram[..] ==
              if st == Trapped || Received(UserChs(geometry, n), WRITE).cylinder >= geometry.cylinders then old(ram[..])
              else Pasted(old(ram[..]), buffer, old(ram[src..src + BLOCK_WORDS]))
    {
      if !Accepted(geometry, n) {
        return Trapped;
      }
      var t := UserChs(geometry, n);
      UserReaches(geometry, n, WRITE);
      CommandsDecode(t, WRITE);
      st := Seek(SeekWord(t));
      if st != Ready {
        return;
      }
      CopyBlock(ram, src, buffer);
      assert ram[buffer..buffer + BLOCK_WORDS] == ram[..][buffer..buffer + BLOCK_WORDS];
      st := Transfer(TransferWord(t, WRITE), ram, buffer);
    }

    /** READ_FROM_DISK, likewise. When the transfer fails, the user's block is overwritten with
        what the DMA buffer held. */
    method UserRead(n: int, ram: array<int>, dst: nat, buffer: nat) returns (st: Status)
      requires Valid() && dst + BLOCK_WORDS <= ram.Length && buffer + BLOCK_WORDS <= ram.Length && Apart(dst, buffer)
      modifies this`arm, this`blocks, ram
      ensures Valid() && blocks == old(blocks)
      ensures st == if n > geometry.Capacity() then Trapped
                    else if InRange(geometry, Received(UserChs(geometry, n), READ)) then Ready else DeviceError
      ensures 0 <= n < geometry.Capacity() ==>
                st == Ready && Received(UserChs(geometry, n), READ) == UserChs(geometry, n)
      ensures n == geometry.Capacity() ==> st == Ready && Received(UserChs(geometry, n), READ) == UserChs(geometry, 0)
      ensures st == Ready ==>
                var block := blocks[Received(UserChs(geometry, n), READ)];
                ram[dst..dst + BLOCK_WORDS] == block && ram[buffer..buffer + BLOCK_WORDS] == block
      ensures st == DeviceError && Received(UserChs(geometry, n), READ).cylinder < geometry.cylinders ==>
                ram[..] == Pasted(old(ram[..]), dst, old(ram[buffer..buffer + BLOCK_WORDS]))
      ensures st == Trapped || Received(UserChs(geometry, n), READ).cylinder >= geometry.cylinders ==>
                ram[..] == old(ram[..])
      ensures forall i :: 0 <= i < ram.Length && Beside(buffer, i) && Beside(dst, i) ==> ram[i] == old(ram[i])
    {
      if !Accepted(geometry, n) {
        return Trapped;
      }
      var t := UserChs(geometry, n);
      UserReaches(geometry, n, READ);
      CommandsDecode(t, READ);
      st := Seek(SeekWord(t));
      if st != Ready {
        return;
      }
      ghost var before := ram[..];
      st := Transfer(TransferWord(t, READ), ram, buffer);
      ghost var block := if st == Ready then blocks[Received(t, READ)] else before[buffer..buffer + BLOCK_WORDS];
      PastedBack(before, buffer, block);
      CopyBlock(ram, buffer, dst);
      PastedTwice(before, buffer, dst, block, ram[..]);
    }
  }

  lemma PastedBack(m: seq<int>, at: nat, block: seq<int>)
    requires at + |block| <= |m|
    ensures m[at..at + |block|] == block ==> Pasted(m, at, block) == m
  {
  }

  /** A block goes into the buffer, and from there to its destination. */
  lemma PastedTwice(m: seq<int>, buffer: nat, dst: nat, block: seq<int>, r: seq<int>)
    requires |block| == BLOCK_WORDS && buffer + BLOCK_WORDS <= |m| && dst + BLOCK_WORDS <= |m|
    requires r == Pasted(Pasted(m, buffer, block), dst, block)
    ensures r[dst..dst + BLOCK_WORDS] == block
    ensures Apart(dst, buffer) ==> r[buffer..buffer + BLOCK_WORDS] == block
    ensures forall i :: 0 <= i < |m| && Beside(buffer, i) && Beside(dst, i) ==> r[i] == m[i]
  {
  }

  /** Where a user's sector number leads: a number the user may mean reaches its own place, the
      capacity reaches sector 0. */
  lemma UserReaches(g: Geometry, n: int, command: int)
    requires Reportable(g) && 0 <= command < 0x100
    ensures 0 <= n < g.Capacity() ==> InRange(g, UserChs(g, n)) && Received(UserChs(g, n), command) == UserChs(g, n)
    ensures n == g.Capacity() ==> InRange(g, UserChs(g, 0)) && Received(UserChs(g, n), command) == UserChs(g, 0)
  {
    if 0 <= n < g.Capacity() {
      UserDecompose(g, n);
      WordsDecode(g, UserChs(g, n), command);
    } else if n == g.Capacity() {
      CapacityItself(g);
      ZeroInRange(g);
      WordsDecode(g, UserChs(g, 0), command);
    }
  }

  lemma ZeroInRange(g: Geometry)
    ensures InRange(g, UserChs(g, 0))
  {
    ProductPositive(g.cylinders, g.heads);
    ProductPositive(g.cylinders * g.heads, g.sectors);
    UserDecompose(g, 0);
  }

  lemma PagerReaches(g: Geometry, n: int, command: int)
    requires Reportable(g) && 0 <= command < 0x100
    ensures 0 <= n < g.Capacity() ==> InRange(g, PagerChs(g, n)) && Received(PagerChs(g, n), command) == PagerChs(g, n)
    ensures n == g.Capacity() ==> !InRange(g, Received(PagerChs(g, n), command))
  {
    if 0 <= n < g.Capacity() {
      PagerDecompose(g, n);
      WordsDecode(g, PagerChs(g, n), command);
    } else if n == g.Capacity() {
      CapacityItself(g);
      WordsDecode(g, PagerChs(g, n), command);
    }
  }

  /** What is written to a sector is read back from it, and from no other sector. */
  lemma SectorsAreIndependent(g: Geometry, blocks: Blocks, m: int, block: seq<int>, n: int)
    requires Complete(g, blocks) && 0 <= m < g.Capacity() && 0 <= n < g.Capacity()
    ensures InRange(g, UserChs(g, n)) && InRange(g, PagerChs(g, n))
    ensures blocks[UserChs(g, m) := block][UserChs(g, n)] == if n == m then block else blocks[UserChs(g, n)]
    ensures blocks[PagerChs(g, m) := block][PagerChs(g, n)] == if n == m then block else blocks[PagerChs(g, n)]
  {
    UserDecompose(g, n);
    PagerDecompose(g, n);
    if m != n { Injective(g, m, n); }
  }

  // ---- the backing store

  const PAGES := 32

  function DiskBuffer(device: nat): nat { device * BLOCK_WORDS }

  function FlashBuffer(device: nat): nat { (8 + device) * BLOCK_WORDS }

  type FlashDevices = seq<seq<seq<int>>>

  ghost predicate Flashes(flash: FlashDevices) {
    forall d :: 0 <= d < |flash| ==> FlashDevice(flash[d])
  }

  ghost predicate FlashDevice(device: seq<seq<int>>) {
    |device| == PAGES && forall k :: 0 <= k < PAGES ==> |device[k]| == BLOCK_WORDS
  }

  /** What the set-up leaves in sector `n`: every device but the first is copied into a
      buffer of its own, but the disk always takes the buffer of device 0. */
  function Image(flash: FlashDevices, n: nat): seq<int>
    requires flash != [] && |flash[0]| == PAGES
  {
    if n < PAGES then flash[0][n] else flash[0][PAGES - 1]
  }

  method ReadFlash(device: seq<seq<int>>, k: nat, ram: array<int>, at: nat)
    requires FlashDevice(device) && k < PAGES && at + BLOCK_WORDS <= ram.Length
    modifies ram
    ensures ram[..] == Pasted(old(ram[..]), at, device[k])
  {
    forall i | 0 <= i < BLOCK_WORDS { ram[at + i] := device[k][i]; }
    assert ram[..] == Pasted(old(ram[..]), at, device[k]);
  }

  lemma PastedElsewhere(m: seq<int>, at: nat, block: seq<int>, other: nat)
    requires |block| == BLOCK_WORDS && at + BLOCK_WORDS <= |m| && other + BLOCK_WORDS <= |m| && Apart(at, other)
    ensures Pasted(m, at, block)[other..other + BLOCK_WORDS] == m[other..other + BLOCK_WORDS]
  {
  }

  /** Block `k` of device `d` goes through the flash buffer to the disk buffer of that device. */
  method FillBuffers(flash: FlashDevices, d: nat, k: nat, ram: array<int>)
    requires Flashes(flash) && d < |flash| <= 8 && k < PAGES && ram.Length >= 16 * BLOCK_WORDS
    requires d > 0 ==> ram[..BLOCK_WORDS] == flash[0][PAGES - 1]
    modifies ram
    ensures ram[..BLOCK_WORDS] == Image(flash, PAGES * d + k)
    ensures ram[..] == Pasted(Pasted(old(ram[..]), FlashBuffer(d), flash[d][k]), DiskBuffer(d), flash[d][k])
  {
    ReadFlash(flash[d], k, ram, FlashBuffer(d));
    ghost var read := ram[..];
    PastedElsewhere(old(ram[..]), FlashBuffer(d), flash[d][k], 0);
    CopyBlock(ram, FlashBuffer(d), DiskBuffer(d));
    ghost var copied := ram[..];
    assert read[FlashBuffer(d)..FlashBuffer(d) + BLOCK_WORDS] == flash[d][k];
    if d > 0 {
      PastedElsewhere(read, DiskBuffer(d), flash[d][k], 0);
      assert copied[..BLOCK_WORDS] == flash[0][PAGES - 1];
    } else {
      assert copied[..BLOCK_WORDS] == flash[0][k];
    }
  }

  /** One round of the nested loops: block `k` of device `d` on its way to sector 32*d + k. */
  method StorePage(disk: Disk, flash: FlashDevices, d: nat, k: nat, ram: array<int>)
    requires disk.Valid() && Flashes(flash) && d < |flash| <= 8 && k < PAGES
    requires PAGES * |flash| <= disk.geometry.Capacity() && ram.Length >= 16 * BLOCK_WORDS
    requires d > 0 ==> ram[..BLOCK_WORDS] == flash[0][PAGES - 1]
    modifies disk`arm, disk`blocks, ram
    ensures disk.Valid()
    ensures disk.blocks == old(disk.blocks)[PagerChs(disk.geometry, PAGES * d + k) := Image(flash, PAGES * d + k)]
    ensures ram[..BLOCK_WORDS] == Image(flash, PAGES * d + k)
    ensures ram[..] == Pasted(Pasted(old(ram[..]), FlashBuffer(d), flash[d][k]), DiskBuffer(d), flash[d][k])
  {
    FillBuffers(flash, d, k, ram);
    WriteSector(disk, PAGES * d + k, ram);
  }

  /** helper_write_disk: the block in the buffer of disk 0 goes to sector `n`. */
  method WriteSector(disk: Disk, n: nat, ram: array<int>)
    requires disk.Valid() && n < disk.geometry.Capacity() && ram.Length >= 16 * BLOCK_WORDS
    modifies disk`arm, disk`blocks, ram
    ensures disk.Valid() && ram[..] == old(ram[..]) && ram[..BLOCK_WORDS] == old(ram[..BLOCK_WORDS])
    ensures disk.blocks == old(disk.blocks)[PagerChs(disk.geometry, n) := old(ram[..BLOCK_WORDS])]
  {
    assert ram[..BLOCK_WORDS] == ram[DiskBuffer(0)..DiskBuffer(0) + BLOCK_WORDS] == ram[..][..BLOCK_WORDS];
    var _ := disk.PagerAccess(n, WRITE, ram, DiskBuffer(0));
    assert ram[..BLOCK_WORDS] == ram[..][..BLOCK_WORDS];
  }

  /** set_up_backing_store */
  method SetUpBackingStore(disk: Disk, flash: FlashDevices, ram: array<int>)
    requires disk.Valid() && Flashes(flash) && |flash| <= 8
    requires PAGES * |flash| <= disk.geometry.Capacity() && ram.Length >= 16 * BLOCK_WORDS
    modifies disk`arm, disk`blocks, ram
    ensures disk.Valid()
    ensures forall n: nat :: n < PAGES * |flash| ==>
              && InRange(disk.geometry, PagerChs(disk.geometry, n))
              && disk.blocks[PagerChs(disk.geometry, n)] == Image(flash, n)
    ensures forall n: nat :: PAGES * |flash| <= n < disk.geometry.Capacity() ==>
              InRange(disk.geometry, PagerChs(disk.geometry, n))
              && disk.blocks[PagerChs(disk.geometry, n)] == old(disk.blocks)[PagerChs(disk.geometry, n)]
  {
    ghost var before := disk.blocks;
    StoredNothing(disk.geometry, flash, before);
    for d := 0 to |flash|
      invariant disk.Valid() && Stored(disk.geometry, flash, before, PAGES * d, disk.blocks)
      invariant d > 0 ==> ram[..BLOCK_WORDS] == flash[0][PAGES - 1]
    {
      for k := 0 to PAGES
        invariant disk.Valid() && Stored(disk.geometry, flash, before, PAGES * d + k, disk.blocks)
        invariant d > 0 ==> ram[..BLOCK_WORDS] == flash[0][PAGES - 1]
        invariant d == 0 && k == PAGES ==> ram[..BLOCK_WORDS] == flash[0][PAGES - 1]
      {
        ghost var was := disk.blocks;
        StorePage(disk, flash, d, k, ram);
        StoredNext(disk.geometry, flash, before, PAGES * d + k, was, disk.blocks);
      }
    }
    forall n: nat | n < disk.geometry.Capacity() ensures InRange(disk.geometry, PagerChs(disk.geometry, n)) {
      PagerDecompose(disk.geometry, n);
    }
    StoredSectors(disk.geometry, flash, before, PAGES * |flash|, disk.blocks);
  }

  /** The first `done` sectors hold the image, the others what they held before. */
  ghost predicate Stored(g: Geometry, flash: FlashDevices, before: Blocks, done: nat, blocks: Blocks) {
    && Complete(g, before) && Complete(g, blocks)
    && (flash != [] ==> |flash[0]| == PAGES)
    && done <= PAGES * |flash| <= g.Capacity()
    && (forall n: nat :: n < g.Capacity() ==> HoldsSector(g, flash, before, done, blocks, n))
  }

  ghost predicate HoldsSector(g: Geometry, flash: FlashDevices, before: Blocks, done: nat, blocks: Blocks, n: nat)
    requires done <= PAGES * |flash| && (flash != [] ==> |flash[0]| == PAGES)
  {
    && PagerChs(g, n) in blocks && PagerChs(g, n) in before
    && blocks[PagerChs(g, n)] == if n < done then Image(flash, n) else before[PagerChs(g, n)]
  }

  lemma StoredNothing(g: Geometry, flash: FlashDevices, before: Blocks)
    requires Complete(g, before) && Flashes(flash) && PAGES * |flash| <= g.Capacity()
    ensures Stored(g, flash, before, 0, before)
  {
    forall n: nat | n < g.Capacity() ensures HoldsSector(g, flash, before, 0, before, n) {
      PagerDecompose(g, n);
    }
  }

  lemma StoredNext(g: Geometry, flash: FlashDevices, before: Blocks, done: nat, was: Blocks, blocks: Blocks)
    requires Stored(g, flash, before, done, was) && done < PAGES * |flash| && Complete(g, blocks)
    requires blocks == was[PagerChs(g, done) := Image(flash, done)]
    ensures Stored(g, flash, before, done + 1, blocks)
  {
    var next := done + 1;
    forall n: nat | n < g.Capacity() ensures HoldsSector(g, flash, before, next, blocks, n) {
      assert HoldsSector(g, flash, before, done, was, n);
      if n != done { Injective(g, n, done); }
    }
  }

  lemma StoredSectors(g: Geometry, flash: FlashDevices, before: Blocks, done: nat, blocks: Blocks)
    requires Stored(g, flash, before, done, blocks)
    ensures forall n: nat :: n < g.Capacity() ==> PagerChs(g, n) in blocks && PagerChs(g, n) in before
    ensures forall n: nat :: n < g.Capacity() ==>
              blocks[PagerChs(g, n)] == if n < done then Image(flash, n) else before[PagerChs(g, n)]
  {
    forall n: nat | n < g.Capacity()
      ensures PagerChs(g, n) in blocks && PagerChs(g, n) in before
      ensures blocks[PagerChs(g, n)] == if n < done then Image(flash, n) else before[PagerChs(g, n)]
    {
      assert HoldsSector(g, flash, before, done, blocks, n);
    }
  }

  /** The promise of the set-up: sector 32*d + k holds block k of device d. */
  ghost predicate Faithful(flash: FlashDevices)
    requires Flashes(flash)
  {
    forall d: nat, k: nat :: d < |flash| && k < PAGES ==> Image(flash, PAGES * d + k) == flash[d][k]
  }

  /** It is kept exactly when every later device holds nothing but the last block of the first. */
  lemma FaithfulIff(flash: FlashDevices)
    requires Flashes(flash)
    ensures Faithful(flash) <==>
            forall d: nat, k: nat :: 0 < d < |flash| && k < PAGES ==> flash[d][k] == flash[0][PAGES - 1]
  {
    if Faithful(flash) {
      forall d: nat, k: nat | 0 < d < |flash| && k < PAGES ensures flash[d][k] == flash[0][PAGES - 1] {
        assert Image(flash, PAGES * d + k) == flash[d][k];
      }
    }
  }

  /** With two devices it can fail. */
  lemma TwoDevicesFail() returns (flash: FlashDevices)
    ensures |flash| == 2 && Flashes(flash) && !Faithful(flash)
  {
    var zeros, ones := seq(BLOCK_WORDS, i => 0), seq(BLOCK_WORDS, i => 1);
    flash := [seq(PAGES, i => zeros), seq(PAGES, i => ones)];
    assert zeros[0] != ones[0];
    FaithfulIff(flash);
    assert flash[1][0] != flash[0][PAGES - 1];
  }

  /** So a number of processes is safe, whatever their flash devices hold, exactly when it is
      at most one. */
  lemma SafeNumberOfProcesses(count: nat)
    ensures count <= 1 <==> forall flash: FlashDevices :: Flashes(flash) && |flash| == count ==> Faithful(flash)
  {
    if count <= 1 {
      forall flash: FlashDevices | Flashes(flash) && |flash| == count ensures Faithful(flash) {
        FaithfulIff(flash);
      }
    } else {
      var two := TwoDevicesFail();
      var flash := two + seq(count - 2, i => two[1]);
      assert Flashes(flash);
      FaithfulIff(two);
      FaithfulIff(flash);
      var d: nat, k: nat :| 0 < d < |two| && k < PAGES && two[d][k] != two[0][PAGES - 1];
      assert flash[d][k] != flash[0][PAGES - 1];
    }
  }
}
