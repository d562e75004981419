/** From linear sector numbers to cylinder, head and sector, in the two orders the code uses:
    user requests (phase4/devSupport.c) walk a whole surface first, the pager and the
    set-up of the backing store (phase3/vmSupport.c, phase3/initProc.c) a whole cylinder. */
module DiskGeometry {

  type Dimension = n: int | 0 < n witness 1

  datatype Geometry = Geometry(cylinders: Dimension, heads: Dimension, sectors: Dimension) {
    function Capacity(): int { cylinders * heads * sectors }
  }

  datatype Chs = Chs(cylinder: int, head: int, sector: int)

  predicate InRange(g: Geometry, t: Chs) {
    0 <= t.cylinder < g.cylinders && 0 <= t.head < g.heads && 0 <= t.sector < g.sectors
  }

  /** Division of C: it truncates toward zero. */
  function Quot(n: int, d: Dimension): int { if n >= 0 then n / d else -((-n) / d) }

  function Rem(n: int, d: Dimension): int { n - Quot(n, d) * d }

  /** The guard of both drivers; one sector too many passes it. */
  predicate Accepted(g: Geometry, n: int) { n <= g.Capacity() }

  function Product(a: Dimension, b: Dimension): Dimension {
    ProductPositive(a, b);
    a * b
  }

  lemma ProductPositive(a: int, b: int)
    requires a > 0 && b > 0
    ensures a * b > 0
  {
  }

  function UserChs(g: Geometry, n: int): Chs {
    Chs(Rem(Quot(n, g.sectors), g.cylinders),
        Rem(Quot(n, Product(g.sectors, g.cylinders)), g.heads),
        Rem(n, g.sectors))
  }

  function PagerChs(g: Geometry, n: int): Chs {
    var inCylinder := Rem(n, Product(g.heads, g.sectors));
    Chs(Quot(n, Product(g.heads, g.sectors)), Quot(inCylinder, g.sectors), Rem(inCylinder, g.sectors))
  }

  /** The sector a user request means by a triple. */
  function UserSector(g: Geometry, t: Chs): int { (t.head * g.cylinders + t.cylinder) * g.sectors + t.sector }

  function PagerSector(g: Geometry, t: Chs): int { (t.cylinder * g.heads + t.head) * g.sectors + t.sector }

  // ---- arithmetic

  lemma DivisionIsUnique(n: int, d: Dimension, q: int, r: int)
    requires n == q * d + r && 0 <= r < d && n >= 0
    ensures Quot(n, d) == q && Rem(n, d) == r
  {
    var x := n / d - q;
    assert n == (n / d) * d + n % d;
    assert x * d == r - n % d by { assert x * d == (n / d) * d - q * d; }
    assert x >= 1 ==> x * d >= d by { Scale(1, x, d); }
    assert x <= -1 ==> x * d <= -1 * d by { Scale(x, -1, d); }
  }

  lemma Scale(x: int, y: int, d: int)
    requires d >= 0
    ensures x <= y ==> x * d <= y * d
  {
    if x <= y { assert (y - x) * d >= 0; }
  }

  lemma Compose(a: int, b: int, m: int, n: int)
    requires 0 <= a < m && 0 <= b < n
    ensures 0 <= a * n + b < m * n
  {
    Scale(0, a, n);
    Scale(a, m - 1, n);
  }

  /** A triple in range is a sector below the capacity, and every such sector is one triple. */
  lemma Recompose(g: Geometry, t: Chs)
    requires InRange(g, t)
    ensures 0 <= UserSector(g, t) < g.Capacity() && UserChs(g, UserSector(g, t)) == t
    ensures 0 <= PagerSector(g, t) < g.Capacity() && PagerChs(g, PagerSector(g, t)) == t
  {
    UserRecompose(g, t);
    PagerRecompose(g, t);
  }

  lemma UserRecompose(g: Geometry, t: Chs)
    requires InRange(g, t)
    ensures 0 <= UserSector(g, t) < g.Capacity() && UserChs(g, UserSector(g, t)) == t
  {
    var track, n := t.head * g.cylinders + t.cylinder, UserSector(g, t);
    Compose(t.head, t.cylinder, g.heads, g.cylinders);
    Compose(track, t.sector, g.heads * g.cylinders, g.sectors);
    assert g.Capacity() == g.heads * g.cylinders * g.sectors;
    DivisionIsUnique(n, g.sectors, track, t.sector);
    DivisionIsUnique(track, g.cylinders, t.head, t.cylinder);
    var rest := t.cylinder * g.sectors + t.sector;
    Compose(t.cylinder, t.sector, g.cylinders, g.sectors);
    assert n == t.head * Product(g.sectors, g.cylinders) + rest by {
      assert t.head * g.cylinders * g.sectors == t.head * (g.sectors * g.cylinders);
    }
    DivisionIsUnique(n, Product(g.sectors, g.cylinders), t.head, rest);
    DivisionIsUnique(t.head, g.heads, 0, t.head);
  }

  lemma PagerRecompose(g: Geometry, t: Chs)
    requires InRange(g, t)
    ensures 0 <= PagerSector(g, t) < g.Capacity() && PagerChs(g, PagerSector(g, t)) == t
  {
    var track, n := t.cylinder * g.heads + t.head, PagerSector(g, t);
    Compose(t.cylinder, t.head, g.cylinders, g.heads);
    Compose(track, t.sector, g.cylinders * g.heads, g.sectors);
    var rest := t.head * g.sectors + t.sector;
    Compose(t.head, t.sector, g.heads, g.sectors);
    assert n == t.cylinder * Product(g.heads, g.sectors) + rest by {
      assert t.cylinder * g.heads * g.sectors == t.cylinder * (g.heads * g.sectors);
    }
    DivisionIsUnique(n, Product(g.heads, g.sectors), t.cylinder, rest);
    DivisionIsUnique(rest, g.sectors, t.head, t.sector);
  }

  lemma QuotBelow(n: int, d: Dimension, m: int)
    requires 0 <= n < m * d
    ensures 0 <= Quot(n, d) < m && 0 <= Rem(n, d) < d && n == Quot(n, d) * d + Rem(n, d)
  {
    var q := n / d;
    assert q >= m ==> q * d >= m * d by { Scale(m, q, d); }
  }

  lemma UserDecompose(g: Geometry, n: int)
    requires 0 <= n < g.Capacity()
    ensures InRange(g, UserChs(g, n)) && UserSector(g, UserChs(g, n)) == n
  {
    assert g.Capacity() == (g.heads * g.cylinders) * g.sectors;
    QuotBelow(n, g.sectors, g.heads * g.cylinders);
    QuotBelow(Quot(n, g.sectors), g.cylinders, g.heads);
    UserRecompose(g, Chs(Rem(Quot(n, g.sectors), g.cylinders), Quot(Quot(n, g.sectors), g.cylinders),
                         Rem(n, g.sectors)));
  }

  lemma PagerDecompose(g: Geometry, n: int)
    requires 0 <= n < g.Capacity()
    ensures InRange(g, PagerChs(g, n)) && PagerSector(g, PagerChs(g, n)) == n
  {
    assert g.Capacity() == (g.cylinders * g.heads) * g.sectors;
    QuotBelow(n, g.sectors, g.cylinders * g.heads);
    QuotBelow(Quot(n, g.sectors), g.heads, g.cylinders);
    PagerRecompose(g, Chs(Quot(Quot(n, g.sectors), g.heads), Rem(Quot(n, g.sectors), g.heads), Rem(n, g.sectors)));
  }

  // ---- the order of the sectors

  /** User requests walk along a track, then over the cylinders of a surface, then to the next. */
  lemma UserWalks(g: Geometry, n: int)
    requires 0 <= n && n + 1 < g.Capacity()
    ensures UserChs(g, 0) == Chs(0, 0, 0)
    ensures var (c, h, s) := (UserChs(g, n).cylinder, UserChs(g, n).head, UserChs(g, n).sector);
            UserChs(g, n + 1) == if s + 1 < g.sectors then Chs(c, h, s + 1)
                                 else if c + 1 < g.cylinders then Chs(c + 1, h, 0)
                                 else Chs(0, h + 1, 0)
  {
    UserRecompose(g, Chs(0, 0, 0));
    UserDecompose(g, n);
    var t := UserChs(g, n);
    if t.sector + 1 < g.sectors {
      UserRecompose(g, Chs(t.cylinder, t.head, t.sector + 1));
    } else if t.cylinder + 1 < g.cylinders {
      UserNextTrack(g, t);
      UserRecompose(g, Chs(t.cylinder + 1, t.head, 0));
    } else {
      UserNextSurface(g, t);
      UserRecompose(g, Chs(0, t.head + 1, 0));
    }
  }

  lemma UserNextTrack(g: Geometry, t: Chs)
    ensures UserSector(g, Chs(t.cylinder + 1, t.head, 0)) == UserSector(g, Chs(t.cylinder, t.head, g.sectors - 1)) + 1
  {
  }

  lemma UserNextSurface(g: Geometry, t: Chs)
    requires InRange(g, t) && t.cylinder == g.cylinders - 1 && t.sector == g.sectors - 1
    requires UserSector(g, t) + 1 < g.Capacity()
    ensures t.head + 1 < g.heads && UserSector(g, Chs(0, t.head + 1, 0)) == UserSector(g, t) + 1
  {
    var surface := Product(g.cylinders, g.sectors);
    assert UserSector(g, t) + 1 == (t.head + 1) * surface && g.Capacity() == g.heads * surface;
    if t.head + 1 >= g.heads { Scale(g.heads, t.head + 1, surface); }
  }

  /** The pager walks along a track, then over the heads of a cylinder, then to the next. */
  lemma PagerWalks(g: Geometry, n: int)
    requires 0 <= n && n + 1 < g.Capacity()
    ensures PagerChs(g, 0) == Chs(0, 0, 0)
    ensures var (c, h, s) := (PagerChs(g, n).cylinder, PagerChs(g, n).head, PagerChs(g, n).sector);
            PagerChs(g, n + 1) == if s + 1 < g.sectors then Chs(c, h, s + 1)
                                  else if h + 1 < g.heads then Chs(c, h + 1, 0)
                                  else Chs(c + 1, 0, 0)
  {
    PagerRecompose(g, Chs(0, 0, 0));
    PagerDecompose(g, n);
    var t := PagerChs(g, n);
    if t.sector + 1 < g.sectors {
      PagerRecompose(g, Chs(t.cylinder, t.head, t.sector + 1));
    } else if t.head + 1 < g.heads {
      PagerNextTrack(g, t);
      PagerRecompose(g, Chs(t.cylinder, t.head + 1, 0));
    } else {
      PagerNextCylinder(g, t);
      PagerRecompose(g, Chs(t.cylinder + 1, 0, 0));
    }
  }

  lemma PagerNextTrack(g: Geometry, t: Chs)
    ensures PagerSector(g, Chs(t.cylinder, t.head + 1, 0)) == PagerSector(g, Chs(t.cylinder, t.head, g.sectors - 1)) + 1
  {
  }

  lemma PagerNextCylinder(g: Geometry, t: Chs)
    requires InRange(g, t) && t.head == g.heads - 1 && t.sector == g.sectors - 1
    requires PagerSector(g, t) + 1 < g.Capacity()
    ensures t.cylinder + 1 < g.cylinders && PagerSector(g, Chs(t.cylinder + 1, 0, 0)) == PagerSector(g, t) + 1
  {
    var cylinder := Product(g.heads, g.sectors);
    assert PagerSector(g, t) + 1 == (t.cylinder + 1) * cylinder && g.Capacity() == g.cylinders * cylinder;
    if t.cylinder + 1 >= g.cylinders { Scale(g.cylinders, t.cylinder + 1, cylinder); }
  }

  // ---- exactly the sectors below the capacity are addressed faithfully

  lemma UserIsFaithfulIff(g: Geometry, n: int)
    ensures InRange(g, UserChs(g, n)) && UserSector(g, UserChs(g, n)) == n <==> 0 <= n < g.Capacity()
  {
    if InRange(g, UserChs(g, n)) { Recompose(g, UserChs(g, n)); }
    if 0 <= n < g.Capacity() { UserDecompose(g, n); }
  }

  lemma PagerIsFaithfulIff(g: Geometry, n: int)
    ensures InRange(g, PagerChs(g, n)) && PagerSector(g, PagerChs(g, n)) == n <==> 0 <= n < g.Capacity()
  {
    if InRange(g, PagerChs(g, n)) { Recompose(g, PagerChs(g, n)); }
    if 0 <= n < g.Capacity() { PagerDecompose(g, n); }
  }

  /** Different sectors below the capacity are different places, in either order. */
  lemma Injective(g: Geometry, m: int, n: int)
    requires 0 <= m < g.Capacity() && 0 <= n < g.Capacity() && m != n
    ensures UserChs(g, m) != UserChs(g, n) && PagerChs(g, m) != PagerChs(g, n)
  {
    UserDecompose(g, m);
    UserDecompose(g, n);
    PagerDecompose(g, m);
    PagerDecompose(g, n);
  }

  /** The accepted sector number equal to the capacity: a user request for it lands on
      sector 0, the pager would leave the disk. */
  lemma CapacityItself(g: Geometry)
    ensures var n := g.Capacity();
            && Accepted(g, n) && UserChs(g, n) == UserChs(g, 0)
            && PagerChs(g, n) == Chs(g.cylinders, 0, 0)
  {
    var n := g.Capacity();
    DivisionIsUnique(0, g.sectors, 0, 0);
    DivisionIsUnique(0, g.cylinders, 0, 0);
    DivisionIsUnique(0, g.heads, 0, 0);
    DivisionIsUnique(0, Product(g.sectors, g.cylinders), 0, 0);
    assert n == (g.heads * g.cylinders) * g.sectors + 0;
    ProductPositive(g.heads, g.cylinders);
    ProductPositive(g.heads * g.cylinders, g.sectors);
    DivisionIsUnique(n, g.sectors, g.heads * g.cylinders, 0);
    DivisionIsUnique(g.heads * g.cylinders, g.cylinders, g.heads, 0);
    assert n == g.heads * Product(g.sectors, g.cylinders) + 0;
    DivisionIsUnique(n, Product(g.sectors, g.cylinders), g.heads, 0);
    DivisionIsUnique(g.heads, g.heads, 1, 0);
    assert n == g.cylinders * Product(g.heads, g.sectors) + 0;
    DivisionIsUnique(n, Product(g.heads, g.sectors), g.cylinders, 0);
    assert Rem(n, Product(g.heads, g.sectors)) == 0;
  }

  /** Negative sector numbers pass the guards too; this one lands on sector 0. */
  lemma NegativeCapacity(g: Geometry)
    ensures Accepted(g, -g.Capacity()) && UserChs(g, -g.Capacity()) == UserChs(g, 0)
  {
    var n := g.Capacity();
    CapacityItself(g);
    ProductPositive(g.cylinders, g.heads);
    ProductPositive(g.cylinders * g.heads, g.sectors);
    NegativeRest(n, g.sectors);
    NegativeRest(n, Product(g.sectors, g.cylinders));
    NegativeRest(Quot(n, g.sectors), g.cylinders);
    NegativeRest(Quot(n, Product(g.sectors, g.cylinders)), g.heads);
    UserDecompose(g, 0);
  }

  lemma NegativeRest(n: int, d: Dimension)
    ensures Quot(-n, d) == -Quot(n, d) && Rem(-n, d) == -Rem(n, d)
  {
    assert Quot(-n, d) * d == -(Quot(n, d) * d);
  }

  // ---- command words

  const SEEK := 2
  const READ := 3
  const WRITE := 4

  /** What a register of 32 bits keeps of a number. */
  function Word32(x: int): (w: int)
    ensures 0 <= w < 0x1_0000_0000
  {
    x % 0x1_0000_0000
  }

  function SeekWord(t: Chs): int { Word32(t.cylinder * 0x100 + SEEK) }

  function TransferWord(t: Chs, command: int): int { Word32(t.head * 0x10000 + t.sector * 0x100 + command) }

  function CommandOf(w: int): int { w % 0x100 }

  function CylinderOf(w: int): int { w / 0x100 % 0x10000 }

  function HeadOf(w: int): int { w / 0x10000 % 0x100 }

  function SectorOf(w: int): int { w / 0x100 % 0x100 }

  /** What a disk finds in the two words made from `t`. */
  function Received(t: Chs, command: int): Chs {
    Chs(CylinderOf(SeekWord(t)), HeadOf(TransferWord(t, command)), SectorOf(TransferWord(t, command)))
  }

  /** The dimensions a disk reports fit its device register. */
  predicate Reportable(g: Geometry) { g.cylinders <= 0xFFFF && g.heads <= 0xFF && g.sectors <= 0xFF }

  /** The command survives, whatever the triple. */
  lemma CommandsDecode(t: Chs, command: int)
    requires 0 <= command < 0x100
    ensures CommandOf(SeekWord(t)) == SEEK && CommandOf(TransferWord(t, command)) == command
  {
    LowByte(t.cylinder * 0x100, SEEK);
    LowByte(t.head * 0x10000 + t.sector * 0x100, command);
  }

  lemma LowByte(x: int, command: int)
    requires x % 0x100 == 0 && 0 <= command < 0x100
    ensures Word32(x + command) % 0x100 == command
  {
  }

  lemma SeekDecodes(cylinder: int)
    requires 0 <= cylinder <= 0xFFFF
    ensures CylinderOf(Word32(cylinder * 0x100 + SEEK)) == cylinder
  {
    assert Word32(cylinder * 0x100 + SEEK) == cylinder * 0x100 + SEEK;
  }

  lemma TransferDecodes(head: int, sector: int, command: int)
    requires 0 <= head <= 0xFF && 0 <= sector <= 0xFF && 0 <= command < 0x100
    ensures var w := Word32(head * 0x10000 + sector * 0x100 + command); HeadOf(w) == head && SectorOf(w) == sector
  {
    var w := head * 0x10000 + sector * 0x100 + command;
    assert Word32(w) == w;
    assert w / 0x100 == head * 0x100 + sector;
    assert w / 0x10000 == head;
  }

  /** A disk that is sent the words of a triple in range, or of the cylinder after the last,
      finds the triple in them. */
  lemma WordsDecode(g: Geometry, t: Chs, command: int)
    requires Reportable(g) && 0 <= command < 0x100
    requires InRange(g, t) || t == Chs(g.cylinders, 0, 0)
    ensures Received(t, command) == t
  {
    SeekDecodes(t.cylinder);
    TransferDecodes(t.head, t.sector, command);
  }

  /** In the words, the command is in the lowest byte and the cylinder, or head over sector, above. */
  lemma WordsAre(g: Geometry, t: Chs, command: int)
    requires Reportable(g) && InRange(g, t) && 0 <= command < 0x100
    ensures SeekWord(t) == 2 + 0x100 * t.cylinder
    ensures TransferWord(t, command) == command + 0x100 * t.sector + 0x1_0000 * t.head
  {
  }
}
