/** The record shared with the kernel extension at mount time
    (include/fuse_mount.h): the `FUSE_MOPT_*` flag bits, the minor-number
    mask for a custom `fsid`, the fixed layout of `struct fuse_mount_args`,
    and the file-system type name prefix. */
module FuseMount {
  import opened LibC
  import opened FuseParam

  // ---- mount-time flags: bits of the 64-bit `altflags` word ----

  /** The `FUSE_MOPT_*` flags the header assigns. */
  datatype Mopt =
    | ALLOW_OTHER | ALLOW_ROOT | AUTO_XATTR | BLOCKSIZE | DAEMON_TIMEOUT
    | DEFAULT_PERMISSIONS | DEFER_PERMISSIONS | DIRECT_IO | EXTENDED_SECURITY
    | FSID | FSSUBTYPE | INIT_TIMEOUT | IOSIZE | JAIL_SYMLINKS | NEGATIVE_VNCACHE
    | NO_APPLEDOUBLE | NO_APPLEXATTR | NO_ATTRCACHE | NO_READAHEAD | NO_SYNCONCLOSE
    | NO_SYNCWRITES | NO_UBC | NO_VNCACHE | USE_INO | AUTO_CACHE | NATIVE_XATTR
    | SPARSE | QUIET | LOCALVOL

  /** The bit number the header gives each flag (`FUSE_MOPT_x = 1ULL << n`). */
  function BitNumber(f: Mopt): (n: nat)
    ensures n < 32
  {
    match f
    case ALLOW_OTHER => 0
    case ALLOW_ROOT => 1
    case AUTO_XATTR => 2
    case BLOCKSIZE => 3
    case DAEMON_TIMEOUT => 4
    case DEFAULT_PERMISSIONS => 5
    case DEFER_PERMISSIONS => 6
    case DIRECT_IO => 7
    case EXTENDED_SECURITY => 8
    case FSID => 9
    case FSSUBTYPE => 10
    case INIT_TIMEOUT => 11
    case IOSIZE => 12
    case JAIL_SYMLINKS => 13
    case NEGATIVE_VNCACHE => 15
    case NO_APPLEDOUBLE => 17
    case NO_APPLEXATTR => 18
    case NO_ATTRCACHE => 19
    case NO_READAHEAD => 20
    case NO_SYNCONCLOSE => 21
    case NO_SYNCWRITES => 22
    case NO_UBC => 23
    case NO_VNCACHE => 24
    case USE_INO => 25
    case AUTO_CACHE => 27
    case NATIVE_XATTR => 28
    case SPARSE => 29
    case QUIET => 30
    case LOCALVOL => 31
  }

  /** The flag a bit number belongs to, if the header assigns it. */
  function FlagOfBit(n: nat): Option<Mopt>
  {
    if n == 0 then Some(ALLOW_OTHER) else if n == 1 then Some(ALLOW_ROOT)
    else if n == 2 then Some(AUTO_XATTR) else if n == 3 then Some(BLOCKSIZE)
    else if n == 4 then Some(DAEMON_TIMEOUT) else if n == 5 then Some(DEFAULT_PERMISSIONS)
    else if n == 6 then Some(DEFER_PERMISSIONS) else if n == 7 then Some(DIRECT_IO)
    else if n == 8 then Some(EXTENDED_SECURITY) else if n == 9 then Some(FSID)
    else if n == 10 then Some(FSSUBTYPE) else if n == 11 then Some(INIT_TIMEOUT)
    else if n == 12 then Some(IOSIZE) else if n == 13 then Some(JAIL_SYMLINKS)
    else if n == 15 then Some(NEGATIVE_VNCACHE) else if n == 17 then Some(NO_APPLEDOUBLE)
    else if n == 18 then Some(NO_APPLEXATTR) else if n == 19 then Some(NO_ATTRCACHE)
    else if n == 20 then Some(NO_READAHEAD) else if n == 21 then Some(NO_SYNCONCLOSE)
    else if n == 22 then Some(NO_SYNCWRITES) else if n == 23 then Some(NO_UBC)
    else if n == 24 then Some(NO_VNCACHE) else if n == 25 then Some(USE_INO)
    else if n == 27 then Some(AUTO_CACHE) else if n == 28 then Some(NATIVE_XATTR)
    else if n == 29 then Some(SPARSE) else if n == 30 then Some(QUIET)
    else if n == 31 then Some(LOCALVOL) else None
  }

  /** A bit position of the 64-bit `altflags` word. */
  type BitIndex = n: nat | n < 64

  /** The `altflags` word, as the set of the positions of its one bits:
      `altflags |= m` adds the bits of `m`, and `altflags & FUSE_MOPT_x`
      tests whether `BitNumber(x)` is present. */
  type Altflags = set<BitIndex>

  /** The mask with only bit `n` set. */
  function Bit(n: nat): bv64
    requires n < 64
  {
    1 << n
  }

  /** `FUSE_MOPT_x`. */
  function MoptBit(f: Mopt): bv64
  {
    match f
    case ALLOW_OTHER => 1 << 0
    case ALLOW_ROOT => 1 << 1
    case AUTO_XATTR => 1 << 2
    case BLOCKSIZE => 1 << 3
    case DAEMON_TIMEOUT => 1 << 4
    case DEFAULT_PERMISSIONS => 1 << 5
    case DEFER_PERMISSIONS => 1 << 6
    case DIRECT_IO => 1 << 7
    case EXTENDED_SECURITY => 1 << 8
    case FSID => 1 << 9
    case FSSUBTYPE => 1 << 10
    case INIT_TIMEOUT => 1 << 11
    case IOSIZE => 1 << 12
    case JAIL_SYMLINKS => 1 << 13
    case NEGATIVE_VNCACHE => 1 << 15
    case NO_APPLEDOUBLE => 1 << 17
    case NO_APPLEXATTR => 1 << 18
    case NO_ATTRCACHE => 1 << 19
    case NO_READAHEAD => 1 << 20
    case NO_SYNCONCLOSE => 1 << 21
    case NO_SYNCWRITES => 1 << 22
    case NO_UBC => 1 << 23
    case NO_VNCACHE => 1 << 24
    case USE_INO => 1 << 25
    case AUTO_CACHE => 1 << 27
    case NATIVE_XATTR => 1 << 28
    case SPARSE => 1 << 29
    case QUIET => 1 << 30
    case LOCALVOL => 1 << 31
  }

  /** Each flag's mask is the single bit its number names. */
  lemma MoptBitIsBitNumber(f: Mopt)
    ensures MoptBit(f) == Bit(BitNumber(f))
  {
  }

  predicate SingleBit(b: bv64)
  {
    b != 0 && b & (b - 1) == 0
  }

  /** Two different bit numbers give disjoint single-bit masks. */
  lemma BitsDisjoint(a: nat, b: nat)
    requires a < 64 && b < 64 && a != b
    ensures SingleBit(Bit(a)) && SingleBit(Bit(b))
    ensures Bit(a) & Bit(b) == 0
  {
    BitIsSingle(a);
    BitIsSingle(b);
    BitsApart(a, b);
  }

  /** A mask with only bit `n` set is a single bit. */
  lemma BitIsSingle(n: nat)
    requires n < 64
    ensures SingleBit(Bit(n))
  {
  }

  /** Masks for two different bit numbers share no bit. */
  lemma BitsApart(a: nat, b: nat)
    requires a < 64 && b < 64 && a != b
    ensures Bit(a) & Bit(b) == 0
  {
    BitAsShift(a);
    BitAsShift(b);
    ShiftsApart(a as bv64, b as bv64);
  }

  /** `Bit(n)` as a shift by a bit-vector amount. */
  lemma BitAsShift(n: nat)
    requires n < 64
    ensures Bit(n) == 1 as bv64 << (n as bv64)
    ensures (n as bv64) as int == n
  {
  }

  /** Shifting 1 by two different amounts below 64 sets different bits. */
  lemma ShiftsApart(x: bv64, y: bv64)
    requires x < 64 && y < 64 && x != y
    ensures (1 as bv64 << x) & (1 as bv64 << y) == 0
  {
  }

  /** The header assigns every bit number to one flag at most. */
  lemma FlagOfBitInverts(f: Mopt)
    ensures FlagOfBit(BitNumber(f)) == Some(f)
  {
  }

  /** Every `FUSE_MOPT_x` is a single bit, and distinct flags never share it. */
  lemma MoptBitsDistinct(f: Mopt, g: Mopt)
    ensures SingleBit(MoptBit(f))
    ensures f != g ==> MoptBit(f) & MoptBit(g) == 0
  {
    FlagOfBitInverts(f);
    FlagOfBitInverts(g);
    MoptBitIsBitNumber(f);
    MoptBitIsBitNumber(g);
    if f != g {
      BitsDisjoint(BitNumber(f), BitNumber(g));
    } else {
      BitsDisjoint(BitNumber(f), 63);
    }
  }

  /** The 29 bits the header's flags occupy. */
  const AssignedBits: bv64 := 0xFBFE_BFFF

  /** Every flag lies inside `AssignedBits`. */
  lemma FlagsAreAssigned(f: Mopt)
    ensures MoptBit(f) & AssignedBits == MoptBit(f)
  {
    MoptBitIsBitNumber(f);
    UnassignedBits(BitNumber(f));
  }

  /** `AssignedBits` is the low 32 bits except bits 14, 16 and 26, which
      no flag uses. */
  lemma UnassignedBits(n: nat)
    requires n < 64
    ensures Bit(n) & AssignedBits != 0 <==> n < 32 && n != 14 && n != 16 && n != 26
    ensures n < 32 ==> (FlagOfBit(n).Some? <==> n != 14 && n != 16 && n != 26)
  {
  }

  // ---- custom fsid ----

  /** `FUSE_MINOR_MASK`: a custom `fsid` must fit the 24-bit minor number. */
  const FUSE_MINOR_MASK: nat := 0x00FF_FFFF

  /** `fsid & ~FUSE_MINOR_MASK`: the mask is the low 24 bits, so clearing
      them leaves `fsid` less its remainder modulo 2^24. */
  function OutsideMinor(fsid: U32): nat
  {
    fsid - fsid % (FUSE_MINOR_MASK + 1)
  }

  /** An `fsid` has no bit outside the mask exactly when it is at most the mask. */
  lemma MinorMaskBound(fsid: U32)
    ensures OutsideMinor(fsid) == 0 <==> fsid <= FUSE_MINOR_MASK
  {
  }

  // ---- struct fuse_mount_args ----

  /** Contents of a `char[MAXPATHLEN]` buffer. */
  type PathName = s: CStr | |s| < MAXPATHLEN

  /** Contents of a `char[MFSTYPENAMELEN]` buffer. */
  type TypeName = s: CStr | |s| < MFSTYPENAMELEN

  /** The arguments handed to the kernel with `mount()`. `initTimeout` is
      read and written by the mount code although the header's declaration
      of the record does not list it (see `WireLayout`). */
  datatype MountArgs = MountArgs(
    mntpath: PathName,
    fsname: PathName,
    fstypename: TypeName,
    volname: PathName,
    altflags: Altflags,
    blocksize: U32,
    daemonTimeout: U32,
    initTimeout: U32,
    fsid: U32,
    fssubtype: U32,
    iosize: U32,
    rdev: U32)

  /** The fields of the record as the header lays them out. */
  datatype Field =
    | Mntpath | Fsname | Fstypename | Volname | Altflags
    | Blocksize | DaemonTimeout | Fsid | Fssubtype | Iosize | Rdev

  const WireLayout: seq<Field> :=
    [Mntpath, Fsname, Fstypename, Volname, Altflags,
     Blocksize, DaemonTimeout, Fsid, Fssubtype, Iosize, Rdev]

  function FieldSize(f: Field): nat
  {
    match f
    case Mntpath | Fsname | Volname => MAXPATHLEN
    case Fstypename => MFSTYPENAMELEN
    case Altflags => 8
    case _ => 4
  }

  /** Natural alignment of each field's C type. */
  function FieldAlign(f: Field): nat
  {
    match f
    case Mntpath | Fsname | Fstypename | Volname => 1
    case Altflags => 8
    case _ => 4
  }

  /** Bytes taken by the first `k` fields when none is padded. */
  function Offset(k: nat): nat
    requires k <= |WireLayout|
  {
    if k == 0 then 0 else Offset(k - 1) + FieldSize(WireLayout[k - 1])
  }

  /** The layout is the same for 32- and 64-bit code: every field already
      sits at a multiple of its alignment and the whole record is a multiple
      of the largest alignment, so no compiler inserts padding. */
  lemma WireLayoutHasNoPadding()
    ensures forall k | 0 <= k < |WireLayout| :: Offset(k) % FieldAlign(WireLayout[k]) == 0
    ensures Offset(|WireLayout|) == 3120 && Offset(|WireLayout|) % 8 == 0
    ensures Offset(4) == 3 * MAXPATHLEN + MFSTYPENAMELEN
  {
    assert Offset(4) == 3088;
    assert Offset(5) == 3096;
    assert Offset(8) == 3108;
    assert Offset(11) == 3120;
  }

  // ---- file-system type name ----

  /** `FUSE_FSTYPENAME_PREFIX`: the file-system type followed by `_`. */
  function FstypenamePrefix(fsType: CStr): CStr
  {
    fsType + "_"
  }

  /** `FUSE_FSTYPENAME_MAXLEN`: `sizeof(FUSE4X_FS_TYPE)` counts the NUL. */
  function FstypenameMaxLen(fsType: CStr): int
  {
    MFSTYPENAMELEN - (|fsType| + 1) - 2
  }

  /** A type name of the longest allowed length after the prefix leaves
      one character of the `MFSTYPENAMELEN` buffer unused besides its NUL. */
  lemma FstypenameFits(fsType: CStr, name: CStr)
    requires |name| <= FstypenameMaxLen(fsType)
    ensures |FstypenamePrefix(fsType) + name| + 1 <= MFSTYPENAMELEN - 1
  {
  }

  /** Constants of the protocol that the headers shown here do not define:
      they come from the build (`MAC_OS_X_VERSION_10_7`), from
      `<sys/param.h>` (`MAXPHYS`), from `fuse_version.h` (`FUSE4X_FS_TYPE`,
      `FUSE4X_VERSION`) and from a newer revision of this header
      (`FUSE_MOPT_PING_DISKARB` and the init-timeout tunables). */
  datatype Platform = Platform(
    sdk107: bool,
    maxPhys: nat,
    pingDiskarbBit: BitIndex,
    initTimeoutDefault: U32,
    initTimeoutMin: U32,
    initTimeoutMax: U32,
    fsType: CStr,
    version: CStr)
  {
    /** `FUSE_MOPT_PING_DISKARB`: the single bit `1 << pingDiskarbBit`. */
    function PingDiskarb(): bv64
    {
      Bit(pingDiskarbBit)
    }

    /** `PING_DISKARB` is one more flag bit, distinct from the others, the
        block-size bound admits the default, and the init-timeout default
        lies within its bounds. */
    predicate Valid()
    {
      PingDiskarb() & AssignedBits == 0 && FUSE_DEFAULT_BLOCKSIZE <= maxPhys &&
      initTimeoutMin <= initTimeoutDefault <= initTimeoutMax
    }
  }
}
