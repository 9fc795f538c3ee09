/** The mount-option handler of lib/mount_darwin.c: the table of recognised
    options, the handler `fuse_mount_opt_proc` that folds one recognised
    option into a `struct mount_options`, and the parse driver that feeds it
    every argument in order. */
module MountOpts {
  import opened LibC
  import opened FuseParam
  import opened FuseMount

  // ---- keys ----

  /** The standard mount flags (`MNT_*` of `<sys/mount.h>`) the options can
      set. Their numeric values are the operating system's, so the set of
      flags stands for the `standard_args` bit word. */
  datatype StdFlag =
    | RDONLY | SYNCHRONOUS | NOEXEC | NOSUID | NODEV | UNION | ASYNC | QUARANTINE
    | LOCAL | QUOTA | ROOTFS | DONTBROWSE | IGNORE_OWNERSHIP | AUTOMOUNTED
    | JOURNALED | NOUSERXATTR | DEFWRITE | MULTILABEL | NOATIME

  /** The `name=<unsigned>` options. */
  datatype U32Param = BLOCKSIZE_ARG | DAEMON_TIMEOUT_ARG | INIT_TIMEOUT_ARG | IOSIZE_ARG | FSID_ARG | FSSUBTYPE_ARG

  /** The `name=<text>` options. */
  datatype StrParam = FSNAME_ARG | FSTYPENAME_ARG | VOLNAME_ARG

  /** Keys of the options that take no value. */
  datatype FlagKey =
    | StdKey(std: StdFlag)
    | AltKey(alt: Mopt)
    | PingDiskarbKey
    | QuietKey
    | AllowRecursionKey
    | NoLocalCachesKey

  /** Keys of the options written `name=value`. */
  datatype ValueKey =
    | U32Key(u: U32Param)
    | StrKey(s: StrParam)
    | VolIconKey
    | IgnoredKey

  /** The key the option table gives an argument; `UnknownKey` when no
      entry of the table matches it. */
  datatype Key = Flag(f: FlagKey) | Value(v: ValueKey) | UnknownKey

  /** The `altflags` options the handler's switch has a case for. */
  predicate SwitchFlag(f: Mopt)
  {
    f in {ALLOW_OTHER, ALLOW_ROOT, AUTO_XATTR, DEFAULT_PERMISSIONS, DEFER_PERMISSIONS,
          DIRECT_IO, EXTENDED_SECURITY, JAIL_SYMLINKS, NEGATIVE_VNCACHE, NO_APPLEDOUBLE,
          NO_APPLEXATTR, NO_ATTRCACHE, NO_READAHEAD, NO_SYNCONCLOSE, NO_SYNCWRITES,
          NO_UBC, NO_VNCACHE, USE_INO, AUTO_CACHE, NATIVE_XATTR, SPARSE}
  }

  /** The flag a numeric option sets beside storing its value. */
  function U32Flag(u: U32Param): Mopt
  {
    match u
    case BLOCKSIZE_ARG => BLOCKSIZE
    case DAEMON_TIMEOUT_ARG => DAEMON_TIMEOUT
    case INIT_TIMEOUT_ARG => INIT_TIMEOUT
    case IOSIZE_ARG => IOSIZE
    case FSID_ARG => FSID
    case FSSUBTYPE_ARG => FSSUBTYPE
  }

  /** Capacity of the buffer a text option is copied into. */
  function Capacity(s: StrParam): nat
  {
    match s
    case FSNAME_ARG | VOLNAME_ARG => MAXPATHLEN
    case FSTYPENAME_ARG => MFSTYPENAMELEN
  }

  /** The leading `name=` of an option that carries a value. */
  function Template(k: ValueKey): CStr
  {
    match k
    case U32Key(u) =>
      (match u
       case BLOCKSIZE_ARG => "blocksize="
       case DAEMON_TIMEOUT_ARG => "daemon_timeout="
       case INIT_TIMEOUT_ARG => "init_timeout="
       case IOSIZE_ARG => "iosize="
       case FSID_ARG => "fsid="
       case FSSUBTYPE_ARG => "fssubtype=")
    case StrKey(s) =>
      (match s
       case FSNAME_ARG => "fsname="
       case FSTYPENAME_ARG => "fstypename="
       case VOLNAME_ARG => "volname=")
    case VolIconKey => "volicon="
    case IgnoredKey => "subtype="
  }

  // ---- the option table ----

  /** An entry of the table: a plain option matches one argument exactly; an
      option with a value matches every argument its `name=` begins. */
  datatype Entry = Exact(name: string, key: FlagKey) | Prefixed(vkey: ValueKey)
  {
    function KeyOf(): Key
    {
      match this
      case Exact(_, k) => Flag(k)
      case Prefixed(k) => Value(k)
    }
  }

  const MountOptTable: seq<Entry> := [
    Exact("-r", StdKey(RDONLY)),
    Exact("rdonly", StdKey(RDONLY)),
    Exact("sync", StdKey(SYNCHRONOUS)),
    Exact("noexec", StdKey(NOEXEC)),
    Exact("nosuid", StdKey(NOSUID)),
    Exact("nodev", StdKey(NODEV)),
    Exact("union", StdKey(UNION)),
    Exact("async", StdKey(ASYNC)),
    Exact("quarantine", StdKey(QUARANTINE)),
    Exact("local", StdKey(LOCAL)),
    Exact("quota", StdKey(QUOTA)),
    Exact("rootfs", StdKey(ROOTFS)),
    Exact("nobrowse", StdKey(DONTBROWSE)),
    Exact("noowners", StdKey(IGNORE_OWNERSHIP)),
    Exact("automounted", StdKey(AUTOMOUNTED)),
    Exact("journaled", StdKey(JOURNALED)),
    Exact("nouserxattr", StdKey(NOUSERXATTR)),
    Exact("defwrite", StdKey(DEFWRITE)),
    Exact("multilabel", StdKey(MULTILABEL)),
    Exact("noatime", StdKey(NOATIME)),
    Exact("allow_other", AltKey(ALLOW_OTHER)),
    Exact("allow_recursion", AllowRecursionKey),
    Exact("allow_root", AltKey(ALLOW_ROOT)),
    Exact("auto_xattr", AltKey(AUTO_XATTR)),
    Prefixed(U32Key(BLOCKSIZE_ARG)),
    Prefixed(U32Key(DAEMON_TIMEOUT_ARG)),
    Exact("default_permissions", AltKey(DEFAULT_PERMISSIONS)),
    Exact("defer_permissions", AltKey(DEFER_PERMISSIONS)),
    Exact("direct_io", AltKey(DIRECT_IO)),
    Exact("extended_security", AltKey(EXTENDED_SECURITY)),
    Prefixed(U32Key(FSID_ARG)),
    Prefixed(StrKey(FSNAME_ARG)),
    Prefixed(U32Key(FSSUBTYPE_ARG)),
    Prefixed(StrKey(FSTYPENAME_ARG)),
    Prefixed(U32Key(INIT_TIMEOUT_ARG)),
    Prefixed(U32Key(IOSIZE_ARG)),
    Exact("jail_symlinks", AltKey(JAIL_SYMLINKS)),
    Exact("negative_vncache", AltKey(NEGATIVE_VNCACHE)),
    Exact("noappledouble", AltKey(NO_APPLEDOUBLE)),
    Exact("noapplexattr", AltKey(NO_APPLEXATTR)),
    Exact("noattrcache", AltKey(NO_ATTRCACHE)),
    Exact("nolocalcaches", NoLocalCachesKey),
    Exact("noreadahead", AltKey(NO_READAHEAD)),
    Exact("nosynconclose", AltKey(NO_SYNCONCLOSE)),
    Exact("nosyncwrites", AltKey(NO_SYNCWRITES)),
    Exact("noubc", AltKey(NO_UBC)),
    Exact("novncache", AltKey(NO_VNCACHE)),
    Exact("use_ino", AltKey(USE_INO)),
    Prefixed(StrKey(VOLNAME_ARG)),
    Prefixed(VolIconKey),
    Exact("ping_diskarb", PingDiskarbKey),
    Exact("auto_cache", AltKey(AUTO_CACHE)),
    Exact("native_xattr", AltKey(NATIVE_XATTR)),
    Exact("sparse", AltKey(SPARSE)),
    Exact("quiet", QuietKey),
    Prefixed(IgnoredKey)
  ]

  predicate Matches(e: Entry, arg: CStr)
  {
    match e
    case Exact(name, _) => arg == name
    case Prefixed(k) => Template(k) <= arg
  }

  /** The key of the first entry from `i` on that matches `arg`; a key
      with a value is only ever handed an argument its `name=` begins. */
  function LookupFrom(arg: CStr, i: nat): (k: Key)
    requires i <= |MountOptTable|
    ensures k.UnknownKey? <==> forall j | i <= j < |MountOptTable| :: !Matches(MountOptTable[j], arg)
    ensures k.Value? ==> Template(k.v) <= arg
    ensures k.Flag? ==> exists j | i <= j < |MountOptTable| :: MountOptTable[j] == Exact(arg, k.f)
    decreases |MountOptTable| - i
  {
    if i == |MountOptTable| then UnknownKey
    else if Matches(MountOptTable[i], arg) then MountOptTable[i].KeyOf()
    else LookupFrom(arg, i + 1)
  }

  /** The key `fuse_opt` hands the handler for one argument. */
  function Lookup(arg: CStr): (k: Key)
    ensures k.UnknownKey? <==> forall j | 0 <= j < |MountOptTable| :: !Matches(MountOptTable[j], arg)
    ensures k.Value? ==> Template(k.v) <= arg
    ensures k.Flag? ==> exists j | 0 <= j < |MountOptTable| :: MountOptTable[j] == Exact(arg, k.f)
  {
    LookupFrom(arg, 0)
  }

  // ---- struct mount_options ----

  /** The contents of a `struct mount_options`. */
  datatype Options = Options(args: MountArgs, standard: set<StdFlag>, quiet: bool, allowRecursion: bool)

  /** The record after `memset(0)` and the four defaults of `fuse_kern_mount`. */
  function Defaults(p: Platform): (o: Options)
    ensures o.args.altflags == {} && o.standard == {} && !o.quiet && !o.allowRecursion
    ensures p.Valid() ==>
      && FUSE_MIN_BLOCKSIZE <= o.args.blocksize <= p.maxPhys
      && MinIosize() <= o.args.iosize <= MaxIosize(p.sdk107)
      && FUSE_MIN_DAEMON_TIMEOUT <= o.args.daemonTimeout <= FUSE_MAX_DAEMON_TIMEOUT
      && p.initTimeoutMin <= o.args.initTimeout <= p.initTimeoutMax
  {
    Options(
      MountArgs("", "", "", "", {}, FUSE_DEFAULT_BLOCKSIZE,
                FUSE_DEFAULT_DAEMON_TIMEOUT, p.initTimeoutDefault, 0, 0,
                DefaultIosize(p.sdk107), 0),
      {}, false, false)
  }

  /** What `nolocalcaches` adds: `NO_ATTRCACHE | NO_READAHEAD | NO_UBC |
      NO_VNCACHE`, bits 19, 20, 23 and 24 (see `NoLocalCachesIsFourFlags`). */
  const NoLocalCachesBits: Altflags := {19, 20, 23, 24}

  function U32Field(a: MountArgs, u: U32Param): U32
  {
    match u
    case BLOCKSIZE_ARG => a.blocksize
    case DAEMON_TIMEOUT_ARG => a.daemonTimeout
    case INIT_TIMEOUT_ARG => a.initTimeout
    case IOSIZE_ARG => a.iosize
    case FSID_ARG => a.fsid
    case FSSUBTYPE_ARG => a.fssubtype
  }

  function SetU32(a: MountArgs, u: U32Param, v: U32): (r: MountArgs)
    ensures r.altflags == a.altflags
  {
    match u
    case BLOCKSIZE_ARG => a.(blocksize := v)
    case DAEMON_TIMEOUT_ARG => a.(daemonTimeout := v)
    case INIT_TIMEOUT_ARG => a.(initTimeout := v)
    case IOSIZE_ARG => a.(iosize := v)
    case FSID_ARG => a.(fsid := v)
    case FSSUBTYPE_ARG => a.(fssubtype := v)
  }

  function StrField(a: MountArgs, s: StrParam): CStr
  {
    match s
    case FSNAME_ARG => a.fsname
    case FSTYPENAME_ARG => a.fstypename
    case VOLNAME_ARG => a.volname
  }

  function SetStr(a: MountArgs, s: StrParam, v: CStr): (r: MountArgs)
    requires |v| < Capacity(s)
    ensures r.altflags == a.altflags
  {
    match s
    case FSNAME_ARG => a.(fsname := v)
    case FSTYPENAME_ARG => a.(fstypename := v)
    case VOLNAME_ARG => a.(volname := v)
  }

  // ---- fuse_mount_opt_proc ----

  /** The handler's answer: 0 (option consumed), 1 (keep the argument for
      the file system) or -1 (error). */
  datatype ProcResult = Consumed | Keep | Fail

  /** One call of the handler: its answer, the new record, and the
      arguments it appended to `outargs`. */
  datatype Step = Step(result: ProcResult, opts: Options, added: seq<CStr>)

  /** The option `volicon=<path>` becomes, for the file system,
      `-omodules=volicon,iconpath=<path>`, cut to the handler's buffer. */
  const VolIconPrefix: CStr := "-omodules=volicon,iconpath"

  /** `mo->fuse_args.altflags |= bits`. */
  function WithAltflags(o: Options, bits: Altflags): Options
  {
    o.(args := o.args.(altflags := o.args.altflags + bits))
  }

  /** A numeric option stores its value and sets its own flag. */
  function WithU32(o: Options, u: U32Param, v: U32): Options
  {
    WithAltflags(o.(args := SetU32(o.args, u, v)), {BitNumber(U32Flag(u))})
  }

  /** A text option stores what `strlcpy` leaves in the buffer. */
  function WithStr(o: Options, s: StrParam, text: CStr): Options
    requires |text| < Capacity(s)
  {
    o.(args := SetStr(o.args, s, text))
  }

  /** The handler on an option without a value. */
  function ApplyFlag(o: Options, k: FlagKey, p: Platform): (s: Step)
    ensures s.result != Fail && s.added == []
    ensures s.opts.args == o.args.(altflags := s.opts.args.altflags)
    ensures o.args.altflags <= s.opts.args.altflags
  {
    match k
    case StdKey(f) => Step(Consumed, o.(standard := o.standard + {f}), [])
    case AltKey(f) =>
      if SwitchFlag(f) then Step(Consumed, WithAltflags(o, {BitNumber(f)}), [])
      else Step(Keep, o, [])
    case PingDiskarbKey => Step(Consumed, WithAltflags(o, {p.pingDiskarbBit}), [])
    case QuietKey => Step(Consumed, WithAltflags(o.(quiet := true), {BitNumber(QUIET)}), [])
    case AllowRecursionKey => Step(Consumed, o.(allowRecursion := true), [])
    case NoLocalCachesKey => Step(Consumed, WithAltflags(o, NoLocalCachesBits), [])
  }

  /** The handler on a `name=value` option. `stale` is what the handler's
      uninitialised `param` holds when `sscanf` converts nothing. */
  function ApplyValue(o: Options, arg: CStr, k: ValueKey, p: Platform, stale: U32): (s: Step)
    requires k.StrKey? ==> Template(k) <= arg
    ensures s.result != Keep
    ensures s.added != [] ==> k.VolIconKey? && s.result == Consumed && s.opts == o && |s.added| == 1
  {
    match k
    case VolIconKey =>
      (match StrChr(arg, '=')
       case None => Step(Fail, o, [])
       case Some(i) => Step(Consumed, o, [Bounded(VolIconPrefix + arg[i..], MAXPATHLEN + 32)]))
    case U32Key(u) =>
      (match ScanUnsigned(arg, Template(k))
       case ScanEof => Step(Fail, o, [])
       case ScanNoMatch => Step(Consumed, WithU32(o, u, stale), [])
       case Scanned(v) => Step(Consumed, WithU32(o, u, v), []))
    case StrKey(s) =>
      var (text, n) := StrlCpy(arg[|Template(k)|..], Capacity(s));
      Step(if n >= Capacity(s) then Fail else Consumed, WithStr(o, s, text), [])
    case IgnoredKey => Step(Consumed, o, [])
  }

  /** `fuse_mount_opt_proc(mo, arg, key, outargs)`: a key the switch does not
      know leaves the record alone and asks to keep the argument. */
  function Apply(o: Options, arg: CStr, k: Key, p: Platform, stale: U32): (s: Step)
    requires k.Value? && k.v.StrKey? ==> Template(k.v) <= arg
    ensures s.result == Keep <==> k.UnknownKey? || (k.Flag? && k.f.AltKey? && !SwitchFlag(k.f.alt))
    ensures s.result == Keep ==> s.opts == o && s.added == []
  {
    match k
    case Flag(f) => ApplyFlag(o, f, p)
    case Value(v) => ApplyValue(o, arg, v, p, stale)
    case UnknownKey => Step(Keep, o, [])
  }

  /** The record as a mutable object, updated in place by the handler. */
  class MountOptions {
    var fuseArgs: MountArgs
    var standardArgs: set<StdFlag>
    var quiet: bool
    var allowRecursion: bool

    function Value(): Options
      reads this
    {
      Options(fuseArgs, standardArgs, quiet, allowRecursion)
    }

    /** `memset(&opts, 0, sizeof(opts))` followed by the defaults. */
    constructor (p: Platform)
      ensures Value() == Defaults(p)
    {
      fuseArgs := MountArgs("", "", "", "", {}, FUSE_DEFAULT_BLOCKSIZE,
                            FUSE_DEFAULT_DAEMON_TIMEOUT, p.initTimeoutDefault, 0, 0,
                            DefaultIosize(p.sdk107), 0);
      standardArgs := {};
      quiet := false;
      allowRecursion := false;
    }
  }

  /** `fuse_mount_opt_proc`: one key folded into the record. */
  method MountOptProc(mo: MountOptions, arg: CStr, k: Key, p: Platform, stale: U32) returns (r: ProcResult, added: seq<CStr>)
    requires k.Value? && k.v.StrKey? ==> Template(k.v) <= arg
    modifies mo
    ensures Step(r, mo.Value(), added) == Apply(old(mo.Value()), arg, k, p, stale)
  {
    match k {
      case Flag(f) =>
        r := ProcFlag(mo, f, p);
        added := [];
      case Value(v) =>
        r, added := ProcValue(mo, arg, v, p, stale);
      case UnknownKey =>
        r, added := Keep, [];
    }
  }

  /** The cases of the switch for options without a value. */
  method ProcFlag(mo: MountOptions, k: FlagKey, p: Platform) returns (r: ProcResult)
    modifies mo
    ensures Step(r, mo.Value(), []) == ApplyFlag(old(mo.Value()), k, p)
  {
    r := Consumed;
    match k {
      case StdKey(f) =>
        mo.standardArgs := mo.standardArgs + {f};
      case AltKey(f) =>
        if SwitchFlag(f) {
          OrAltflags(mo, {BitNumber(f)});
        } else {
          r := Keep;
        }
      case PingDiskarbKey =>
        OrAltflags(mo, {p.pingDiskarbBit});
      case QuietKey =>
        mo.quiet := true;
        OrAltflags(mo, {BitNumber(QUIET)});
      case AllowRecursionKey =>
        mo.allowRecursion := true;
      case NoLocalCachesKey =>
        OrAltflags(mo, NoLocalCachesBits);
    }
  }

  /** The cases of the switch for `name=value` options. */
  method ProcValue(mo: MountOptions, arg: CStr, k: ValueKey, p: Platform, stale: U32) returns (r: ProcResult, added: seq<CStr>)
    requires k.StrKey? ==> Template(k) <= arg
    modifies mo
    ensures Step(r, mo.Value(), added) == ApplyValue(old(mo.Value()), arg, k, p, stale)
  {
    added := [];
    r := Consumed;
    match k {
      case VolIconKey =>
        var eq := StrChr(arg, '=');
        if eq.None? {
          r := Fail;
        } else {
          added := [Bounded(VolIconPrefix + arg[eq.value..], MAXPATHLEN + 32)];
        }
      case U32Key(u) =>
        var scan := ScanUnsigned(arg, Template(k));
        if scan.ScanEof? {
          r := Fail;
        } else {
          var param := if scan.Scanned? then scan.value else stale;
          StoreU32(mo, u, param);
        }
      case StrKey(s) =>
        var (text, n) := StrlCpy(arg[|Template(k)|..], Capacity(s));
        StoreStr(mo, s, text);
        if n >= Capacity(s) {
          r := Fail;
        }
      case IgnoredKey =>
    }
  }

  /** `FUSE_MOUNT_OPT`: OR bits into `altflags`. */
  method OrAltflags(mo: MountOptions, bits: Altflags)
    modifies mo
    ensures mo.Value() == WithAltflags(old(mo.Value()), bits)
  {
    mo.fuseArgs := mo.fuseArgs.(altflags := mo.fuseArgs.altflags + bits);
  }

  /** `FUSE_MOUNT_OPT_PARSE_U32` once `sscanf` has run: store the value
      and set the option's flag. */
  method StoreU32(mo: MountOptions, u: U32Param, v: U32)
    modifies mo
    ensures mo.Value() == WithU32(old(mo.Value()), u, v)
  {
    mo.fuseArgs := SetU32(mo.fuseArgs, u, v);
    assert mo.Value() == old(mo.Value()).(args := SetU32(old(mo.fuseArgs), u, v));
    OrAltflags(mo, {BitNumber(U32Flag(u))});
  }

  /** `FUSE_MOUNT_OPT_PARSE_STRING`'s `strlcpy` into the option's buffer. */
  method StoreStr(mo: MountOptions, s: StrParam, text: CStr)
    requires |text| < Capacity(s)
    modifies mo
    ensures mo.Value() == WithStr(old(mo.Value()), s, text)
  {
    mo.fuseArgs := SetStr(mo.fuseArgs, s, text);
  }

  // ---- the parse driver ----

  /** Outcome of `fuse_opt_parse`: failure, or the record and the arguments
      left for the file system. */
  datatype Parsed = ParseFailed | ParseOk(opts: Options, outargs: seq<CStr>)

  /** `fuse_opt_parse` over the arguments (with `-o a,b` already split into
      `a` and `b`): every argument goes to the handler with the key of the
      table's first matching entry; an answer of 1 keeps the argument, -1
      stops the parse. */
  function ParseFrom(o: Options, out: seq<CStr>, args: seq<CStr>, p: Platform, stale: U32): Parsed
    decreases |args|
  {
    if args == [] then ParseOk(o, out)
    else
      var k := Lookup(args[0]);
      var s := Apply(o, args[0], k, p, stale);
      if s.result == Fail then ParseFailed
      else ParseFrom(s.opts, out + s.added + (if s.result == Keep then [args[0]] else []), args[1..], p, stale)
  }

  function Parse(o: Options, args: seq<CStr>, p: Platform, stale: U32): (r: Parsed)
    ensures r.ParseOk? ==>
      && o.args.altflags <= r.opts.args.altflags && o.standard <= r.opts.standard
      && (o.quiet ==> r.opts.quiet) && (o.allowRecursion ==> r.opts.allowRecursion)
  {
    ParseOnlyAdds(o, [], args, p, stale);
    ParseFrom(o, [], args, p, stale)
  }

  /** The parse driver run against the mutable record. */
  method ParseArgs(opts: MountOptions, args: seq<CStr>, p: Platform, stale: U32) returns (ok: bool, outargs: seq<CStr>)
    modifies opts
    ensures var r := Parse(old(opts.Value()), args, p, stale);
      if ok then r == ParseOk(opts.Value(), outargs) else r == ParseFailed
  {
    outargs := [];
    var i := 0;
    while i < |args|
      invariant 0 <= i <= |args|
      invariant ParseFrom(opts.Value(), outargs, args[i..], p, stale) == Parse(old(opts.Value()), args, p, stale)
    {
      var k := Lookup(args[i]);
      assert args[i..][0] == args[i] && args[i..][1..] == args[i + 1..];
      var r, added := MountOptProc(opts, args[i], k, p, stale);
      if r == Fail {
        return false, outargs;
      }
      outargs := outargs + added + (if r == Keep then [args[i]] else []);
      i := i + 1;
    }
    return true, outargs;
  }


  // ---- properties of the handler ----

  /** The `altflags` bits an option without a value ORs in. */
  function OptionBits(k: FlagKey, p: Platform): Altflags
  {
    match k
    case AltKey(f) => if SwitchFlag(f) then {BitNumber(f)} else {}
    case PingDiskarbKey => {p.pingDiskarbBit}
    case QuietKey => {BitNumber(QUIET)}
    case NoLocalCachesKey => NoLocalCachesBits
    case _ => {}
  }

  /** An option without a value is consumed (unless the switch has no case
      for it), ORs its bits into `altflags`, adds its standard flag, and
      changes nothing else: `quiet` also sets the `quiet` field,
      `allow_recursion` only its own field. */
  lemma FlagOptionEffect(o: Options, k: FlagKey, p: Platform)
    ensures ApplyFlag(o, k, p).added == []
    ensures ApplyFlag(o, k, p).result == Keep <==> k.AltKey? && !SwitchFlag(k.alt)
    ensures ApplyFlag(o, k, p).result != Fail
    ensures ApplyFlag(o, k, p).opts.args == o.args.(altflags := o.args.altflags + OptionBits(k, p))
    ensures ApplyFlag(o, k, p).opts.standard == (if k.StdKey? then o.standard + {k.std} else o.standard)
    ensures ApplyFlag(o, k, p).opts.quiet == (o.quiet || k.QuietKey?)
    ensures ApplyFlag(o, k, p).opts.allowRecursion == (o.allowRecursion || k.AllowRecursionKey?)
  {
    assert o.args.altflags + {} == o.args.altflags;
  }

  /** The fuse4x flag options set exactly one bit, their own; `ping_diskarb`
      sets a bit no header flag uses. */
  lemma FlagOptionSetsOneBit(o: Options, k: FlagKey, g: Mopt, p: Platform)
    requires p.Valid()
    requires k.AltKey? ==> SwitchFlag(k.alt)
    requires k.AltKey? || k.PingDiskarbKey? || k.QuietKey?
    ensures |OptionBits(k, p)| == 1
    ensures BitNumber(g) in ApplyFlag(o, k, p).opts.args.altflags <==>
      BitNumber(g) in o.args.altflags || (k.AltKey? && g == k.alt) || (k.QuietKey? && g == QUIET)
  {
    FlagOptionEffect(o, k, p);
    match k {
      case AltKey(f) =>
        FlagOfBitInverts(f);
        FlagOfBitInverts(g);
      case QuietKey =>
        FlagOfBitInverts(QUIET);
        FlagOfBitInverts(g);
      case PingDiskarbKey =>
        UnassignedBits(p.pingDiskarbBit);
        UnassignedBits(BitNumber(g));
        FlagOfBitInverts(g);
        MoptBitIsBitNumber(g);
        FlagsAreAssigned(g);
    }
  }

  /** Repeating an option without a value changes nothing more. */
  lemma FlagOptionIdempotent(o: Options, k: FlagKey, p: Platform)
    ensures var s := ApplyFlag(o, k, p); ApplyFlag(s.opts, k, p) == s
  {
    var s := ApplyFlag(o, k, p);
    FlagOptionEffect(o, k, p);
    FlagOptionEffect(s.opts, k, p);
    assert s.opts.args.altflags + OptionBits(k, p) == s.opts.args.altflags;
  }

  /** Options without a value can be given in any order. */
  lemma FlagOptionsCommute(o: Options, k1: FlagKey, k2: FlagKey, p: Platform)
    ensures ApplyFlag(ApplyFlag(o, k1, p).opts, k2, p).opts == ApplyFlag(ApplyFlag(o, k2, p).opts, k1, p).opts
  {
    var a := ApplyFlag(o, k1, p).opts;
    var b := ApplyFlag(o, k2, p).opts;
    FlagOptionEffect(o, k1, p);
    FlagOptionEffect(o, k2, p);
    FlagOptionEffect(a, k2, p);
    FlagOptionEffect(b, k1, p);
    assert (o.args.altflags + OptionBits(k1, p)) + OptionBits(k2, p)
        == (o.args.altflags + OptionBits(k2, p)) + OptionBits(k1, p);
    assert (o.standard + (if k1.StdKey? then {k1.std} else {})) + (if k2.StdKey? then {k2.std} else {})
        == (o.standard + (if k2.StdKey? then {k2.std} else {})) + (if k1.StdKey? then {k1.std} else {});
  }

  /** `nolocalcaches` is `noattrcache`, `noreadahead`, `noubc` and
      `novncache` given one after another; the header's masks of the four
      add up to `0x0198_0000`. */
  lemma NoLocalCachesIsFourFlags(o: Options, p: Platform)
    ensures NoLocalCachesBits == {BitNumber(NO_ATTRCACHE), BitNumber(NO_READAHEAD), BitNumber(NO_UBC), BitNumber(NO_VNCACHE)}
    ensures MoptBit(NO_ATTRCACHE) | MoptBit(NO_READAHEAD) | MoptBit(NO_UBC) | MoptBit(NO_VNCACHE) == 0x0198_0000
    ensures var s1 := ApplyFlag(o, AltKey(NO_ATTRCACHE), p).opts;
      var s2 := ApplyFlag(s1, AltKey(NO_READAHEAD), p).opts;
      var s3 := ApplyFlag(s2, AltKey(NO_UBC), p).opts;
      var s4 := ApplyFlag(s3, AltKey(NO_VNCACHE), p).opts;
      ApplyFlag(o, NoLocalCachesKey, p) == Step(Consumed, s4, [])
  {
    var x := o.args.altflags;
    assert x + {19} + {20} + {23} + {24} == x + NoLocalCachesBits;
  }

  /** `name=<n>` with a plain numeral `n` below 2^32 stores `n` and sets
      the option's flag. */
  lemma NumericOptionStores(o: Options, u: U32Param, n: nat, p: Platform, stale: U32)
    requires n < 0x1_0000_0000
    ensures var s := ApplyValue(o, Template(U32Key(u)) + Decimal(n), U32Key(u), p, stale);
      && s == Step(Consumed, WithU32(o, u, n), [])
      && U32Field(s.opts.args, u) == n
      && BitNumber(U32Flag(u)) in s.opts.args.altflags
  {
    ScanNumeral(Template(U32Key(u)), n);
  }

  /** A numeric option with nothing (or only white space) after `=` fails. */
  lemma NumericOptionWithoutValueFails(o: Options, u: U32Param, rest: string, p: Platform, stale: U32)
    requires NUL !in rest
    requires forall i | 0 <= i < |rest| :: IsSpace(rest[i])
    ensures ApplyValue(o, Template(U32Key(u)) + rest, U32Key(u), p, stale) == Step(Fail, o, [])
  {
    ScanEofOnBlank(Template(U32Key(u)), rest);
  }

  /** A numeric option whose value has no digit after its optional sign
      (`blocksize=x`, `blocksize=+`) is still accepted: `sscanf` reports a
      matching failure, not `EOF`, so the handler stores whatever `param`
      held and sets the flag. */
  lemma NumericOptionNonNumeric(o: Options, u: U32Param, rest: CStr, p: Platform, stale: U32)
    requires rest != [] && !IsSpace(rest[0])
    requires var digits := if rest[0] == '+' || rest[0] == '-' then rest[1..] else rest;
      digits == [] || !IsDigit(digits[0])
    ensures ApplyValue(o, Template(U32Key(u)) + rest, U32Key(u), p, stale) == Step(Consumed, WithU32(o, u, stale), [])
  {
    var arg := Template(U32Key(u)) + rest;
    assert arg[|Template(U32Key(u))|..] == rest;
    assert SpaceRun(rest) == 0;
    assert rest[0..] == rest;
  }

  /** Storing a numeric option twice keeps only the second value. */
  lemma WithU32Overwrites(o: Options, u: U32Param, v: U32, w: U32)
    ensures WithU32(WithU32(o, u, v), u, w) == WithU32(o, u, w)
  {
    var b := {BitNumber(U32Flag(u))};
    assert o.args.altflags + b + b == o.args.altflags + b;
  }

  /** When a numeric option is given twice, the last one wins: the record
      is as if only the second had been given (or the second one fails). */
  lemma LastNumericWins(o: Options, u: U32Param, a: CStr, b: CStr, p: Platform, stale: U32)
    requires ApplyValue(o, a, U32Key(u), p, stale).result == Consumed
    ensures var s := ApplyValue(o, a, U32Key(u), p, stale).opts;
      ApplyValue(s, b, U32Key(u), p, stale) == ApplyValue(o, b, U32Key(u), p, stale) ||
      ApplyValue(s, b, U32Key(u), p, stale) == Step(Fail, s, [])
  {
    var v := match ScanUnsigned(a, Template(U32Key(u)))
      case Scanned(x) => x
      case _ => stale;
    var w := match ScanUnsigned(b, Template(U32Key(u)))
      case Scanned(x) => x
      case _ => stale;
    WithU32Overwrites(o, u, v, w);
  }

  /** `name=<text>` succeeds exactly when the text fits the option's
      buffer with its terminator, and then stores the text verbatim; a text
      that does not fit leaves its truncated prefix behind. */
  lemma StringOptionStores(o: Options, s: StrParam, v: CStr, p: Platform, stale: U32)
    ensures var r := ApplyValue(o, Template(StrKey(s)) + v, StrKey(s), p, stale);
      && r.added == []
      && (r.result == Consumed <==> |v| < Capacity(s))
      && r.result != Keep
      && StrField(r.opts.args, s) == Take(v, Capacity(s) - 1)
      && (|v| < Capacity(s) ==> r.opts == WithStr(o, s, v))
  {
    var arg := Template(StrKey(s)) + v;
    assert arg[|Template(StrKey(s))|..] == v;
  }

  /** `volicon=<path>` leaves the record alone and hands the file system
      `-omodules=volicon,iconpath=<path>`; an argument without `=` fails. */
  lemma VolIconOption(o: Options, arg: CStr, p: Platform, stale: U32)
    ensures var r := ApplyValue(o, arg, VolIconKey, p, stale);
      && r.opts == o
      && (r.result == Fail <==> '=' !in arg)
      && (r.result == Fail ==> r.added == [])
      && (r.result != Fail ==> r.result == Consumed && |r.added| == 1)
  {
  }

  /** A short `volicon=<path>` reaches the file system as
      `-omodules=volicon,iconpath=<path>`. */
  lemma {:induction false} VolIconPath(o: Options, path: CStr, p: Platform, stale: U32)
    requires |path| < MAXPATHLEN
    ensures ApplyValue(o, "volicon=" + path, VolIconKey, p, stale) ==
      Step(Consumed, o, ["-omodules=volicon,iconpath=" + path])
  {
    var arg: CStr := "volicon=" + path;
    assert arg[..7] == "volicon";
    assert arg[7] == '=';
    assert StrChr(arg, '=') == Some(7) by {
      assert '=' !in arg[..7];
    }
    assert arg[7..] == "=" + path;
    assert VolIconPrefix + arg[7..] == "-omodules=volicon,iconpath=" + path;
  }

  /** `subtype=` is accepted and discarded; an argument no entry matches is
      kept for the file system and the record is left alone. */
  lemma IgnoredAndUnknownOptions(o: Options, arg: CStr, p: Platform, stale: U32)
    ensures ApplyValue(o, arg, IgnoredKey, p, stale) == Step(Consumed, o, [])
    ensures Apply(o, arg, UnknownKey, p, stale) == Step(Keep, o, [])
  {
  }

  /** The handler never clears a flag nor resets a boolean. */
  lemma ApplyOnlyAdds(o: Options, arg: CStr, k: Key, p: Platform, stale: U32)
    requires k.Value? && k.v.StrKey? ==> Template(k.v) <= arg
    ensures var r := Apply(o, arg, k, p, stale).opts;
      && o.args.altflags <= r.args.altflags
      && o.standard <= r.standard
      && (o.quiet ==> r.quiet)
      && (o.allowRecursion ==> r.allowRecursion)
  {
    match k {
      case Flag(f) => FlagOptionEffect(o, f, p);
      case Value(v) => ValueOptionOnlyAdds(o, arg, v, p, stale);
      case UnknownKey =>
    }
  }

  /** An option with a value sets at most its own flag and its field. */
  lemma ValueOptionOnlyAdds(o: Options, arg: CStr, k: ValueKey, p: Platform, stale: U32)
    requires k.StrKey? ==> Template(k) <= arg
    ensures var r := ApplyValue(o, arg, k, p, stale).opts;
      && o.args.altflags <= r.args.altflags
      && r.standard == o.standard && r.quiet == o.quiet && r.allowRecursion == o.allowRecursion
  {
    match k {
      case U32Key(u) =>
        match ScanUnsigned(arg, Template(k)) {
          case ScanEof =>
            assert ApplyValue(o, arg, k, p, stale).opts == o;
          case ScanNoMatch =>
            assert ApplyValue(o, arg, k, p, stale).opts == WithU32(o, u, stale);
          case Scanned(v) =>
            assert ApplyValue(o, arg, k, p, stale).opts == WithU32(o, u, v);
        }
      case StrKey(t) =>
        var (text, n) := StrlCpy(arg[|Template(k)|..], Capacity(t));
        assert ApplyValue(o, arg, k, p, stale).opts == WithStr(o, t, text);
      case _ =>
        assert ApplyValue(o, arg, k, p, stale).opts == o;
    }
  }

  /** A parse that succeeds only ever adds flags to the record and only
      ever appends to the arguments kept. */
  lemma {:induction false} ParseOnlyAdds(o: Options, out: seq<CStr>, args: seq<CStr>, p: Platform, stale: U32)
    ensures var r := ParseFrom(o, out, args, p, stale);
      r.ParseOk? ==>
        && o.args.altflags <= r.opts.args.altflags
        && o.standard <= r.opts.standard
        && (o.quiet ==> r.opts.quiet)
        && (o.allowRecursion ==> r.opts.allowRecursion)
        && out <= r.outargs
    decreases |args|
  {
    if args != [] {
      var k := Lookup(args[0]);
      var s := Apply(o, args[0], k, p, stale);
      if s.result != Fail {
        var out' := out + s.added + (if s.result == Keep then [args[0]] else []);
        ParseOnlyAdds(s.opts, out', args[1..], p, stale);
        ApplyOnlyAdds(o, args[0], k, p, stale);
      }
    }
  }

  /** After a successful parse, every fuse4x flag option among the
      arguments has its bit set, wherever it appeared. */
  lemma {:induction false} ParseSetsNamedFlags(o: Options, out: seq<CStr>, args: seq<CStr>, i: nat, f: Mopt, p: Platform, stale: U32)
    requires i < |args| && SwitchFlag(f) && Lookup(args[i]) == Flag(AltKey(f))
    requires ParseFrom(o, out, args, p, stale).ParseOk?
    ensures BitNumber(f) in ParseFrom(o, out, args, p, stale).opts.args.altflags
    decreases |args|
  {
    var k := Lookup(args[0]);
    var s := Apply(o, args[0], k, p, stale);
    var out' := out + s.added + (if s.result == Keep then [args[0]] else []);
    if i == 0 {
      assert s == ApplyFlag(o, AltKey(f), p);
      FlagOptionEffect(o, AltKey(f), p);
      assert BitNumber(f) in s.opts.args.altflags;
      ParseOnlyAdds(s.opts, out', args[1..], p, stale);
    } else {
      assert args[1..][i - 1] == args[i];
      ParseSetsNamedFlags(s.opts, out', args[1..], i - 1, f, p, stale);
    }
  }

  /** An argument no entry matches is handed on to the file system
      unchanged, wherever it appears. */
  lemma {:induction false} ParseKeepsUnknown(o: Options, out: seq<CStr>, args: seq<CStr>, i: nat, p: Platform, stale: U32)
    requires i < |args| && Lookup(args[i]) == UnknownKey
    requires ParseFrom(o, out, args, p, stale).ParseOk?
    ensures args[i] in ParseFrom(o, out, args, p, stale).outargs
    decreases |args|
  {
    var k := Lookup(args[0]);
    var s := Apply(o, args[0], k, p, stale);
    var out' := out + s.added + (if s.result == Keep then [args[0]] else []);
    if i == 0 {
      assert s == Step(Keep, o, []);
      ParseOnlyAdds(s.opts, out', args[1..], p, stale);
      assert out'[|out'| - 1] == args[0];
    } else {
      assert args[1..][i - 1] == args[i];
      ParseKeepsUnknown(s.opts, out', args[1..], i - 1, p, stale);
    }
  }
}
