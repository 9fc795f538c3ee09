/** `fuse_kern_mount` of lib/mount_darwin.c: parse the options, check the
    mount point and the kernel extension, normalise and validate the record,
    clamp the timeouts, open the first free device node, fill in default
    names and call `mount()`.

    The operating system is a set of oracles (`Env`): what `realpath`,
    `stat`, `statfs`, `uname`, the two `sysctlbyname` queries, the loader,
    `open`, `fstat` and `mount` report. */
module KernMount {
  import opened LibC
  import opened FuseParam
  import opened FuseMount
  import opened MountOpts

  // ---- the environment ----

  /** One `sysctlbyname(SYSCTL_FUSE4X_VERSION_NUMBER, ...)`: whether it
      returned 0, the text left in `version` and the length left in
      `version_len`. */
  datatype SysctlReply = SysctlReply(ok: bool, version: CStr, len: nat)

  /** The kext loader run by `fork`/`execl`/`waitpid`. */
  datatype Loader = ForkFailed | WaitFailed | Exited(status: int)

  /** What `open(devpath, O_RDWR)` and then `fstat` report for one device
      node: busy (open fails), or a descriptor with the node's `st_rdev`
      (`None` when `fstat` fails). */
  datatype DeviceOpen = Busy | Opened(fd: nat, rdev: Option<U32>)

  datatype Env = Env(
    realpath: CStr -> Option<PathName>,
    stat: CStr -> Option<bool>,
    statfs: CStr -> Option<CStr>,
    release: Option<CStr>,
    firstQuery: SysctlReply,
    loader: Loader,
    secondQuery: SysctlReply,
    openDevice: CStr -> DeviceOpen,
    mountOk: bool,
    progName: CStr)

  // ---- check_mountpoint ----

  /** `check_mountpoint`: resolve the mount point into `mntpath`, require a
      directory, and refuse one that is itself on a fuse4x volume unless
      `allow_recursion` was given. A missing mount point makes the function
      `return -1`, which a `bool` turns into true: the mount point passes and
      `mntpath` stays empty. */
  function MountpointCheck(mountpoint: Option<CStr>, o: Options, env: Env, p: Platform): (r: (bool, Options))
    ensures r.1 == o || r.1 == o.(args := o.args.(mntpath := r.1.args.mntpath))
    ensures mountpoint.None? ==> r == (true, o)
    ensures mountpoint.Some? ==>
      (env.realpath(mountpoint.value).None? ==> r == (false, o)) &&
      (env.realpath(mountpoint.value).Some? ==> r.1.args.mntpath == env.realpath(mountpoint.value).value)
    ensures mountpoint.Some? && env.realpath(mountpoint.value).Some? &&
      env.stat(env.realpath(mountpoint.value).value) == Some(true) &&
      env.statfs(env.realpath(mountpoint.value).value).Some? &&
      (env.statfs(env.realpath(mountpoint.value).value).value == FstypenamePrefix(p.fsType) ==> o.allowRecursion)
      ==> r.0
    ensures r.0 && mountpoint.Some? ==>
      env.realpath(mountpoint.value) == Some(r.1.args.mntpath) &&
      env.stat(r.1.args.mntpath) == Some(true) &&
      env.statfs(r.1.args.mntpath).Some? &&
      (env.statfs(r.1.args.mntpath).value == FstypenamePrefix(p.fsType) ==> o.allowRecursion)
  {
    match mountpoint
    case None => (true, o)
    case Some(m) =>
      match env.realpath(m)
      case None => (false, o)
      case Some(path) =>
        var o' := o.(args := o.args.(mntpath := path));
        match env.stat(path)
        case None => (false, o')
        case Some(isDir) =>
          if !isDir then (false, o')
          else match env.statfs(path)
            case None => (false, o')
            case Some(fstype) => (!(fstype == FstypenamePrefix(p.fsType) && !o.allowRecursion), o')
  }

  /** The same check on the mutable record: `realpath` writes into
      `opts->fuse_args.mntpath`. */
  method CheckMountpoint(mountpoint: Option<CStr>, opts: MountOptions, env: Env, p: Platform) returns (ok: bool)
    modifies opts
    ensures (ok, opts.Value()) == MountpointCheck(mountpoint, old(opts.Value()), env, p)
  {
    if mountpoint.None? {
      return true;
    }
    var resolved := env.realpath(mountpoint.value);
    if resolved.None? {
      return false;
    }
    opts.fuseArgs := opts.fuseArgs.(mntpath := resolved.value);
    var isDir := env.stat(opts.fuseArgs.mntpath);
    if isDir.None? || !isDir.value {
      return false;
    }
    var fstype := env.statfs(opts.fuseArgs.mntpath);
    if fstype.None? {
      return false;
    }
    if fstype.value == FstypenamePrefix(p.fsType) && !opts.allowRecursion {
      return false;
    }
    return true;
  }

  // ---- check_os_kernel_version and check_kext_version ----

  /** `check_os_kernel_version`: the kernel release up to its first `.`
      must read as a decimal number of at least 10 (Mac OS X 10.6). */
  function OsVersionOk(release: Option<CStr>): (ok: bool)
    ensures ok ==> release.Some? && '.' in release.value
  {
    match release
    case None => false
    case Some(r) =>
      match StrChr(r, '.')
      case None => false
      case Some(i) =>
        match StrToL(r[..i])
        case Converted(major) => major >= 10
        case _ => false
  }

  /** Why `check_kext_version` refused, or that it accepted. */
  datatype KextVerdict = KextOk | OsTooOld | KextNotLoaded | VersionMismatch

  /** What `waitpid` leaves in `result`: -1 when the fork or the wait failed. */
  function LoaderResult(l: Loader): int
  {
    match l
    case ForkFailed => -1
    case WaitFailed => -1
    case Exited(status) => status
  }

  /** `check_kext_version`: the OS must be recent enough; when the first
      version query fails the loader is run, and its failure refuses the
      mount; the answer of the second query is used without being checked.
      The library's version is compared with `strncmp` bounded by the
      length the kernel reported. */
  function CheckKext(env: Env, p: Platform): (v: KextVerdict)
    ensures v == KextOk ==> OsVersionOk(env.release)
    ensures !OsVersionOk(env.release) <==> v == OsTooOld
    ensures v == KextNotLoaded <==> OsVersionOk(env.release) && !env.firstQuery.ok && LoaderResult(env.loader) != 0
  {
    if !OsVersionOk(env.release) then OsTooOld
    else if !env.firstQuery.ok && LoaderResult(env.loader) != 0 then KextNotLoaded
    else
      var reply := if env.firstQuery.ok then env.firstQuery else env.secondQuery;
      if StrnEq(p.version, reply.version, reply.len) then KextOk else VersionMismatch
  }

  // ---- normalisation and the rejection rules ----

  /** `altflags & FUSE_MOPT_x`. */
  predicate Has(a: MountArgs, f: Mopt)
  {
    BitNumber(f) in a.altflags
  }

  /** `MNT_LOCAL` is repeated as `FUSE_MOPT_LOCALVOL`. */
  function MarkLocal(o: Options): (r: Options)
    ensures LOCAL in o.standard ==> Has(r.args, LOCALVOL)
    ensures LOCAL !in o.standard ==> r == o
    ensures r.args.altflags - {BitNumber(LOCALVOL)} == o.args.altflags - {BitNumber(LOCALVOL)}
  {
    if LOCAL in o.standard then WithAltflags(o, {BitNumber(LOCALVOL)}) else o
  }

  method MarkLocalVol(opts: MountOptions)
    modifies opts
    ensures opts.Value() == MarkLocal(old(opts.Value()))
  {
    if LOCAL in opts.standardArgs {
      OrAltflags(opts, {BitNumber(LOCALVOL)});
    }
  }

  /** The combinations the mount code refuses, in the order it tests them. */
  datatype Violation =
    | AllowOtherWithAllowRoot
    | NegativeVncacheWithNoVncache
    | NoSyncwritesWithCaching
    | DefaultWithDeferPermissions
    | AutoWithNativeXattr
    | FsidOutOfRange

  /** The first rule the record breaks. */
  function FirstViolation(a: MountArgs): (r: Option<Violation>)
    ensures r.Some? ==> Breaks(a, r.value)
  {
    MinorMaskBound(a.fsid);
    if Has(a, ALLOW_OTHER) && Has(a, ALLOW_ROOT) then Some(AllowOtherWithAllowRoot)
    else if Has(a, NEGATIVE_VNCACHE) && Has(a, NO_VNCACHE) then Some(NegativeVncacheWithNoVncache)
    else if Has(a, NO_SYNCWRITES) && (Has(a, NO_UBC) || Has(a, NO_READAHEAD)) then Some(NoSyncwritesWithCaching)
    else if Has(a, DEFAULT_PERMISSIONS) && Has(a, DEFER_PERMISSIONS) then Some(DefaultWithDeferPermissions)
    else if Has(a, AUTO_XATTR) && Has(a, NATIVE_XATTR) then Some(AutoWithNativeXattr)
    else if OutsideMinor(a.fsid) != 0 then Some(FsidOutOfRange)
    else None
  }

  /** The record each rule states: a rule is broken exactly when its pair
      of flags is present (or the `fsid` has a bit above the minor mask). */
  predicate Breaks(a: MountArgs, v: Violation)
  {
    match v
    case AllowOtherWithAllowRoot => Has(a, ALLOW_OTHER) && Has(a, ALLOW_ROOT)
    case NegativeVncacheWithNoVncache => Has(a, NEGATIVE_VNCACHE) && Has(a, NO_VNCACHE)
    case NoSyncwritesWithCaching => Has(a, NO_SYNCWRITES) && (Has(a, NO_UBC) || Has(a, NO_READAHEAD))
    case DefaultWithDeferPermissions => Has(a, DEFAULT_PERMISSIONS) && Has(a, DEFER_PERMISSIONS)
    case AutoWithNativeXattr => Has(a, AUTO_XATTR) && Has(a, NATIVE_XATTR)
    case FsidOutOfRange => a.fsid >= 0x100_0000
  }

  /** The record is refused exactly when it breaks some rule, and the rule
      reported is one it breaks. */
  lemma ViolationIffBroken(a: MountArgs, v: Violation)
    ensures FirstViolation(a).None? ==> !Breaks(a, v)
    ensures FirstViolation(a) == Some(v) ==> Breaks(a, v)
    ensures Breaks(a, v) ==> FirstViolation(a).Some?
  {
    MinorMaskBound(a.fsid);
  }

  /** A rule looks only at the fuse4x flags and the `fsid`. */
  lemma BreaksReadsFlagsAndFsid(a: MountArgs, b: MountArgs, v: Violation)
    requires a.altflags == b.altflags && a.fsid == b.fsid
    ensures Breaks(a, v) == Breaks(b, v)
  {
  }

  // ---- clamping ----

  /** The timeout clamp: first raise to `lo`, then lower to `hi`. */
  function Clamp(v: U32, lo: U32, hi: U32): (r: U32)
    ensures lo <= hi ==> lo <= r <= hi
    ensures lo <= v <= hi ==> r == v
    ensures r == v || r == lo || r == hi
  {
    var raised := if v < lo then lo else v;
    if raised > hi then hi else raised
  }

  /** Clamping twice is clamping once. */
  lemma ClampIdempotent(v: U32, lo: U32, hi: U32)
    requires lo <= hi
    ensures Clamp(Clamp(v, lo, hi), lo, hi) == Clamp(v, lo, hi)
  {
  }

  /** Both timeouts brought within their bounds. */
  function ClampTimeouts(o: Options, p: Platform): (r: Options)
    ensures r == o.(args := o.args.(daemonTimeout := r.args.daemonTimeout, initTimeout := r.args.initTimeout))
    ensures FUSE_MIN_DAEMON_TIMEOUT <= r.args.daemonTimeout <= FUSE_MAX_DAEMON_TIMEOUT
    ensures p.initTimeoutMin <= p.initTimeoutMax ==> p.initTimeoutMin <= r.args.initTimeout <= p.initTimeoutMax
    ensures o.args.daemonTimeout <= FUSE_MAX_DAEMON_TIMEOUT ==> r.args.daemonTimeout == o.args.daemonTimeout
  {
    o.(args := o.args.(
      daemonTimeout := Clamp(o.args.daemonTimeout, FUSE_MIN_DAEMON_TIMEOUT, FUSE_MAX_DAEMON_TIMEOUT),
      initTimeout := Clamp(o.args.initTimeout, p.initTimeoutMin, p.initTimeoutMax)))
  }

  method ClampTimeoutFields(opts: MountOptions, p: Platform)
    modifies opts
    ensures opts.Value() == ClampTimeouts(old(opts.Value()), p)
  {
    // The test against FUSE_MIN_DAEMON_TIMEOUT never holds: the minimum is 0
    // and the field is unsigned.
    if opts.fuseArgs.daemonTimeout > FUSE_MAX_DAEMON_TIMEOUT {
      opts.fuseArgs := opts.fuseArgs.(daemonTimeout := FUSE_MAX_DAEMON_TIMEOUT);
    }
    if opts.fuseArgs.initTimeout < p.initTimeoutMin {
      opts.fuseArgs := opts.fuseArgs.(initTimeout := p.initTimeoutMin);
    }
    if opts.fuseArgs.initTimeout > p.initTimeoutMax {
      opts.fuseArgs := opts.fuseArgs.(initTimeout := p.initTimeoutMax);
    }
  }

  // ---- device selection ----

  /** The path written into `devpath` for device `i`. */
  function DevPath(i: nat): CStr
  {
    Bounded(DevicePath(i), MAXPATHLEN - 1)
  }

  /** Whether device `i` can be opened. */
  predicate Free(env: Env, i: nat)
  {
    env.openDevice(DevPath(i)).Opened?
  }

  /** The first device at or after `i` that opens. */
  function FirstFree(env: Env, i: nat): (k: Option<nat>)
    requires i <= FUSE4X_NDEVICES
    ensures k.Some? ==> i <= k.value < FUSE4X_NDEVICES && Free(env, k.value)
    ensures forall j | i <= j < FUSE4X_NDEVICES && (k.None? || j < k.value) :: !Free(env, j)
    decreases FUSE4X_NDEVICES - i
  {
    if i == FUSE4X_NDEVICES then None
    else if Free(env, i) then Some(i)
    else FirstFree(env, i + 1)
  }

  /** The scan loop: returns the index opened (or -1) and its descriptor. */
  method FindDevice(env: Env) returns (deviceNo: int, fd: int)
    ensures FirstFree(env, 0).None? ==> deviceNo == -1
    ensures FirstFree(env, 0).Some? ==>
      deviceNo == FirstFree(env, 0).value && fd == env.openDevice(DevPath(deviceNo)).fd
  {
    deviceNo, fd := -1, -1;
    var i := 0;
    while i < FUSE4X_NDEVICES
      invariant 0 <= i <= FUSE4X_NDEVICES
      invariant FirstFree(env, i) == FirstFree(env, 0)
    {
      var outcome := env.openDevice(DevPath(i));
      if outcome.Opened? {
        deviceNo, fd := i, outcome.fd;
        return;
      }
      i := i + 1;
    }
  }

  // ---- default names ----

  /** `snprintf(fsname, MAXPATHLEN, "%s@fuse%d", getprogname(), device_no)`. */
  function DefaultFsname(progName: CStr, k: nat): PathName
  {
    Bounded(progName + "@fuse" + Decimal(k), MAXPATHLEN)
  }

  /** `snprintf(volname, MAXPATHLEN, "fuse4x volume %d (%s)", device_no, getprogname())`. */
  function DefaultVolname(progName: CStr, k: nat): PathName
  {
    Bounded("fuse4x volume " + Decimal(k) + " (" + progName + ")", MAXPATHLEN)
  }

  /** An empty `fsname` or `volname` is filled in from the device number. */
  function WithDefaultNames(o: Options, k: nat, progName: CStr): (r: Options)
    ensures r.args.fsname != [] && r.args.volname != []
    ensures o.args.fsname != [] ==> r.args.fsname == o.args.fsname
    ensures o.args.volname != [] ==> r.args.volname == o.args.volname
    ensures o.args.fsname == [] ==> r.args.fsname == DefaultFsname(progName, k)
    ensures o.args.volname == [] ==> r.args.volname == DefaultVolname(progName, k)
    ensures r == o.(args := o.args.(fsname := r.args.fsname, volname := r.args.volname))
  {
    var fs := if o.args.fsname == [] then DefaultFsname(progName, k) else o.args.fsname;
    var vol := if o.args.volname == [] then DefaultVolname(progName, k) else o.args.volname;
    o.(args := o.args.(fsname := fs, volname := vol))
  }

  method FillDefaultNames(opts: MountOptions, k: nat, progName: CStr)
    modifies opts
    ensures opts.Value() == WithDefaultNames(old(opts.Value()), k, progName)
  {
    if opts.fuseArgs.fsname == [] {
      opts.fuseArgs := opts.fuseArgs.(fsname := DefaultFsname(progName, k));
    }
    if opts.fuseArgs.volname == [] {
      opts.fuseArgs := opts.fuseArgs.(volname := DefaultVolname(progName, k));
    }
  }

  // ---- the whole of fuse_kern_mount ----

  /** Where `fuse_kern_mount` gave up. */
  datatype Stage =
    | ParseError
    | BadMountpoint
    | BadKext(verdict: KextVerdict)
    | Rejected(rule: Violation)
    | NoDevice
    | FstatFailed
    | MountFailed

  /** The `mount(FUSE4X_FS_TYPE, mntpath, standard_args, &fuse_args)` call. */
  datatype MountCall = MountCall(fsType: CStr, dir: PathName, flags: set<StdFlag>, args: MountArgs)

  /** The value returned (the device's descriptor, or -1), why it failed,
      how many device nodes were opened or tried, and the `mount()` call
      made, if any. */
  datatype KernResult = KernResult(ret: int, failure: Option<Stage>, tried: nat, call: Option<MountCall>)

  function Failure(s: Stage, tried: nat, call: Option<MountCall>): KernResult
  {
    KernResult(-1, Some(s), tried, call)
  }

  /** From the device scan on. */
  function Attach(o: Options, env: Env, p: Platform): (r: KernResult)
    ensures r.call.Some? <==>
      FirstFree(env, 0).Some? && env.openDevice(DevPath(FirstFree(env, 0).value)).rdev.Some?
    ensures r.failure.None? <==> r.call.Some? && env.mountOk
    ensures r.call.Some? ==> r.call.value.dir == o.args.mntpath && r.call.value.flags == o.standard
  {
    match FirstFree(env, 0)
    case None => Failure(NoDevice, FUSE4X_NDEVICES, None)
    case Some(k) =>
      var dev := env.openDevice(DevPath(k));
      match dev.rdev
      case None => Failure(FstatFailed, k + 1, None)
      case Some(rdev) =>
        var o' := WithDefaultNames(o.(args := o.args.(rdev := rdev)), k, env.progName);
        var call := MountCall(p.fsType, o'.args.mntpath, o'.standard, o'.args);
        if env.mountOk then KernResult(dev.fd, None, k + 1, Some(call))
        else Failure(MountFailed, k + 1, Some(call))
  }

  /** From the mount-point check on, once the options are parsed. */
  function AfterParse(mountpoint: Option<CStr>, o: Options, env: Env, p: Platform): (r: KernResult)
    ensures r.failure != Some(ParseError)
    ensures r.tried > 0 ==>
      MountpointCheck(mountpoint, o, env, p).0 && CheckKext(env, p) == KextOk &&
      FirstViolation(MarkLocal(MountpointCheck(mountpoint, o, env, p).1).args).None?
  {
    var (ok, o1) := MountpointCheck(mountpoint, o, env, p);
    if !ok then Failure(BadMountpoint, 0, None)
    else
      var verdict := CheckKext(env, p);
      if verdict != KextOk then Failure(BadKext(verdict), 0, None)
      else
        var o2 := MarkLocal(o1);
        match FirstViolation(o2.args)
        case Some(v) => Failure(Rejected(v), 0, None)
        case None => Attach(ClampTimeouts(o2, p), env, p)
  }

  /** `fuse_kern_mount(mountpoint, args)`; `args == None` stands for a NULL
      argument list, which skips the parse. */
  function KernMountSpec(mountpoint: Option<CStr>, args: Option<seq<CStr>>, env: Env, p: Platform, stale: U32): (r: KernResult)
    ensures r.failure == Some(ParseError) <==> args.Some? && Parse(Defaults(p), args.value, p, stale).ParseFailed?
    ensures args.None? ==> r == AfterParse(mountpoint, Defaults(p), env, p)
  {
    var parsed := if args.None? then ParseOk(Defaults(p), []) else Parse(Defaults(p), args.value, p, stale);
    match parsed
    case ParseFailed => Failure(ParseError, 0, None)
    case ParseOk(o, _) => AfterParse(mountpoint, o, env, p)
  }

  method KernMount(mountpoint: Option<CStr>, args: Option<seq<CStr>>, env: Env, p: Platform, stale: U32) returns (r: KernResult)
    ensures r == KernMountSpec(mountpoint, args, env, p, stale)
  {
    var opts := new MountOptions(p);
    if args.Some? {
      var ok, _ := ParseArgs(opts, args.value, p, stale);
      if !ok {
        return Failure(ParseError, 0, None);
      }
    }
    ghost var parsed := opts.Value();
    var ok := CheckMountpoint(mountpoint, opts, env, p);
    if !ok {
      return Failure(BadMountpoint, 0, None);
    }
    var verdict := CheckKext(env, p);
    if verdict != KextOk {
      return Failure(BadKext(verdict), 0, None);
    }
    MarkLocalVol(opts);
    var violation := FirstViolation(opts.fuseArgs);
    if violation.Some? {
      return Failure(Rejected(violation.value), 0, None);
    }
    ClampTimeoutFields(opts, p);
    assert AfterParse(mountpoint, parsed, env, p) == Attach(opts.Value(), env, p);
    r := AttachDevice(opts, env, p);
  }

  /** The device scan, `fstat`, default names and the `mount()` call. */
  method AttachDevice(opts: MountOptions, env: Env, p: Platform) returns (r: KernResult)
    modifies opts
    ensures r == Attach(old(opts.Value()), env, p)
  {
    var deviceNo, fd := FindDevice(env);
    if deviceNo == -1 {
      return Failure(NoDevice, FUSE4X_NDEVICES, None);
    }
    var rdev := env.openDevice(DevPath(deviceNo)).rdev;
    if rdev.None? {
      return Failure(FstatFailed, deviceNo + 1, None);
    }
    opts.fuseArgs := opts.fuseArgs.(rdev := rdev.value);
    FillDefaultNames(opts, deviceNo, env.progName);
    var call := MountCall(p.fsType, opts.fuseArgs.mntpath, opts.standardArgs, opts.fuseArgs);
    if !env.mountOk {
      return Failure(MountFailed, deviceNo + 1, Some(call));
    }
    return KernResult(fd, None, deviceNo + 1, Some(call));
  }

  // ---- properties of fuse_kern_mount ----

  /** The release `<n>.<rest>` passes the OS check exactly when `n >= 10`;
      a release without a `.` never passes. */
  lemma OsVersionOfRelease(n: nat, rest: CStr, r: CStr)
    requires n <= LONG_MAX
    ensures OsVersionOk(Some(Decimal(n) + "." + rest)) <==> n >= 10
    ensures '.' !in r ==> !OsVersionOk(Some(r))
  {
    ReleaseMajor(n, rest);
    StrToLNumeral(n);
    ReleaseWithoutDot(r);
  }

  /** In `<n>.<rest>` the first `.` ends the numeral. */
  lemma ReleaseMajor(n: nat, rest: CStr)
    ensures var rel := Decimal(n) + "." + rest;
      StrChr(rel, '.') == Some(|Decimal(n)|) && rel[..|Decimal(n)|] == Decimal(n)
  {
    var rel := Decimal(n) + "." + rest;
    DecimalHasNo(n, '.');
    assert rel[|Decimal(n)|] == '.';
    assert rel[..|Decimal(n)|] == Decimal(n);
  }

  /** Without a `.` there is no major number to read. */
  lemma ReleaseWithoutDot(r: CStr)
    ensures '.' !in r ==> !OsVersionOk(Some(r))
  {
  }

  /** Once the OS check passes and a version query has answered, the kext
      is accepted exactly when the library's version and the kernel's agree
      on their first `len` characters, where `len` is the length the kernel
      reported: a length of 0 accepts any version. */
  lemma KextVersionCompare(env: Env, p: Platform)
    requires OsVersionOk(env.release)
    requires env.firstQuery.ok || LoaderResult(env.loader) == 0
    ensures var reply := if env.firstQuery.ok then env.firstQuery else env.secondQuery;
      (CheckKext(env, p) == KextOk <==> Take(p.version, reply.len) == Take(reply.version, reply.len)) &&
      (CheckKext(env, p) != KextOk ==> CheckKext(env, p) == VersionMismatch) &&
      (reply.len == 0 || reply.version == p.version ==> CheckKext(env, p) == KextOk)
  {
    var reply := if env.firstQuery.ok then env.firstQuery else env.secondQuery;
    StrnEqIsTakeEq(p.version, reply.version, reply.len);
  }

  /** The return convention from the device scan on. */
  lemma AttachConvention(o: Options, env: Env, p: Platform)
    ensures var r := Attach(o, env, p);
      && (r.ret == -1 <==> r.failure.Some?)
      && (r.failure.None? ==>
            && r.ret >= 0 && r.call.Some? && FirstFree(env, 0).Some?
            && r.ret == env.openDevice(DevPath(FirstFree(env, 0).value)).fd)
      && (r.failure.Some? ==> r.failure.value in {NoDevice, FstatFailed, MountFailed})
  {
  }

  /** `fuse_kern_mount` returns -1 exactly when it fails, and the device's
      descriptor otherwise; every failure before the device scan leaves all
      device nodes untouched and makes no `mount()` call. */
  lemma ReturnConvention(mountpoint: Option<CStr>, args: Option<seq<CStr>>, env: Env, p: Platform, stale: U32)
    ensures var r := KernMountSpec(mountpoint, args, env, p, stale);
      && (r.ret == -1 <==> r.failure.Some?)
      && (r.failure.None? ==>
            && r.ret >= 0 && r.call.Some? && FirstFree(env, 0).Some?
            && r.ret == env.openDevice(DevPath(FirstFree(env, 0).value)).fd)
      && (r.failure.Some? && !(r.failure.value in {NoDevice, FstatFailed, MountFailed}) ==> r.tried == 0 && r.call.None?)
  {
    var parsed := if args.None? then ParseOk(Defaults(p), []) else Parse(Defaults(p), args.value, p, stale);
    if parsed.ParseOk? {
      var o := parsed.opts;
      var (ok, o1) := MountpointCheck(mountpoint, o, env, p);
      var o2 := MarkLocal(o1);
      if ok && CheckKext(env, p) == KextOk && FirstViolation(o2.args).None? {
        AttachConvention(ClampTimeouts(o2, p), env, p);
        assert AfterParse(mountpoint, o, env, p) == Attach(ClampTimeouts(o2, p), env, p);
      }
    }
  }

  /** A record that breaks a rule is refused before any device is opened,
      with the first rule it breaks. */
  lemma BrokenRuleRefuses(mountpoint: Option<CStr>, o: Options, env: Env, p: Platform, v: Violation)
    requires MountpointCheck(mountpoint, o, env, p).0 && CheckKext(env, p) == KextOk
    requires Breaks(MarkLocal(MountpointCheck(mountpoint, o, env, p).1).args, v)
    ensures var r := AfterParse(mountpoint, o, env, p);
      r.ret == -1 && r.failure.Some? && r.failure.value.Rejected? && r.tried == 0 && r.call.None?
  {
    ViolationIffBroken(MarkLocal(MountpointCheck(mountpoint, o, env, p).1).args, v);
  }

  /** What the device scan, `fstat` and the default names do to the
      record handed to `mount()`: they set `rdev` and the names only. */
  lemma AttachRecord(o: Options, env: Env, p: Platform)
    ensures var r := Attach(o, env, p);
      r.call.Some? ==>
        var c := r.call.value;
        && c.args == o.args.(rdev := c.args.rdev, fsname := c.args.fsname, volname := c.args.volname)
        && c.flags == o.standard
        && c.args.fsname != [] && c.args.volname != []
        && c.fsType == p.fsType && c.dir == c.args.mntpath
        && FirstFree(env, 0).Some?
        && Some(c.args.rdev) == env.openDevice(DevPath(FirstFree(env, 0).value)).rdev
        && r.tried == FirstFree(env, 0).value + 1
  {
  }

  /** Whatever record the parse produced, the record handed to `mount()`
      obeys every rule, has both timeouts within bounds and carries
      `LOCALVOL` when `MNT_LOCAL` is set; the rest of the call is as
      `AttachRecord` states. */
  lemma MountedRecord(mountpoint: Option<CStr>, o: Options, env: Env, p: Platform, v: Violation)
    requires p.Valid()
    ensures var r := AfterParse(mountpoint, o, env, p);
      r.call.Some? ==>
        var c := r.call.value;
        && !Breaks(c.args, v)
        && FUSE_MIN_DAEMON_TIMEOUT <= c.args.daemonTimeout <= FUSE_MAX_DAEMON_TIMEOUT
        && p.initTimeoutMin <= c.args.initTimeout <= p.initTimeoutMax
        && (LOCAL in c.flags ==> Has(c.args, LOCALVOL))
  {
    var (ok, o1) := MountpointCheck(mountpoint, o, env, p);
    var o2 := MarkLocal(o1);
    if ok && CheckKext(env, p) == KextOk && FirstViolation(o2.args).None? {
      var o3 := ClampTimeouts(o2, p);
      assert AfterParse(mountpoint, o, env, p) == Attach(o3, env, p);
      AttachRecord(o3, env, p);
      ViolationIffBroken(o2.args, v);
      var c := Attach(o3, env, p).call;
      if c.Some? {
        assert c.value.args.altflags == o2.args.altflags && c.value.args.fsid == o2.args.fsid;
        BreaksReadsFlagsAndFsid(c.value.args, o2.args, v);
      }
    }
  }

  /** The call is made on the resolved mount point (on the record's own
      path when the mount point is NULL), with the standard flags the parse
      collected; the sizes, the type names and the fsid reach the kernel
      as parsed, never range-checked, and of the fuse4x flags only
      `LOCALVOL` may have been added. */
  lemma MountedRecordKeeps(mountpoint: Option<CStr>, o: Options, env: Env, p: Platform)
    ensures var r := AfterParse(mountpoint, o, env, p);
      r.call.Some? ==>
        var c := r.call.value;
        && (mountpoint.Some? ==> Some(c.dir) == env.realpath(mountpoint.value))
        && (mountpoint.None? ==> c.dir == o.args.mntpath)
        && c.args.blocksize == o.args.blocksize && c.args.iosize == o.args.iosize
        && c.args.fstypename == o.args.fstypename && c.args.fssubtype == o.args.fssubtype
        && c.args.fsid == o.args.fsid && c.flags == o.standard
        && c.args.altflags - {BitNumber(LOCALVOL)} == o.args.altflags - {BitNumber(LOCALVOL)}
  {
    var (ok, o1) := MountpointCheck(mountpoint, o, env, p);
    var o2 := MarkLocal(o1);
    if ok && CheckKext(env, p) == KextOk && FirstViolation(o2.args).None? {
      var o3 := ClampTimeouts(o2, p);
      assert AfterParse(mountpoint, o, env, p) == Attach(o3, env, p);
      AttachRecord(o3, env, p);
    }
  }

  /** The mount fails for want of a device exactly when none of the 24
      device nodes opens. */
  lemma NoDeviceIffAllBusy(o: Options, env: Env, p: Platform)
    ensures Attach(o, env, p).failure == Some(NoDevice) <==> forall j | 0 <= j < FUSE4X_NDEVICES :: !Free(env, j)
  {
    if Attach(o, env, p).failure == Some(NoDevice) {
      assert FirstFree(env, 0).None?;
    } else {
      assert FirstFree(env, 0).Some?;
    }
  }

  /** Otherwise the device used is the lowest-numbered node that opens. */
  lemma LowestFreeDevice(o: Options, env: Env, p: Platform)
    requires Attach(o, env, p).failure != Some(NoDevice)
    ensures var k := Attach(o, env, p).tried - 1;
      0 <= k < FUSE4X_NDEVICES && Free(env, k) && forall j | 0 <= j < k :: !Free(env, j)
  {
    assert FirstFree(env, 0).Some?;
  }

  /** For a program name of ordinary length the default names are printed
      in full. */
  lemma DefaultNamesInFull(progName: CStr, k: nat)
    requires k < FUSE4X_NDEVICES && |progName| < MAXPATHLEN - 32
    ensures DefaultFsname(progName, k) == progName + "@fuse" + Decimal(k)
    ensures DefaultVolname(progName, k) == "fuse4x volume " + Decimal(k) + " (" + progName + ")"
  {
    DevicePathsDistinct(k, k);
  }

  /** The recursion test compares the whole type name: a mount point on a
      volume whose type name merely begins with the fuse4x prefix passes
      even without `allow_recursion`, while the prefix itself is refused. */
  lemma RecursionTestIsExact(m: CStr, o: Options, env: Env, p: Platform, suffix: CStr)
    requires env.realpath(m).Some? && env.stat(env.realpath(m).value) == Some(true)
    requires env.statfs(env.realpath(m).value) == Some(FstypenamePrefix(p.fsType) + suffix)
    ensures MountpointCheck(Some(m), o, env, p).0 <==> suffix != [] || o.allowRecursion
  {
    if suffix != [] {
      assert |FstypenamePrefix(p.fsType) + suffix| != |FstypenamePrefix(p.fsType)|;
    } else {
      assert FstypenamePrefix(p.fsType) + suffix == FstypenamePrefix(p.fsType);
    }
  }

  /** With no mount point at all (and no options) the mount-point test passes, and
      the volume is mounted on the empty path left by `memset`. */
  lemma NullMountpointMountsOnEmptyPath(env: Env, p: Platform)
    requires CheckKext(env, p) == KextOk && FirstFree(env, 0).Some?
    requires env.openDevice(DevPath(FirstFree(env, 0).value)).rdev.Some?
    ensures var r := AfterParse(None, Defaults(p), env, p);
      r.call.Some? && r.call.value.dir == ""
  {
    var o := Defaults(p);
    assert MountpointCheck(None, o, env, p) == (true, o);
    assert MarkLocal(o) == o;
    assert FirstViolation(o.args).None?;
    assert AfterParse(None, o, env, p) == Attach(ClampTimeouts(o, p), env, p);
    AttachRecord(ClampTimeouts(o, p), env, p);
  }
}
