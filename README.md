# fuse4x mount path and example file system, in Dafny

This project models the user-space mount path of fuse4x, the FUSE
implementation for Mac OS X, and the pass-through example file system that
ships with it.

**The mount path** is `lib/mount_darwin.c`, with the records and constants of
`include/fuse_mount.h` and `include/fuse_param.h`. It covers:
- the option table and its handler, `fuse_mount_opt_proc`;
- the checks of the mount point, of the OS release and of the kernel
  extension's version;
- `fuse_kern_mount`. It fills a `struct mount_options` with defaults and
  parses the options into it. It marks `MNT_LOCAL` volumes and refuses six
  combinations of options. It clamps the timeouts and opens the first free
  `/dev/fuse4x<n>` node. It fills in default names, then calls `mount()`.

**The example file system** is `example/fusexmp.c`. It covers:
- the renaming of `com.apple.system.Security` to `org.apple.system.Security`;
- the clearing of `XATTR_NOSECURITY`;
- the in-place filter that hides the stored name from a `listxattr` buffer;
- the ordered system calls of `fsetattr_x`;
- `readdir`, `readlink` and `utimens`;
- the convention of returning 0, a count, or `-errno`.

Modules follow the sources:

| module | file | models |
|---|---|---|
| `LibC` | `libc.dfy` | the C library routines these sources rely on: `strncmp`, `strchr`, `strlcpy`, a bounded `snprintf`, `sscanf("%u")` and `strtol` |
| `FuseParam` | `fuse_param.dfy` | `include/fuse_param.h` |
| `FuseMount` | `fuse_mount.dfy` | `include/fuse_mount.h` |
| `MountOpts` | `mount_options.dfy` | the option table, `fuse_mount_opt_proc` and the parse loop |
| `KernMount` | `kern_mount.dfy` | the checks and `fuse_kern_mount` |
| `Fusexmp` | `fusexmp.dfy` | `example/fusexmp.c` |

**State.** The source keeps its state in a `struct mount_options` that
several functions update in place. It is modelled as the class
`MountOptions`, and every method that updates the record is proved equal
to a function on its value (`Options`). The listxattr filter works in place
on a `char` array, so its model keeps the `array`.

**The operating system.** Calls into the operating system are oracles that
the model takes as parameters (`Env`, `Sys`, `sys: Call -> Sys`):
- `realpath`, `stat` and `statfs`;
- `uname` and the two `sysctlbyname` queries;
- the kext loader (`fork`/`execl`/`waitpid`);
- `open`, `fstat` and `mount`;
- the pass-through calls of the example.

## Model

| member | source | states |
|---|---|---|
| `LibC.Take` | lib/mount_darwin.c:430 | the first `n` characters of a string, as the bound of `strncmp`: a prefix of the string, `n` characters long or the whole string when it is shorter |
| `LibC.StrnEq` | lib/mount_darwin.c:430 | `strncmp(a, b, n) == 0`, compared character by character up to `n` characters or a shared terminator: a string always compares equal to itself (by induction on `n`) |
| `LibC.StrnEqIsTakeEq` | lib/mount_darwin.c:430 | `strncmp(a, b, n) == 0` holds exactly when the first `n` characters of the two strings agree |
| `LibC.StrnEqPrefix` | example/fusexmp.c:516 | `strncmp(name, p, strlen(p)) == 0` is exactly the test that `p` is a prefix of `name` |
| `LibC.StrChr` | lib/mount_darwin.c:347 | `strchr` finds the first occurrence of the character, and returns nothing exactly when the character is absent |
| `LibC.StrlCpy` | lib/mount_darwin.c:185-191 | `strlcpy` leaves a prefix of the source shorter than the buffer (all of it when it fits) and returns the source's length |
| `LibC.Bounded` | lib/mount_darwin.c:264-265 | `snprintf` into a buffer of `size` characters leaves a prefix of the formatted text shorter than `size`, and all of it when it fits |
| `LibC.Decimal` | lib/mount_darwin.c:589 | `%d` of a non-negative number is a non-empty run of digits without a leading zero |
| `LibC.DecimalValue` | lib/mount_darwin.c:589 | reading back the printed numeral gives the number printed |
| `LibC.DecimalInjective` | lib/mount_darwin.c:589 | two different numbers never print the same numeral |
| `LibC.Wrap32Fits` | lib/mount_darwin.c:177-181 | storing into the `uint32_t` keeps a value that already fits 32 bits |
| `LibC.ConvertUnsigned` | lib/mount_darwin.c:177 | the `%u` conversion after the literal reports `EOF` exactly when only white space remains; a sign with no digit after it is a matching failure; digits are read by `strtoumax`, which saturates above 2^64 - 1, and the low 32 bits are stored |
| `LibC.ScanUnsigned` | lib/mount_darwin.c:177 | `sscanf(arg, "name=%u")` converts only after the whole literal matched, and reports `EOF` only when nothing but white space follows it |
| `LibC.ScanNumeral` | lib/mount_darwin.c:177 | `sscanf(arg, "name=%u")` on `name=` followed by a numeral below 2^32 converts exactly that number |
| `LibC.ScanSaturates` | lib/mount_darwin.c:177 | a numeral above 2^64 - 1 after `name=` saturates in `strtoumax`, and the 32-bit store keeps all ones |
| `LibC.ScanEofOnBlank` | lib/mount_darwin.c:177 | `sscanf` returns EOF when nothing but white space follows `name=` |
| `LibC.StrToL` | lib/mount_darwin.c:354-358 | a value `strtol` reports without `ERANGE` fits a 64-bit `long` |
| `LibC.StrToLNumeral` | lib/mount_darwin.c:355 | `strtol` of a numeral that fits a `long` yields its value |
| `LibC.CDiv` | example/fusexmp.c:256 | C's `/` truncates toward zero: the quotient has the dividend's sign and a magnitude equal to the magnitude of `a` divided by `b`, rounded down |
| `FuseParam.DefaultsWithinBounds` | include/fuse_param.h:46-75 | every default lies within its minimum and maximum; the default I/O size is the maximum and at least the default block size; every I/O size fits 32 bits |
| `FuseParam.DevicePathsDistinct` | include/fuse_param.h:27-39 | the 24 device nodes `/dev/fuse4x<n>` have pairwise distinct names, each shorter than `MAXPATHLEN - 1` |
| `FuseMount.BitNumber` | include/fuse_mount.h:45-75 | every mount-time flag is a bit below 32 |
| `FuseMount.MoptBitIsBitNumber` | include/fuse_mount.h:45-75 | each `FUSE_MOPT_x` is `1 << n` for the bit number the header gives it |
| `FuseMount.FlagOfBitInverts` | include/fuse_mount.h:45-75 | each bit number belongs to one flag only, so the map from flags to bits is injective |
| `FuseMount.MoptBitsDistinct` | include/fuse_mount.h:45-75 | every flag is a single bit, and two distinct flags share no bit |
| `FuseMount.FlagsAreAssigned` | include/fuse_mount.h:45-75 | every flag lies inside the 29 assigned bits |
| `FuseMount.UnassignedBits` | include/fuse_mount.h:45-75 | the assigned bits are exactly bits 0-31 less 14, 16 and 26, and those three bit numbers are the only ones below 32 without a flag |
| `FuseMount.MinorMaskBound` | include/fuse_mount.h:77 | `fsid & ~FUSE_MINOR_MASK` is zero exactly when `fsid` is at most `0xFFFFFF` |
| `FuseMount.WireLayoutHasNoPadding` | include/fuse_mount.h:19-34 | every field of `struct fuse_mount_args` is at a multiple of its alignment and the record is 3120 bytes, a multiple of 8, so 32- and 64-bit code agree on its layout |
| `FuseMount.FstypenameFits` | include/fuse_mount.h:39-42 | a type name of at most `FUSE_FSTYPENAME_MAXLEN` after the prefix fits an `MFSTYPENAMELEN` buffer with one character to spare |
| `MountOpts.LookupFrom` | lib/mount_darwin.c:106-169 | the key of the first matching table entry from `i` on; unknown exactly when no entry matches; a value key only for an argument that starts with its `name=`; a flag key only for an exact match |
| `MountOpts.Lookup` | lib/mount_darwin.c:106-169 | the same properties over the whole option table |
| `MountOpts.Defaults` | lib/mount_darwin.c:507-512 | the record after `memset` and the defaults: no flag, standard flag, `quiet` or `allow_recursion` set; on a consistent platform the block size, I/O size and both timeouts lie within their bounds |
| `MountOpts.MountOptions.constructor` | lib/mount_darwin.c:507-512 | the record is zeroed, then given the default block size, daemon timeout, init timeout and I/O size |
| `MountOpts.MountOptProc` | lib/mount_darwin.c:194-291 | the handler's answer, the record it leaves and the arguments it adds are those of `Apply` on the old record, including a numeric value with no digit after its sign, which is consumed and stores `param` |
| `MountOpts.ProcFlag` | lib/mount_darwin.c:202-256 | the cases without a value: the new record and the answer are those of `ApplyFlag` |
| `MountOpts.ProcValue` | lib/mount_darwin.c:258-287 | the cases with a value: the new record, the answer and the added argument are those of `ApplyValue`, with `sscanf`'s `EOF`, matching failure and conversion as `ScanUnsigned` reports them |
| `MountOpts.OrAltflags` | lib/mount_darwin.c:173 | OR-ing `bits` into `altflags` adds the bits and changes nothing else |
| `MountOpts.StoreU32` | lib/mount_darwin.c:181-182 | stores the value in the option's field and sets the option's own flag, and nothing else |
| `MountOpts.StoreStr` | lib/mount_darwin.c:187 | the `strlcpy` result replaces only the option's text field |
| `MountOpts.ApplyFlag` | lib/mount_darwin.c:202-256 | an option without a value never fails and adds no argument; it changes no field of the mount arguments but `altflags`, to which it only adds |
| `MountOpts.ApplyValue` | lib/mount_darwin.c:258-287 | an option with a value is never kept for the file system; only `volicon` adds an argument, exactly one, and then the record is unchanged |
| `MountOpts.Apply` | lib/mount_darwin.c:194-291 | the handler asks to keep the argument exactly for a key it does not know and for a flag option the switch has no case for, and then changes nothing |
| `MountOpts.Parse` | lib/mount_darwin.c:515 | a successful parse from a record never clears a flag, a standard flag, `quiet` or `allow_recursion` |
| `MountOpts.ParseArgs` | lib/mount_darwin.c:515 | the loop that feeds each argument to the handler agrees with `Parse`: it fails exactly when `Parse` fails, otherwise it leaves the same record and kept arguments |
| `MountOpts.FlagOptionEffect` | lib/mount_darwin.c:202-256 | an option without a value never fails and adds no argument; it is kept for the file system exactly when the switch has no case for it; it adds exactly its own bits, standard flag, `quiet` or `allow_recursion` |
| `MountOpts.FlagOptionSetsOneBit` | lib/mount_darwin.c:222-248 | each fuse4x flag option (and `quiet`, `ping_diskarb`) sets exactly one bit, and a header flag is set afterwards exactly when it was set before or is the option's own |
| `MountOpts.FlagOptionIdempotent` | lib/mount_darwin.c:202-256 | repeating an option without a value changes nothing more |
| `MountOpts.FlagOptionsCommute` | lib/mount_darwin.c:202-256 | options without a value give the same record in either order |
| `MountOpts.NoLocalCachesIsFourFlags` | lib/mount_darwin.c:254-256 | `nolocalcaches` sets the bits `0x01980000`, and equals `noattrcache`, `noreadahead`, `noubc` and `novncache` given in a row |
| `MountOpts.NumericOptionStores` | lib/mount_darwin.c:175-183 | `name=<n>` with `n` below 2^32 is consumed, stores `n` and sets the option's flag |
| `MountOpts.NumericOptionWithoutValueFails` | lib/mount_darwin.c:177-180 | a numeric option with nothing but white space after `=` fails and leaves the record alone |
| `MountOpts.NumericOptionNonNumeric` | lib/mount_darwin.c:177-183 | a numeric option whose value has no digit after its optional sign (`blocksize=x`, `blocksize=+`) is still consumed: `sscanf` reports a matching failure, not `EOF`, so the handler's uninitialised `param` is stored and the flag set |
| `MountOpts.WithU32Overwrites` | lib/mount_darwin.c:181-182 | storing a numeric option twice keeps only the second value |
| `MountOpts.LastNumericWins` | lib/mount_darwin.c:175-183 | after a numeric option succeeds, a second one gives the record the second alone would give, or fails |
| `MountOpts.StringOptionStores` | lib/mount_darwin.c:185-191 | `name=<text>` succeeds exactly when the text fits its buffer; the field holds the text cut to the buffer even on failure; no argument is added |
| `MountOpts.VolIconOption` | lib/mount_darwin.c:258-273 | `volicon` never changes the record; it fails exactly when the argument has no `=`; otherwise it adds one argument |
| `MountOpts.VolIconPath` | lib/mount_darwin.c:264-268 | `volicon=<path>` with a path shorter than `MAXPATHLEN` hands the file system exactly `-omodules=volicon,iconpath=<path>` |
| `MountOpts.IgnoredAndUnknownOptions` | lib/mount_darwin.c:286-290 | `subtype=` is consumed without effect; a key without a case leaves the record alone and is kept |
| `MountOpts.ApplyOnlyAdds` | lib/mount_darwin.c:194-291 | the handler never clears a flag, a standard flag, `quiet` or `allow_recursion` |
| `MountOpts.ValueOptionOnlyAdds` | lib/mount_darwin.c:258-287 | an option with a value only adds flags, and leaves the standard flags, `quiet` and `allow_recursion` unchanged |
| `MountOpts.ParseOnlyAdds` | lib/mount_darwin.c:515 | a successful parse only adds to the record's flags and only appends to the kept arguments |
| `MountOpts.ParseSetsNamedFlags` | lib/mount_darwin.c:222-243 | after a successful parse, the bit of every fuse4x flag option given is set, wherever it appeared |
| `MountOpts.ParseKeepsUnknown` | lib/mount_darwin.c:290 | after a successful parse, every argument no entry matches is among the arguments kept for the file system |
| `KernMount.MountpointCheck` | lib/mount_darwin.c:470-500 | a NULL mount point passes and changes nothing; an unresolvable one fails; a resolved one sets `mntpath` to its `realpath`, and passes exactly when it is a directory whose `statfs` answered and whose type name is not exactly the fuse4x one unless `allow_recursion`; nothing but `mntpath` changes |
| `KernMount.CheckMountpoint` | lib/mount_darwin.c:470-500 | the in-place check returns and leaves what `MountpointCheck` gives, so it passes and refuses in the same cases |
| `KernMount.RecursionTestIsExact` | lib/mount_darwin.c:495 | the recursion test compares the whole type name: a directory on a volume whose type name only begins with the fuse4x name passes without `allow_recursion`, while the fuse4x name itself passes only with it |
| `KernMount.CheckKext` | lib/mount_darwin.c:363-449 | acceptance implies the OS check passed; "too old" is reported exactly when the OS check fails; "not loaded" exactly when the OS check passed, the first query failed and the loader did not return 0 |
| `KernMount.OsVersionOk` | lib/mount_darwin.c:338-361 | `check_os_kernel_version` passes only for a release that `uname` reported and that contains a `.` |
| `KernMount.OsVersionOfRelease` | lib/mount_darwin.c:338-361 | the release `<n>.<rest>` passes exactly when `n >= 10`; a release without `.` never passes |
| `KernMount.KextVersionCompare` | lib/mount_darwin.c:427-448 | once a query has answered, the kext is accepted exactly when the first `version_len` characters of the two versions agree, and is otherwise a version mismatch; a reported length of 0 accepts any version |
| `KernMount.MarkLocal` | lib/mount_darwin.c:529-530 | `MNT_LOCAL` makes `LOCALVOL` set; without it the record is unchanged; no other flag changes |
| `KernMount.MarkLocalVol` | lib/mount_darwin.c:529-530 | the in-place update leaves what `MarkLocal` gives |
| `KernMount.FirstViolation` | lib/mount_darwin.c:532-568 | the six rules, in the order the source applies them; the rule reported is one the record breaks |
| `KernMount.ViolationIffBroken` | lib/mount_darwin.c:532-568 | the record is refused exactly when it breaks one of the six rules, and the rule reported is one it breaks |
| `KernMount.BrokenRuleRefuses` | lib/mount_darwin.c:532-568 | a record that breaks a rule is refused with -1 before any device node is opened and without a `mount()` call |
| `KernMount.Clamp` | lib/mount_darwin.c:570-580 | the clamped value lies within the bounds, equals the input when the input is within them, and is always the input or one of the bounds |
| `KernMount.ClampIdempotent` | lib/mount_darwin.c:570-580 | clamping twice is clamping once |
| `KernMount.ClampTimeouts` | lib/mount_darwin.c:570-580 | only the two timeouts change; the daemon timeout ends within its bounds, and so does the init timeout when its bounds are ordered; a daemon timeout already in range is kept |
| `KernMount.ClampTimeoutFields` | lib/mount_darwin.c:570-580 | the in-place clamps leave the record `ClampTimeouts` gives |
| `KernMount.FirstFree` | lib/mount_darwin.c:587-603 | the device found opens and every lower-numbered one does not; with none found, no device opens |
| `KernMount.FindDevice` | lib/mount_darwin.c:587-607 | the loop returns the first device node that opens, and its descriptor, or -1 when none does |
| `KernMount.NoDeviceIffAllBusy` | lib/mount_darwin.c:604-607 | the mount fails for want of a device exactly when none of the 24 nodes opens |
| `KernMount.LowestFreeDevice` | lib/mount_darwin.c:587-603 | otherwise the device used is the lowest-numbered node that opens |
| `KernMount.WithDefaultNames` | lib/mount_darwin.c:609-613 | an empty file-system name becomes `DefaultFsname` and an empty volume name `DefaultVolname` of the program name and the device index; a name already given is kept; both names end non-empty; only the two names change |
| `KernMount.FillDefaultNames` | lib/mount_darwin.c:609-613 | the in-place fill leaves what `WithDefaultNames` gives, so empty names receive the defaults built from the device index |
| `KernMount.DefaultNamesInFull` | lib/mount_darwin.c:609-613 | for an ordinary program name the defaults are `<prog>@fuse<n>` and `fuse4x volume <n> (<prog>)` in full |
| `KernMount.AttachDevice` | lib/mount_darwin.c:583-640 | the device scan, `fstat`, default names and `mount()` give the result of `Attach` |
| `KernMount.AttachConvention` | lib/mount_darwin.c:604-640 | from the device scan on, -1 is returned exactly on failure; on success the result is the descriptor of the first node that opens and a `mount()` call was made |
| `KernMount.AttachRecord` | lib/mount_darwin.c:599-615 | the record handed to `mount()` is the parsed one except for the opened node's `rdev` and the two names, which are non-empty; the standard flags are kept; the volume is mounted on the record's `mntpath` |
| `KernMount.Attach` | lib/mount_darwin.c:583-640 | `mount()` is called exactly when some node opens and `fstat` answers, on the record's `mntpath` with its standard flags; the call succeeds as a whole exactly when `mount()` is called and succeeds |
| `KernMount.AfterParse` | lib/mount_darwin.c:519-615 | after the parse: no parse error; no node is tried unless the mount point and the kext were accepted and the record breaks no rule |
| `KernMount.KernMountSpec` | lib/mount_darwin.c:503-641 | `fuse_kern_mount` reports a parse error exactly when an argument list was given and its parse failed; a NULL list mounts the defaults |
| `KernMount.KernMount` | lib/mount_darwin.c:503-641 | the whole of `fuse_kern_mount` agrees with `KernMountSpec`: the parse, the checks, the rules, the clamps, the scan and `mount()` in the source's order |
| `KernMount.ReturnConvention` | lib/mount_darwin.c:503-641 | `fuse_kern_mount` returns -1 exactly when it fails and the opened node's descriptor otherwise; a failure before the device scan opens no node and makes no `mount()` call |
| `KernMount.MountedRecord` | lib/mount_darwin.c:527-615 | whatever the options, the record handed to `mount()` breaks none of the six rules, has both timeouts within their bounds, and carries `LOCALVOL` when `MNT_LOCAL` is set |
| `KernMount.MountedRecordKeeps` | lib/mount_darwin.c:470-615 | `mount()` is called on the `realpath` of the mount point (on the parsed `mntpath` when it is NULL) with the parsed standard flags; the block size, I/O size, type names and `fsid` reach it as parsed, never range-checked; of the fuse4x flags only `LOCALVOL` may have been added |
| `KernMount.NullMountpointMountsOnEmptyPath` | lib/mount_darwin.c:472-475 | a NULL mount point passes the mount-point check (its `return -1` reads as true), and the volume is mounted on the empty path |
| `Fusexmp.Ret` | example/fusexmp.c:558-562 | an operation returns a negative value exactly when the call failed, namely `-errno`, and the call's count otherwise |
| `Fusexmp.Status` | example/fusexmp.c:51-60 | an operation without a count returns 0 exactly when the call succeeded, and `-errno` otherwise |
| `Fusexmp.RemapName` | example/fusexmp.c:520-531 | `com.apple.system.Security` is used as `org.apple.system.Security`; every other name is used as given |
| `Fusexmp.RemapTargets` | example/fusexmp.c:545-556 | exactly the two security names reach the stored name, and renaming twice is renaming once |
| `Fusexmp.ClearNoSecurity` | example/fusexmp.c:516-518 | the flags either pass unchanged or lose `XATTR_NOSECURITY` alone |
| `Fusexmp.ClearNoSecurityEffect` | example/fusexmp.c:516-518 | `XATTR_NOSECURITY` is cleared exactly for names that start with `com.apple.`, and no other bit changes |
| `Fusexmp.SetxattrAsWritten` | example/fusexmp.c:511-538 | as written, `setxattr` makes the same call as `getxattr`: the caller's flags play no part |
| `Fusexmp.SetxattrAsWrittenDropsCreate` | example/fusexmp.c:527-530 | as written, a caller's `XATTR_CREATE` does not reach `setxattr` |
| `Fusexmp.Setxattr` | example/fusexmp.c:511-538 | the corrected call addresses the same stored name as `getxattr` and never follows a link |
| `Fusexmp.SetxattrKeepsIntent` | example/fusexmp.c:511-538 | the corrected `setxattr` passes the caller's create/replace bits, always `XATTR_NOFOLLOW`, and never `XATTR_NOSECURITY` for a `com.apple.` name |
| `Fusexmp.Getxattr` | example/fusexmp.c:540-563 | `getxattr` never follows a link and never bypasses security; a name other than the guarded one is used as given |
| `Fusexmp.Removexattr` | example/fusexmp.c:592-613 | `removexattr` makes the same call as `getxattr` |
| `Fusexmp.XattrOpsAgree` | example/fusexmp.c:540-613 | set, get and remove address the same stored name; only the guarded name is renamed |
| `Fusexmp.NameLen` | example/fusexmp.c:573 | `strlen` at `i` reaches the first NUL at or after `i` |
| `Fusexmp.StrEqAtSlice` | example/fusexmp.c:574 | `strcmp(curr, name) == 0` holds exactly when the buffer holds `name` at `curr`, followed by a NUL |
| `Fusexmp.Filtered` | example/fusexmp.c:565-590 | the filtered listing is never longer, and equals the listing exactly when the stored security name is not among its entries |
| `Fusexmp.HiddenInListing` | example/fusexmp.c:570-581 | scanning a buffer of NUL-terminated names from an entry boundary and cutting out the first stored security name leaves the listing without that entry |
| `Fusexmp.FilteredListing` | example/fusexmp.c:565-590 | the filtered buffer of a listing of names is the listing of the same names with the first `org.apple.system.Security` removed, all others in order |
| `Fusexmp.FilteredFound` | example/fusexmp.c:574-577 | when the name is found at `len`, the result is the buffer with that entry and its NUL cut out |
| `Fusexmp.FilteredNone` | example/fusexmp.c:572-581 | when the name is absent, the buffer is unchanged |
| `Fusexmp.MemMoveDown` | example/fusexmp.c:575 | `memmove` to a lower address: the moved bytes follow the untouched prefix, and the bytes past them are unchanged |
| `Fusexmp.CloseGap` | example/fusexmp.c:575-576 | the gap at `at` is closed in place; the length shrinks by the gap; the bytes past the new length are unchanged |
| `Fusexmp.StrLen` | example/fusexmp.c:573 | the loop returns the length of the name at `i` |
| `Fusexmp.FindHidden` | example/fusexmp.c:570-581 | the `do`/`while` scan finds the name exactly when it occurs at an entry boundary, and returns the first such offset and that entry's length with its NUL |
| `Fusexmp.FilterListing` | example/fusexmp.c:568-583 | the in-place filter leaves the filtered buffer in the first `newRes` bytes and the rest of the array untouched |
| `Fusexmp.Listxattr` | example/fusexmp.c:565-590 | a failed call returns `-errno`; an empty listing or a size query returns the count; otherwise the buffer holds the listing without the stored security name, and its new length is returned |
| `Fusexmp.ToTimeval` | example/fusexmp.c:255-259 | seconds are kept; valid nanoseconds become the microseconds they contain |
| `Fusexmp.PiecesShape` | example/fusexmp.c:210-330 | `fsetattr_x` has eight steps, each making at most one call of its own kind |
| `Fusexmp.Plan` | example/fusexmp.c:210-330 | the calls of `fsetattr_x` come in strictly increasing step order, so each kind is made at most once |
| `Fusexmp.PlanOrder` | example/fusexmp.c:210-330 | the calls are made in the source's order (mode, owner, size, times, creation, change and backup times, flags), and a call is planned exactly when its step asks for it |
| `Fusexmp.PlanUpdates` | example/fusexmp.c:217-264 | `lchmod`, the truncate (`ftruncate` with a handle, `truncate` without) and `utimes` are planned exactly when the mode, size or modification time is wanted, with the caller's values |
| `Fusexmp.PlanOwnerAndTimes` | example/fusexmp.c:224-321 | `lchown` is planned exactly when a resulting id (the requested one, or -1 when not requested) differs from -1, with those ids, so asking for -1 itself makes no call; each `setattrlist` is planned exactly when its time is wanted, with that time |
| `Fusexmp.ExecutedOutcome` | example/fusexmp.c:210-330 | running the planned calls stops at the first failure and returns its `-errno`; it returns 0 exactly when every call was made and succeeded |
| `Fusexmp.ExecutedStep` | example/fusexmp.c:217-222 | a failing call ends the run with its `-errno`; a successful one lets the run go on |
| `Fusexmp.FsetattrX` | example/fusexmp.c:210-331 | the calls made and the value returned are those of running the plan against the system's answers |
| `Fusexmp.FirstSteps` | example/fusexmp.c:217-264 | the first four steps: either all succeeded with the calls planned, or the run ended as the whole plan's run ends |
| `Fusexmp.LastSteps` | example/fusexmp.c:266-330 | after the first four steps succeed, the last four complete the run of the whole plan |
| `Fusexmp.RunStep` | example/fusexmp.c:217-222 | one step makes its call if wanted, and a failure ends the run as the plan's run ends |
| `Fusexmp.Utimens` | example/fusexmp.c:411-426 | `utimens` passes both times to `utimes` with seconds kept and nanoseconds turned into microseconds |
| `Fusexmp.ModeOf` | example/fusexmp.c:103 | `d_type << 12` puts the entry's type in the file-type bits of `st_mode` and nothing below them |
| `Fusexmp.ModeOfTypes` | example/fusexmp.c:103 | directories, regular files and links get `S_IFDIR`, `S_IFREG` and `S_IFLNK` |
| `Fusexmp.Converted` | example/fusexmp.c:99-106 | every entry is converted, one for one and in order |
| `Fusexmp.ReadDir` | example/fusexmp.c:86-110 | a directory that cannot be opened gives `-errno` and nothing; otherwise 0, with the entries up to and including the first the filler refuses |
| `Fusexmp.ReadLink` | example/fusexmp.c:73-83 | a failed `readlink` gives `-errno` and leaves the buffer alone; otherwise 0, with the target cut to `size - 1` characters and NUL-terminated, and the rest of the buffer untouched |

## Left out

- I/O and messages: `fprintf`, `perror` and the Core Foundation user notices are not modelled, because they do not affect any result. `post_notification` and the distributed notifications it sends are also left out, because they are outside the mount's result.
- `fuse_opt_parse` itself is not part of this model. The parse loop assumes `-o a,b` has already been split into `a` and `b`, and that every argument goes to the handler with the key of its first matching entry.
- `fuse_kern_unmount` and `fuse_unmount_compat22` are not modelled. They are calls to `unmount()` with no logic of their own.
- The operating system's answers are oracles rather than models of the calls: `realpath`, `stat`, `statfs`, `uname`, `sysctlbyname`, the loader, `open`, `fstat`, `mount`, and the pass-through calls of the example.
- `KernMount.CheckMountpoint`: when `realpath` fails, `mntpath` is left unchanged. The C function may leave a partial path there, but the mount is refused in that case anyway.
- `KernMount.AttachDevice`: the descriptor of a node opened for a mount that then fails is not closed by the source. The model records no descriptors, so it does not show this leak.
- The numeric values of the `MNT_*` standard flags come from the operating system. `standard_args` is modelled as the set of flags set.
- `altflags` is modelled as the set of its bit positions. `FuseMount.MoptBitIsBitNumber` and `FuseMount.MoptBitsDistinct` tie that set to the masks.
- `MountOpts.ApplyValue`: the handler's uninitialised `param`, stored when `sscanf` converts nothing, is a parameter (`stale`). The model cannot say which value an uninitialised variable holds.
- `MountOpts.ProcValue`: a `snprintf` or `fuse_opt_add_arg` failure in the `volicon` case is not modelled. The formatted text is never empty, and allocation failure is outside the model.
- `FuseMount.Platform`: some constants are not defined in the headers shown here, and they are parameters of the model:
  - `MAXPHYS`;
  - `MAC_OS_X_VERSION_10_7`;
  - `FUSE4X_FS_TYPE` and `FUSE4X_VERSION`;
  - `FUSE_MOPT_PING_DISKARB`;
  - the init-timeout default and bounds.
- `struct fuse_mount_args` as declared in `include/fuse_mount.h` has no `init_timeout` field, although the mount code reads and writes one. The model carries the field, and `FuseMount.WireLayoutHasNoPadding` states the header's declared layout.
- `Fusexmp.MemMoveDown` copies forward, from low to high addresses. That is the only direction `memmove` needs when the destination is below the source, as it is here.
- `Fusexmp.ReadDir`: the `filler` callback is modelled by `room`, the number of entries it accepts before it first refuses one. The `struct stat` passed is reduced to the inode and the mode.
- The other operations of the example file system (`getattr`, `access`, `mkdir`, `unlink`, `rename`, `open`, `read`, `write`, `statfs` and the rest) are not modelled. Each is a single system call under the `Status`/`Ret` convention, with no logic of its own.
- Widths: `tv_nsec / 1000` is modelled with C's truncating division (`LibC.CDiv`). Other C integer widths are modelled only where the source converts: the `(uint32_t)` of a parsed option (`LibC.Wrap32`), and `fsid` as a 32-bit value.
- `Fusexmp.ModeOf` treats `st_mode` as unbounded. Darwin's `mode_t` is 16 bits, so the file type read back from `d_type << 12` equals `d_type` only for `d_type` below 16; every `DT_*` value (at most 14) is below that.
- `Fusexmp.ReadLink` requires a buffer of at least one byte. With `size == 0` the source's `size - 1` wraps to `SIZE_MAX` and `buf[res] = '\0'` writes outside the buffer, which is undefined behaviour the model does not capture.

## Findings

| source | as written | input that shows it | evidently intended | confidence | as-written member | corrected member |
|---|---|---|---|---|---|---|
| example/fusexmp.c:516-530 | `xmp_setxattr` clears `XATTR_NOSECURITY` from `flags`, then calls `setxattr` with only `XATTR_NOFOLLOW`, so the caller's flags are dropped | `setxattr("user.x", ..., XATTR_CREATE)`: the system call sees no `XATTR_CREATE`, so an existing attribute is overwritten instead of the call failing with `EEXIST` | pass `flags \| XATTR_NOFOLLOW`, with `XATTR_NOSECURITY` cleared for `com.apple.` names | medium, not executed | `Fusexmp.SetxattrAsWritten` (`Fusexmp.SetxattrAsWrittenDropsCreate`) | `Fusexmp.Setxattr` (`Fusexmp.SetxattrKeepsIntent`) |
