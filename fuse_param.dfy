/** Tunables of the mount protocol (include/fuse_param.h): the device-node
    family, block-size, I/O-size and daemon-timeout defaults and bounds, and
    the capacities of the fixed-size name buffers. */
module FuseParam {
  import opened LibC

  // Capacities from the operating system's headers.
  const MAXPATHLEN: nat := 1024
  const MFSTYPENAMELEN: nat := 16
  const PAGE_SIZE: nat := 4096

  /** `_PATH_DEV`: the directory holding device nodes. */
  const PATH_DEV: CStr := "/dev/"

  /** Prefix of the device nodes' names. */
  const FUSE4X_DEVICE_BASENAME: CStr := "fuse4x"

  /** Number of device nodes `/dev/fuse4x0` .. `/dev/fuse4x23`. */
  const FUSE4X_NDEVICES: nat := 24

  const FUSE_DEFAULT_BLOCKSIZE: nat := 4096
  const FUSE_MIN_BLOCKSIZE: nat := 1

  const FUSE_DEFAULT_DAEMON_TIMEOUT: nat := 60
  const FUSE_MIN_DAEMON_TIMEOUT: nat := 0
  const FUSE_MAX_DAEMON_TIMEOUT: nat := 600

  /** `MAX_IO_PAGES`: 8192 pages when built with the 10.7 SDK, 4096 before
      (older kernels could run out of VM maps on large I/O). */
  function MaxIoPages(sdk107: bool): nat
  {
    if sdk107 then 8192 else 4096
  }

  function MinIosize(): nat { PAGE_SIZE }

  function MaxIosize(sdk107: bool): nat { MaxIoPages(sdk107) * PAGE_SIZE }

  /** The default I/O size is the largest one allowed. */
  function DefaultIosize(sdk107: bool): nat { MaxIosize(sdk107) }

  /** Path of device node `n`: `/dev/fuse4x<n>`. */
  function DevicePath(n: nat): CStr
  {
    PATH_DEV + FUSE4X_DEVICE_BASENAME + Decimal(n)
  }

  /** Every default lies within its documented bounds, the default I/O size
      is at least the default block size (as the header's comment asks), and
      every I/O size fits the 32-bit field that carries it. */
  lemma DefaultsWithinBounds(sdk107: bool, maxPhys: nat)
    requires FUSE_DEFAULT_BLOCKSIZE <= maxPhys
    ensures FUSE_MIN_BLOCKSIZE <= FUSE_DEFAULT_BLOCKSIZE <= maxPhys
    ensures FUSE_MIN_DAEMON_TIMEOUT <= FUSE_DEFAULT_DAEMON_TIMEOUT <= FUSE_MAX_DAEMON_TIMEOUT
    ensures MinIosize() <= DefaultIosize(sdk107) == MaxIosize(sdk107)
    ensures FUSE_DEFAULT_BLOCKSIZE <= DefaultIosize(sdk107)
    ensures MaxIosize(sdk107) < 0x1_0000_0000
  {
  }

  /** Distinct device numbers name distinct nodes, and every node of the
      family has a name that fits a `MAXPATHLEN` buffer. */
  lemma {:induction false} DevicePathsDistinct(m: nat, n: nat)
    requires m < FUSE4X_NDEVICES && n < FUSE4X_NDEVICES
    ensures DevicePath(m) == DevicePath(n) <==> m == n
    ensures |DevicePath(n)| < MAXPATHLEN - 1
  {
    var pre := PATH_DEV + FUSE4X_DEVICE_BASENAME;
    if DevicePath(m) == DevicePath(n) {
      assert DevicePath(m)[|pre|..] == Decimal(m);
      assert DevicePath(n)[|pre|..] == Decimal(n);
      DecimalInjective(m, n);
    }
    assert |Decimal(n)| <= 2 by {
      if n >= 10 { assert Decimal(n) == Decimal(n / 10) + [DigitChar(n % 10)]; }
    }
  }
}
