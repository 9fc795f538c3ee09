/** The pass-through example file system (example/fusexmp.c): the renaming
    of the access-control attribute, the clearing of `XATTR_NOSECURITY`,
    the in-place filter of a `listxattr` buffer, the ordered updates of
    `fsetattr_x`, the conversions of `readdir`, `readlink` and `utimens`,
    and the 0 / `-errno` return convention.

    The system calls themselves are oracles: their answers are parameters. */
module Fusexmp {
  import opened LibC

  // ---- the return convention ----

  /** An `errno` value: always positive. */
  type Errno = e: nat | e > 0 witness 1

  /** What a system call reports: success with a count (0 for calls that
      return no count), or -1 with `errno` set. */
  datatype Sys = Done(count: nat) | Failed(errno: Errno)

  /** The value an operation returns for a system call's answer: the count
      on success, `-errno` on failure. */
  function Ret(s: Sys): (r: int)
    ensures r < 0 <==> s.Failed?
    ensures s.Failed? ==> r == -(s.errno as int)
    ensures s.Done? ==> r == s.count
  {
    match s
    case Done(n) => n
    case Failed(e) => -(e as int)
  }

  /** Operations that return no count turn success into 0. */
  function Status(s: Sys): (r: int)
    ensures r == 0 <==> s.Done?
    ensures r == Ret(s) || (s.Done? && r == 0)
  {
    if s.Done? then 0 else Ret(s)
  }

  // ---- extended-attribute names and flags ----

  const XATTR_NOFOLLOW: bv32 := 0x0001
  const XATTR_CREATE: bv32 := 0x0002
  const XATTR_REPLACE: bv32 := 0x0004
  const XATTR_NOSECURITY: bv32 := 0x0008

  const G_PREFIX: CStr := "org"
  const A_PREFIX: CStr := "com"
  /** The part the two security-attribute names share. */
  const KAUTH_FILESEC_SUFFIX: CStr := ".apple.system.Security"
  /** `org.apple.system.Security` */
  const G_KAUTH_FILESEC_XATTR: CStr := G_PREFIX + KAUTH_FILESEC_SUFFIX
  /** `com.apple.system.Security` */
  const A_KAUTH_FILESEC_XATTR: CStr := A_PREFIX + KAUTH_FILESEC_SUFFIX
  const XATTR_APPLE_PREFIX: CStr := "com.apple."

  /** The name actually used for an attribute: `com.apple.system.Security`
      is stored as `org.apple.system.Security` (copy the name, then
      overwrite its first three characters with `org`); every other name is
      used as given. */
  function RemapName(name: CStr): (r: CStr)
    ensures name != A_KAUTH_FILESEC_XATTR ==> r == name
    ensures name == A_KAUTH_FILESEC_XATTR ==> r == G_KAUTH_FILESEC_XATTR
  {
    if name == A_KAUTH_FILESEC_XATTR then G_PREFIX + A_KAUTH_FILESEC_XATTR[|G_PREFIX|..] else name
  }

  /** The renaming sends exactly two names to the stored one: the guarded
      name and the stored name itself. */
  lemma RemapTargets(name: CStr)
    ensures RemapName(name) == G_KAUTH_FILESEC_XATTR <==> name == A_KAUTH_FILESEC_XATTR || name == G_KAUTH_FILESEC_XATTR
    ensures RemapName(RemapName(name)) == RemapName(name)
  {
    assert A_KAUTH_FILESEC_XATTR != G_KAUTH_FILESEC_XATTR by {
      assert A_KAUTH_FILESEC_XATTR[0] != G_KAUTH_FILESEC_XATTR[0];
    }
  }

  /** `setxattr`'s flags for a name in the `com.apple.` namespace lose
      `XATTR_NOSECURITY`. */
  function ClearNoSecurity(name: CStr, flags: bv32): (r: bv32)
    ensures r == flags || r == flags & !XATTR_NOSECURITY
  {
    if StrnEq(name, XATTR_APPLE_PREFIX, |XATTR_APPLE_PREFIX|) then flags & !XATTR_NOSECURITY else flags
  }

  /** `XATTR_NOSECURITY` is cleared exactly for names starting with
      `com.apple.`, and no other bit changes. */
  lemma ClearNoSecurityEffect(name: CStr, flags: bv32)
    ensures ClearNoSecurity(name, flags) & !XATTR_NOSECURITY == flags & !XATTR_NOSECURITY
    ensures ClearNoSecurity(name, flags) & XATTR_NOSECURITY ==
      (if XATTR_APPLE_PREFIX <= name then 0 else flags & XATTR_NOSECURITY)
  {
    ClearNoSecurityCases(name, flags);
    if XATTR_APPLE_PREFIX <= name {
      NoSecurityMask(flags);
    }
  }

  /** The `strncmp` guard of `ClearNoSecurity` read as a prefix test. */
  lemma ClearNoSecurityCases(name: CStr, flags: bv32)
    ensures ClearNoSecurity(name, flags) == if XATTR_APPLE_PREFIX <= name then flags & !XATTR_NOSECURITY else flags
  {
    StrnEqPrefix(name, XATTR_APPLE_PREFIX);
  }

  /** Clearing `XATTR_NOSECURITY` leaves every other bit. */
  lemma NoSecurityMask(flags: bv32)
    ensures (flags & !XATTR_NOSECURITY) & !XATTR_NOSECURITY == flags & !XATTR_NOSECURITY
    ensures (flags & !XATTR_NOSECURITY) & XATTR_NOSECURITY == 0
  {
  }

  /** One `setxattr`/`getxattr`/`removexattr` call: the name passed and the
      options word. */
  datatype XattrCall = XattrCall(name: CStr, options: bv32)

  /** `xmp_setxattr` as written: the flags with `XATTR_NOSECURITY` cleared
      are computed and then dropped, and only `XATTR_NOFOLLOW` is passed. */
  function SetxattrAsWritten(name: CStr, flags: bv32): (c: XattrCall)
    ensures c == Getxattr(name)
  {
    XattrCall(RemapName(name), XATTR_NOFOLLOW)
  }

  /** The caller's `XATTR_CREATE` does not reach the system call. */
  lemma SetxattrAsWrittenDropsCreate()
    ensures SetxattrAsWritten("user.x", XATTR_CREATE).options & XATTR_CREATE == 0
  {
  }

  /** `xmp_setxattr` as evidently intended: the caller's flags, less
      `XATTR_NOSECURITY` in the `com.apple.` namespace, plus
      `XATTR_NOFOLLOW`. */
  function Setxattr(name: CStr, flags: bv32): (c: XattrCall)
    ensures c.name == Getxattr(name).name
    ensures c.options & XATTR_NOFOLLOW == XATTR_NOFOLLOW
  {
    XattrCall(RemapName(name), ClearNoSecurity(name, flags) | XATTR_NOFOLLOW)
  }

  /** The corrected call keeps the caller's create/replace intent and
      never follows a link. */
  lemma SetxattrKeepsIntent(name: CStr, flags: bv32)
    ensures Setxattr(name, flags).options & (XATTR_CREATE | XATTR_REPLACE) == flags & (XATTR_CREATE | XATTR_REPLACE)
    ensures Setxattr(name, flags).options & XATTR_NOFOLLOW == XATTR_NOFOLLOW
    ensures XATTR_APPLE_PREFIX <= name ==> Setxattr(name, flags).options & XATTR_NOSECURITY == 0
  {
    ClearNoSecurityEffect(name, flags);
    var c := ClearNoSecurity(name, flags);
    assert c & (XATTR_CREATE | XATTR_REPLACE) == (c & !XATTR_NOSECURITY) & (XATTR_CREATE | XATTR_REPLACE);
    assert flags & (XATTR_CREATE | XATTR_REPLACE) == (flags & !XATTR_NOSECURITY) & (XATTR_CREATE | XATTR_REPLACE);
  }

  /** `xmp_getxattr` and `xmp_removexattr` use the same renaming and never
      follow a link. */
  function Getxattr(name: CStr): (c: XattrCall)
    ensures c.options & XATTR_NOFOLLOW != 0 && c.options & XATTR_NOSECURITY == 0
    ensures name != A_KAUTH_FILESEC_XATTR ==> c.name == name
  {
    XattrCall(RemapName(name), XATTR_NOFOLLOW)
  }

  function Removexattr(name: CStr): (c: XattrCall)
    ensures c == Getxattr(name)
  {
    XattrCall(RemapName(name), XATTR_NOFOLLOW)
  }

  /** All three operations address the same stored attribute. */
  lemma XattrOpsAgree(name: CStr, flags: bv32)
    ensures Setxattr(name, flags).name == Getxattr(name).name == Removexattr(name).name
    ensures Getxattr(A_KAUTH_FILESEC_XATTR).name == G_KAUTH_FILESEC_XATTR
    ensures name != A_KAUTH_FILESEC_XATTR ==> Getxattr(name).name == name
  {
  }

  // ---- listxattr ----

  /** A listing as the kernel writes it: every name followed by its NUL. */
  function Join(names: seq<CStr>): (b: seq<char>)
    ensures |b| >= |names|
    ensures names != [] ==> |b| > 0 && b[|b| - 1] == NUL
  {
    if names == [] then [] else names[0] + [NUL] + Join(names[1..])
  }

  /** The names without the first occurrence of `x`. */
  function RemoveFirst(names: seq<CStr>, x: CStr): (r: seq<CStr>)
    ensures |r| == |names| || (|r| == |names| - 1 && x in names)
  {
    if names == [] then []
    else if names[0] == x then names[1..]
    else [names[0]] + RemoveFirst(names[1..], x)
  }

  /** `strlen(b + i)` for a buffer whose last byte is NUL. */
  function NameLen(b: seq<char>, i: nat): (n: nat)
    requires i < |b| && b[|b| - 1] == NUL
    ensures i + n < |b| && b[i + n] == NUL
    ensures forall k | i <= k < i + n :: b[k] != NUL
    decreases |b| - i
  {
    if b[i] == NUL then 0 else 1 + NameLen(b, i + 1)
  }

  /** `strcmp(b + i, x) == 0`: the string at offset `i` of a buffer whose
      last byte is NUL is exactly `x`. */
  predicate StrEqAt(b: seq<char>, i: nat, x: CStr)
    requires i < |b| && b[|b| - 1] == NUL
    decreases |x|
  {
    if x == [] then b[i] == NUL
    else b[i] == x[0] && StrEqAt(b, i + 1, x[1..])
  }

  /** The string at `i` equals `x` exactly when `x` sits at `i` and a NUL
      follows it. */
  lemma {:induction false} StrEqAtSlice(b: seq<char>, i: nat, x: CStr)
    requires i < |b| && b[|b| - 1] == NUL
    ensures StrEqAt(b, i, x) <==> i + |x| < |b| && b[i..i + |x|] == x && b[i + |x|] == NUL
    decreases |x|
  {
    if x != [] {
      if b[i] == x[0] {
        StrEqAtSlice(b, i + 1, x[1..]);
        if i + |x| < |b| {
          assert b[i..i + |x|] == [b[i]] + b[i + 1..i + |x|];
        }
      }
    }
  }

  /** A name starting at `i` is exactly `k` long when its first `k` bytes
      hold no NUL and byte `i + k` is one; with no NUL among them it is at
      least `k` long. */
  lemma NameLenIsFirstNul(b: seq<char>, i: nat, k: nat)
    requires i < |b| && b[|b| - 1] == NUL && i + k < |b|
    requires forall j | i <= j < i + k :: b[j] != NUL
    ensures NameLen(b, i) >= k
    ensures b[i + k] == NUL ==> NameLen(b, i) == k
  {
  }

  /** The entry `s` at offset `i` is `strlen` long, and compares equal
      to `hidden` exactly when it is `hidden`. */
  lemma StrEqAtEntry(b: seq<char>, i: nat, s: CStr, hidden: CStr)
    requires i + |s| < |b| && b[|b| - 1] == NUL
    requires b[i..i + |s|] == s && b[i + |s|] == NUL
    ensures NameLen(b, i) == |s|
    ensures StrEqAt(b, i, hidden) <==> s == hidden
  {
    assert forall j | i <= j < i + |s| :: b[j] == s[j - i];
    StrEqAtSlice(b, i, hidden);
    NameLenIsFirstNul(b, i, |s|);
    if StrEqAt(b, i, hidden) {
      assert forall j | i <= j < i + |hidden| :: b[j] == hidden[j - i];
      NameLenIsFirstNul(b, i, |hidden|);
    }
  }

  /** The search of `xmp_listxattr`'s loop from offset `len`: where the
      first entry equal to `hidden` starts, if one does. */
  function HiddenAt(b: seq<char>, len: nat, hidden: CStr): (r: Option<nat>)
    requires len < |b| && b[|b| - 1] == NUL
    ensures r.Some? ==> len <= r.value < |b|
    decreases |b| - len
  {
    var thislen := NameLen(b, len) + 1;
    if StrEqAt(b, len, hidden) then Some(len)
    else if len + thislen < |b| then HiddenAt(b, len + thislen, hidden)
    else None
  }

  /** The listing with the entry at `at`, if any, and its NUL cut out. */
  function Cut(b: seq<char>, at: Option<nat>): seq<char>
    requires b != [] && b[|b| - 1] == NUL
    requires at.Some? ==> at.value < |b|
  {
    if at.None? then b else b[..at.value] + b[at.value + NameLen(b, at.value) + 1..]
  }

  /** What `xmp_listxattr` leaves of a listing: the first entry equal to
      `hidden` cut out. */
  function Filtered(b: seq<char>, hidden: CStr): (r: seq<char>)
    requires b != [] && b[|b| - 1] == NUL
    ensures |r| <= |b|
    ensures r == b <==> HiddenAt(b, 0, hidden).None?
  {
    Cut(b, HiddenAt(b, 0, hidden))
  }

  /** Where the search finds the hidden name, filtering cuts that entry
      and its NUL out. */
  lemma FilteredFound(b: seq<char>, hidden: CStr, len: nat, thislen: nat)
    requires b != [] && b[|b| - 1] == NUL
    requires HiddenAt(b, 0, hidden) == Some(len) && thislen == NameLen(b, len) + 1
    ensures len + thislen <= |b|
    ensures Filtered(b, hidden) == b[..len] + b[len + thislen..]
  {
  }

  /** Where the search finds nothing, filtering keeps the listing. */
  lemma FilteredNone(b: seq<char>, hidden: CStr)
    requires b != [] && b[|b| - 1] == NUL && HiddenAt(b, 0, hidden).None?
    ensures Filtered(b, hidden) == b
  {
  }

  /** One turn of the search at an entry `s` that starts at offset `i`:
      stop there if it is `hidden`, else go on with the next entry, if
      any. */
  lemma HiddenAtEntry(b: seq<char>, i: nat, s: CStr, next: nat, hidden: CStr)
    requires i + |s| < |b| && b[|b| - 1] == NUL
    requires b[i..i + |s|] == s && b[i + |s|] == NUL && next == i + |s| + 1
    ensures NameLen(b, i) == |s|
    ensures HiddenAt(b, i, hidden) ==
      if s == hidden then Some(i)
      else if next < |b| then HiddenAt(b, next, hidden)
      else None
  {
    StrEqAtEntry(b, i, s, hidden);
  }

  /** One turn of the search at offset `i`, where the entry there is the
      `n` bytes before the first NUL. */
  lemma HiddenAtStep(b: seq<char>, i: nat, n: nat, hidden: CStr)
    requires i < |b| && b[|b| - 1] == NUL && n == NameLen(b, i)
    ensures HiddenAt(b, i, hidden) ==
      if b[i..i + n] == hidden then Some(i)
      else if i + n + 1 < |b| then HiddenAt(b, i + n + 1, hidden)
      else None
  {
    var e := b[i..i + n];
    assert forall k | 0 <= k < n :: e[k] == b[i + k];
    assert NUL !in e;
    HiddenAtEntry(b, i, e, i + n + 1, hidden);
  }

  /** Where the rest of a buffer from `i` is the entry `s` and then `tail`,
      the entry and the tail sit at their offsets. */
  lemma EntryAt(b: seq<char>, i: nat, s: CStr, tail: seq<char>)
    requires i <= |b| && b[i..] == s + [NUL] + tail
    ensures i + |s| < |b| && b[i..i + |s|] == s && b[i + |s|] == NUL
    ensures b[i + |s| + 1..] == tail
    ensures b[..i + |s| + 1] == b[..i] + s + [NUL]
  {
    assert b[i..][..|s|] == s;
    assert b[i..][|s| + 1..] == tail;
    assert b[..i + |s| + 1] == b[..i] + b[i..][..|s| + 1];
  }

  /** Joining a listing that starts with `s`. */
  lemma JoinCons(s: CStr, rest: seq<CStr>)
    ensures Join([s] + rest) == s + [NUL] + Join(rest)
  {
    assert ([s] + rest)[0] == s && ([s] + rest)[1..] == rest;
  }

  /** Removing from a listing whose first name is not `x` keeps that name
      in front. */
  lemma RemoveFirstSkips(names: seq<CStr>, x: CStr)
    requires names != [] && names[0] != x
    ensures RemoveFirst(names, x) == [names[0]] + RemoveFirst(names[1..], x)
  {
  }

  /** The search reaching an entry `s` that is `hidden` cuts it out,
      leaving what follows it. */
  lemma HitStep(b: seq<char>, i: nat, s: CStr, tail: seq<char>, hidden: CStr)
    requires i + |s| < |b| && b[|b| - 1] == NUL && s == hidden
    requires b[i..i + |s|] == s && b[i + |s|] == NUL && b[i + |s| + 1..] == tail
    ensures Cut(b, HiddenAt(b, i, hidden)) == b[..i] + tail
  {
    HiddenAtEntry(b, i, s, i + |s| + 1, hidden);
    assert HiddenAt(b, i, hidden) == Some(i) && NameLen(b, i) == |s|;
  }

  /** The search passing a last entry that is not `hidden` leaves the
      buffer as it is. */
  lemma LastStep(b: seq<char>, i: nat, s: CStr, hidden: CStr)
    requires i + |s| + 1 == |b| && s != hidden
    requires b[i..i + |s|] == s && b[i + |s|] == NUL
    ensures Cut(b, HiddenAt(b, i, hidden)) == b
  {
    HiddenAtEntry(b, i, s, i + |s| + 1, hidden);
  }

  /** An entry `s` in front of the joined rest of a listing. */
  lemma ConsEntry(front: seq<char>, s: CStr, rf: seq<CStr>)
    ensures front + s + [NUL] + Join(rf) == front + Join([s] + rf)
  {
    JoinCons(s, rf);
    assert front + s + [NUL] + Join(rf) == front + (s + [NUL] + Join(rf));
  }

  /** The search passing an entry `s` that is not `hidden`, with more
      entries after it, goes on from the next entry. */
  lemma SkipStep(b: seq<char>, i: nat, s: CStr, hidden: CStr)
    requires i + |s| + 1 < |b| && b[|b| - 1] == NUL && s != hidden
    requires b[i..i + |s|] == s && b[i + |s|] == NUL
    ensures HiddenAt(b, i, hidden) == HiddenAt(b, i + |s| + 1, hidden)
  {
    HiddenAtEntry(b, i, s, i + |s| + 1, hidden);
  }

  /** Filtering a buffer whose part from offset `i` is the listing
      `rest`, searching from `i`, removes the first `hidden` name of
      `rest` and keeps every other entry in order. */
  lemma {:induction false} HiddenInListing(b: seq<char>, i: nat, rest: seq<CStr>, hidden: CStr)
    requires rest != [] && i <= |b| && b[i..] == Join(rest)
    ensures i < |b| && b[|b| - 1] == NUL
    ensures Cut(b, HiddenAt(b, i, hidden)) == b[..i] + Join(RemoveFirst(rest, hidden))
    decreases |rest|
  {
    var s := rest[0];
    assert b[|b| - 1] == b[i..][|b| - 1 - i];
    EntryAt(b, i, s, Join(rest[1..]));
    if s == hidden {
      HitStep(b, i, s, Join(rest[1..]), hidden);
    } else if |rest| == 1 {
      LastStep(b, i, s, hidden);
      assert b == b[..i] + b[i..];
    } else {
      var next := i + |s| + 1;
      var rf := RemoveFirst(rest[1..], hidden);
      HiddenInListing(b, next, rest[1..], hidden);
      SkipStep(b, i, s, hidden);
      assert Cut(b, HiddenAt(b, i, hidden)) == b[..next] + Join(rf);
      assert b[..next] == b[..i] + s + [NUL];
      ConsEntry(b[..i], s, rf);
      RemoveFirstSkips(rest, hidden);
      assert RemoveFirst(rest, hidden) == [s] + rf;
    }
  }

  /** The whole listing: the first `org.apple.system.Security` is hidden,
      every other name is kept in order. */
  lemma FilteredListing(names: seq<CStr>)
    requires names != []
    ensures Filtered(Join(names), G_KAUTH_FILESEC_XATTR) == Join(RemoveFirst(names, G_KAUTH_FILESEC_XATTR))
  {
    HiddenInListing(Join(names), 0, names, G_KAUTH_FILESEC_XATTR);
  }

  /** Slices of the prefix `a[..r]` are slices of `a`. */
  lemma PrefixSlices(a: seq<char>, r: nat, i: nat, j: nat)
    requires i <= j <= r <= |a|
    ensures a[..r][..i] == a[..i]
    ensures a[..r][i..j] == a[i..j]
    ensures a[..r][j..] == a[j..r]
  {
  }

  /** A buffer that holds `n` bytes from `src` at `dst` and is otherwise
      unchanged: up to `dst + n` it is the old front followed by the moved
      bytes, and from there on it is as it was. */
  lemma MovedIs(now: seq<char>, was: seq<char>, dst: nat, src: nat, n: nat)
    requires |now| == |was| && dst <= src && src + n <= |was|
    requires forall j | dst <= j < dst + n :: now[j] == was[src + (j - dst)]
    requires forall j | 0 <= j < |now| && !(dst <= j < dst + n) :: now[j] == was[j]
    ensures now[..dst + n] == was[..dst] + was[src..src + n]
    ensures now[dst + n..] == was[dst + n..]
  {
    var front := was[..dst] + was[src..src + n];
    forall j | 0 <= j < dst + n
      ensures now[j] == front[j]
    {
      if j >= dst {
        assert front[j] == was[src..src + n][j - dst];
      }
    }
    assert now[..dst + n] == front;
  }

  /** `memmove(a + dst, a + src, n)` with the destination below the
      source, so copying front to back reads every byte before it is
      overwritten. */
  method MemMoveDown(a: array<char>, dst: nat, src: nat, n: nat)
    requires dst <= src && src + n <= a.Length
    modifies a
    ensures a[..dst + n] == old(a[..dst]) + old(a[src..src + n])
    ensures a[dst + n..] == old(a[dst + n..])
  {
    var k := 0;
    while k < n
      invariant 0 <= k <= n
      invariant forall j | dst <= j < dst + k :: a[j] == old(a[src + (j - dst)])
      invariant forall j | 0 <= j < a.Length && !(dst <= j < dst + k) :: a[j] == old(a[j])
    {
      a[dst + k] := a[src + k];
      k := k + 1;
    }
    MovedIs(a[..], old(a[..]), dst, src, n);
  }

  /** The search of `xmp_listxattr`'s loop: walk the entries of the `res`
      bytes the kernel wrote until one is `hidden`. */
  method FindHidden(list: array<char>, res: nat, hidden: CStr) returns (found: bool, len: nat, thislen: nat)
    requires 0 < res <= list.Length && list[res - 1] == NUL
    ensures found <==> HiddenAt(list[..res], 0, hidden).Some?
    ensures found ==> HiddenAt(list[..res], 0, hidden) == Some(len)
    ensures found ==> thislen == NameLen(list[..res], len) + 1 && len + thislen <= res
  {
    ghost var b := list[..res];
    assert |b| == res && b[res - 1] == NUL;
    len := 0;
    while true
      invariant len < res
      invariant HiddenAt(b, len, hidden) == HiddenAt(b, 0, hidden)
      decreases res - len
    {
      var nameLen := StrLen(list, len, res);
      thislen := nameLen + 1;
      PrefixSlices(list[..], res, len, len + nameLen);
      assert list[len..len + nameLen] == b[len..len + nameLen];
      HiddenAtStep(b, len, nameLen, hidden);
      if list[len..len + nameLen] == hidden {
        assert HiddenAt(b, 0, hidden) == Some(len);
        return true, len, thislen;
      }
      len := len + thislen;
      if len >= res {
        assert HiddenAt(b, 0, hidden) == None;
        return false, len, thislen;
      }
    }
  }

  /** The loop of `xmp_listxattr` on the `res` bytes the kernel wrote:
      the first entry equal to `hidden` is moved over by the rest of the
      listing, which is then `thislen` shorter. */
  method FilterListing(list: array<char>, res: nat, hidden: CStr) returns (newRes: nat)
    requires 0 < res <= list.Length && list[res - 1] == NUL
    modifies list
    ensures newRes <= res
    ensures list[..newRes] == Filtered(old(list[..res]), hidden)
    ensures list[newRes..] == old(list[newRes..])
  {
    var found, len, thislen := FindHidden(list, res, hidden);
    ghost var b := list[..res];
    if found {
      FilteredFound(b, hidden, len, thislen);
      newRes := CloseGap(list, res, len, thislen);
    } else {
      newRes := res;
      FilteredNone(b, hidden);
    }
  }

  /** `memmove(list + at, list + at + gap, res - at - gap)`: the `gap`
      bytes at `at` leave the first `res` bytes of the buffer, which are
      then `gap` fewer. */
  method CloseGap(list: array<char>, res: nat, at: nat, gap: nat) returns (newRes: nat)
    requires at + gap <= res <= list.Length
    modifies list
    ensures newRes == res - gap
    ensures list[..newRes] == old(list[..res][..at] + list[..res][at + gap..])
    ensures list[newRes..] == old(list[newRes..])
  {
    ghost var b := list[..res];
    var n := res - at - gap;
    assert at + n == res - gap && at + gap + n == res;
    PrefixSlices(list[..], res, at, at + gap);
    MemMoveDown(list, at, at + gap, n);
    newRes := res - gap;
    assert list[..newRes] == b[..at] + b[at + gap..];
  }

  /** `strlen(a + i)`, where a NUL lies before `end`. */
  method StrLen(a: array<char>, i: nat, end: nat) returns (n: nat)
    requires i < end <= a.Length && a[end - 1] == NUL
    ensures n == NameLen(a[..end], i)
  {
    ghost var b := a[..end];
    n := 0;
    while a[i + n] != NUL
      invariant i + n < end
      invariant forall k | i <= k < i + n :: b[k] != NUL
      invariant NameLen(b, i) >= n
      decreases end - (i + n)
    {
      assert b[i + n] != NUL;
      n := n + 1;
      NameLenIsFirstNul(b, i, n);
    }
    NameLenIsFirstNul(b, i, n);
  }

  /** `xmp_listxattr(path, list, size)` once `listxattr` has answered:
      with a buffer and a positive count the listing is filtered in place
      and the shorter count returned; without a buffer the kernel's size
      is returned as it is; a failure returns `-errno`. */
  method Listxattr(list: array?<char>, reply: Sys) returns (r: int)
    requires reply.Done? && reply.count > 0 && list != null ==>
      reply.count <= list.Length && list[reply.count - 1] == NUL
    modifies list
    ensures reply.Failed? ==> r == -(reply.errno as int)
    ensures (reply.Done? && (list == null || reply.count == 0)) ==> r == reply.count
    ensures reply.Done? && reply.count > 0 && list != null ==>
      0 <= r <= reply.count && list[..r] == Filtered(old(list[..reply.count]), G_KAUTH_FILESEC_XATTR)
  {
    if reply.Failed? {
      return -(reply.errno as int);
    }
    r := reply.count;
    if r > 0 && list != null {
      r := FilterListing(list, reply.count, G_KAUTH_FILESEC_XATTR);
    }
  }

  // ---- fsetattr_x ----

  datatype Timespec = Timespec(sec: int, nsec: int)
  datatype Timeval = Timeval(sec: int, usec: int)

  /** `tv_usec = tv_nsec / 1000`, with C's division. */
  function ToTimeval(t: Timespec): (tv: Timeval)
    ensures tv.sec == t.sec
    ensures 0 <= t.nsec < 1_000_000_000 ==> 0 <= tv.usec < 1_000_000 && tv.usec == t.nsec / 1000
  {
    Timeval(t.sec, CDiv(t.nsec, 1000))
  }

  /** The sub-updates a `setattr_x` request can ask for. */
  datatype Want = WantMode | WantUid | WantGid | WantSize | WantAcctime | WantModtime
                | WantCrtime | WantChgtime | WantBkuptime | WantFlags

  datatype SetattrX = SetattrX(
    want: set<Want>, mode: nat, uid: U32, gid: U32, size: int,
    acctime: Timespec, modtime: Timespec, crtime: Timespec, chgtime: Timespec,
    bkuptime: Timespec, flags: U32)

  /** `(uid_t)-1` and `(gid_t)-1`: leave the id alone. */
  const NO_ID: U32 := 0xFFFF_FFFF

  /** The time attributes set through `setattrlist`. */
  datatype TimeAttr = CrTime | ChgTime | BkupTime

  /** The system calls `xmp_fsetattr_x` can make. */
  datatype Call =
    | Lchmod(mode: nat)
    | Lchown(uid: U32, gid: U32)
    | Ftruncate(fh: int, length: int)
    | Truncate(length: int)
    | Utimes(atime: Timeval, mtime: Timeval)
    | SetAttrList(attr: TimeAttr, time: Timespec)
    | Lchflags(flags: U32)

  /** The number of update steps. */
  const STEPS: nat := 8

  /** The step that makes each kind of call. */
  function Rank(c: Call): (k: nat)
    ensures k < STEPS
  {
    match c
    case Lchmod(_) => 0
    case Lchown(_, _) => 1
    case Ftruncate(_, _) => 2
    case Truncate(_) => 2
    case Utimes(_, _) => 3
    case SetAttrList(CrTime, _) => 4
    case SetAttrList(ChgTime, _) => 5
    case SetAttrList(BkupTime, _) => 6
    case Lchflags(_) => 7
  }

  /** The id passed to `lchown`: the requested one, or `-1`. */
  function IdArg(wanted: bool, id: U32): U32
  {
    if wanted then id else NO_ID
  }

  /** The call each step makes for a request, if any; `fh` is the open
      file's handle, when there is one, and `now` what `gettimeofday`
      reports. */
  function Pieces(a: SetattrX, fh: Option<int>, now: Timeval): seq<seq<Call>>
  {
    [ModeStep(a), OwnerStep(a), SizeStep(a, fh), TimesStep(a, now),
     TimeStep(a, WantCrtime, CrTime, a.crtime), TimeStep(a, WantChgtime, ChgTime, a.chgtime),
     TimeStep(a, WantBkuptime, BkupTime, a.bkuptime), FlagsStep(a)]
  }

  function ModeStep(a: SetattrX): seq<Call>
  {
    if WantMode in a.want then [Lchmod(a.mode)] else []
  }

  function OwnerStep(a: SetattrX): seq<Call>
  {
    var uid := IdArg(WantUid in a.want, a.uid);
    var gid := IdArg(WantGid in a.want, a.gid);
    if uid != NO_ID || gid != NO_ID then [Lchown(uid, gid)] else []
  }

  function SizeStep(a: SetattrX, fh: Option<int>): seq<Call>
  {
    if WantSize in a.want then [TruncateCall(a, fh)] else []
  }

  function TimesStep(a: SetattrX, now: Timeval): seq<Call>
  {
    if WantModtime in a.want then [UtimesCall(a, now)] else []
  }

  function TimeStep(a: SetattrX, w: Want, attr: TimeAttr, t: Timespec): seq<Call>
  {
    if w in a.want then [SetAttrList(attr, t)] else []
  }

  function FlagsStep(a: SetattrX): seq<Call>
  {
    if WantFlags in a.want then [Lchflags(a.flags)] else []
  }

  /** There is one step per kind of call, and each makes at most one call,
      of its own kind. */
  lemma PiecesShape(a: SetattrX, fh: Option<int>, now: Timeval)
    ensures var ps := Pieces(a, fh, now);
      |ps| == STEPS && forall k | 0 <= k < STEPS :: |ps[k]| <= 1 && forall c | c in ps[k] :: Rank(c) == k
  {
  }

  /** The calls of steps `k` onwards, in order. */
  function Concat(ps: seq<seq<Call>>, k: nat): seq<Call>
    requires k <= |ps|
    decreases |ps| - k
  {
    if k == |ps| then [] else ps[k] + Concat(ps, k + 1)
  }

  /** Every call a request asks for, in the order the code makes them. */
  function Plan(a: SetattrX, fh: Option<int>, now: Timeval): (p: seq<Call>)
    ensures forall i, j | 0 <= i < j < |p| :: Rank(p[i]) < Rank(p[j])
  {
    PiecesShape(a, fh, now);
    ConcatOrder(Pieces(a, fh, now), 0);
    Concat(Pieces(a, fh, now), 0)
  }

  /** When step `k` makes only calls of rank `k`, the calls of steps `k`
      onwards come in strictly increasing rank, and a call is among them
      exactly when its own step makes it. */
  lemma {:induction false} ConcatOrder(ps: seq<seq<Call>>, k: nat)
    requires k <= |ps| == STEPS
    requires forall m | 0 <= m < STEPS :: |ps[m]| <= 1 && forall c | c in ps[m] :: Rank(c) == m
    ensures var p := Concat(ps, k);
      && (forall i, j | 0 <= i < j < |p| :: Rank(p[i]) < Rank(p[j]))
      && (forall c :: c in p <==> k <= Rank(c) && c in ps[Rank(c)])
    decreases |ps| - k
  {
    if k < |ps| {
      ConcatOrder(ps, k + 1);
      var head := ps[k];
      var rest := Concat(ps, k + 1);
      var p := head + rest;
      forall i, j | 0 <= i < j < |p|
        ensures Rank(p[i]) < Rank(p[j])
      {
        if i < |head| {
          assert p[i] in head && p[j] == rest[j - |head|] && p[j] in rest;
        } else {
          assert p[i] == rest[i - |head|] && p[j] == rest[j - |head|];
        }
      }
    }
  }

  /** The plan makes each kind of call at most once, in the fixed order,
      and a call is in it exactly when its own step makes it. */
  lemma PlanOrder(a: SetattrX, fh: Option<int>, now: Timeval)
    ensures var p := Plan(a, fh, now);
      && (forall i, j | 0 <= i < j < |p| :: Rank(p[i]) < Rank(p[j]))
      && (forall c :: c in p <==> c in Pieces(a, fh, now)[Rank(c)])
  {
    PiecesShape(a, fh, now);
    ConcatOrder(Pieces(a, fh, now), 0);
  }

  /** The step that makes each kind of call. */
  lemma PiecesAre(a: SetattrX, fh: Option<int>, now: Timeval)
    ensures var ps := Pieces(a, fh, now);
      && ps[0] == ModeStep(a) && ps[1] == OwnerStep(a) && ps[2] == SizeStep(a, fh) && ps[3] == TimesStep(a, now)
      && ps[4] == TimeStep(a, WantCrtime, CrTime, a.crtime) && ps[5] == TimeStep(a, WantChgtime, ChgTime, a.chgtime)
      && ps[6] == TimeStep(a, WantBkuptime, BkupTime, a.bkuptime) && ps[7] == FlagsStep(a)
  {
  }

  /** The truncation a request asks for: of the open file when there is
      one, else of the path. */
  function TruncateCall(a: SetattrX, fh: Option<int>): Call
  {
    if fh.Some? then Ftruncate(fh.value, a.size) else Truncate(a.size)
  }

  /** The `utimes` call a request asks for: the access time from the
      clock unless that was requested too. */
  function UtimesCall(a: SetattrX, now: Timeval): Call
  {
    Utimes(if WantAcctime in a.want then ToTimeval(a.acctime) else now, ToTimeval(a.modtime))
  }

  /** `lchmod`, the truncation, `utimes` and `lchflags` are made exactly
      when requested, and no other call of those kinds is made. */
  lemma PlanUpdates(a: SetattrX, fh: Option<int>, now: Timeval)
    ensures var p := Plan(a, fh, now);
      && (Lchmod(a.mode) in p <==> WantMode in a.want)
      && (TruncateCall(a, fh) in p <==> WantSize in a.want)
      && (UtimesCall(a, now) in p <==> WantModtime in a.want)
      && (Lchflags(a.flags) in p <==> WantFlags in a.want)
      && (forall c | c in p && c.Lchmod? :: c == Lchmod(a.mode))
      && (forall c | c in p && (c.Ftruncate? || c.Truncate?) :: c == TruncateCall(a, fh))
      && (forall c | c in p && c.Utimes? :: c == UtimesCall(a, now))
      && (forall c | c in p && c.Lchflags? :: c == Lchflags(a.flags))
  {
    PlanOrder(a, fh, now);
    PiecesAre(a, fh, now);
    assert Rank(TruncateCall(a, fh)) == 2;
  }

  /** `lchown` is made exactly when an id other than `-1` results from
      the request, with `-1` for an id not requested (so asking for the id
      `-1` itself makes no call); the three `setattrlist` times are set
      exactly when requested; no other call of those kinds is made. */
  lemma PlanOwnerAndTimes(a: SetattrX, fh: Option<int>, now: Timeval)
    ensures var p := Plan(a, fh, now);
      var uid := IdArg(WantUid in a.want, a.uid);
      var gid := IdArg(WantGid in a.want, a.gid);
      && (Lchown(uid, gid) in p <==> uid != NO_ID || gid != NO_ID)
      && (forall c | c in p && c.Lchown? :: c == Lchown(uid, gid))
      && (SetAttrList(CrTime, a.crtime) in p <==> WantCrtime in a.want)
      && (SetAttrList(ChgTime, a.chgtime) in p <==> WantChgtime in a.want)
      && (SetAttrList(BkupTime, a.bkuptime) in p <==> WantBkuptime in a.want)
      && (forall c | c in p && c.SetAttrList? ::
            c == SetAttrList(c.attr, match c.attr case CrTime => a.crtime case ChgTime => a.chgtime case BkupTime => a.bkuptime))
  {
    PlanOrder(a, fh, now);
    PiecesAre(a, fh, now);
  }

  /** The calls made when each answers as `sys` says: up to and including
      the first that fails, with 0 or that call's `-errno`. */
  function Executed(plan: seq<Call>, sys: Call -> Sys): (seq<Call>, int)
  {
    if plan == [] then ([], 0)
    else if sys(plan[0]).Failed? then ([plan[0]], Ret(sys(plan[0])))
    else
      var r := Executed(plan[1..], sys);
      ([plan[0]] + r.0, r.1)
  }

  /** The result is 0 exactly when every call of the plan was made and
      succeeded; otherwise the last call made is the first that failed, and
      its `-errno` is returned. */
  lemma {:induction false} ExecutedOutcome(plan: seq<Call>, sys: Call -> Sys)
    ensures var (calls, res) := Executed(plan, sys);
      && calls <= plan
      && (res == 0 <==> calls == plan && forall i | 0 <= i < |plan| :: sys(plan[i]).Done?)
      && (res != 0 ==> calls != [] && sys(calls[|calls| - 1]).Failed? && res == Ret(sys(calls[|calls| - 1])))
      && (forall i | 0 <= i < |calls| - 1 :: sys(calls[i]).Done?)
  {
    if plan != [] && sys(plan[0]).Done? {
      ExecutedOutcome(plan[1..], sys);
      var (calls, res) := Executed(plan, sys);
      var (rest, _) := Executed(plan[1..], sys);
      assert calls == [plan[0]] + rest;
      forall i | 0 <= i < |calls| - 1
        ensures sys(calls[i]).Done?
      {
        if i > 0 { assert calls[i] == rest[i - 1]; }
      }
      if res == 0 {
        forall i | 0 <= i < |plan|
          ensures sys(plan[i]).Done?
        {
          if i > 0 { assert plan[i] == plan[1..][i - 1]; }
        }
      }
      if calls == plan && forall i | 0 <= i < |plan| :: sys(plan[i]).Done? {
        assert rest == plan[1..];
        forall i | 0 <= i < |plan| - 1
          ensures sys(plan[1..][i]).Done?
        {
          assert plan[1..][i] == plan[i + 1];
        }
      }
    }
  }

  /** Running a one-call step in front of the rest of the plan. */
  lemma ExecutedStep(c: Call, rest: seq<Call>, sys: Call -> Sys)
    ensures sys(c).Failed? ==> Executed([c] + rest, sys) == ([c], Ret(sys(c)))
    ensures sys(c).Done? ==> Executed([c] + rest, sys) == ([c] + Executed(rest, sys).0, Executed(rest, sys).1)
  {
    assert ([c] + rest)[1..] == rest;
  }

  /** The calls of the steps before `k`. */
  function Made(ps: seq<seq<Call>>, k: nat): seq<Call>
    requires k <= |ps|
  {
    if k == 0 then [] else Made(ps, k - 1) + ps[k - 1]
  }

  /** Every call in `calls` succeeded. */
  ghost predicate AllDone(calls: seq<Call>, sys: Call -> Sys)
  {
    forall i | 0 <= i < |calls| :: sys(calls[i]).Done?
  }

  /** The whole plan is the steps before `k` followed by the rest. */
  lemma {:induction false} ConcatSplit(ps: seq<seq<Call>>, k: nat)
    requires k <= |ps|
    ensures Concat(ps, 0) == Made(ps, k) + Concat(ps, k)
  {
    if k > 0 {
      ConcatSplit(ps, k - 1);
      assert Concat(ps, k - 1) == ps[k - 1] + Concat(ps, k);
    }
  }

  /** Calls that all succeed are followed by whatever the rest does. */
  lemma {:induction false} ExecutedConcat(xs: seq<Call>, ys: seq<Call>, sys: Call -> Sys)
    requires AllDone(xs, sys)
    ensures Executed(xs + ys, sys) == (xs + Executed(ys, sys).0, Executed(ys, sys).1)
  {
    if xs != [] {
      assert (xs + ys)[0] == xs[0] && (xs + ys)[1..] == xs[1..] + ys;
      assert AllDone(xs[1..], sys) by {
        forall i | 0 <= i < |xs| - 1
          ensures sys(xs[1..][i]).Done?
        {
          assert xs[1..][i] == xs[i + 1];
        }
      }
      ExecutedConcat(xs[1..], ys, sys);
      assert [xs[0]] + (xs[1..] + Executed(ys, sys).0) == xs + Executed(ys, sys).0;
    } else {
      assert xs + ys == ys;
      assert xs + Executed(ys, sys).0 == Executed(ys, sys).0;
    }
  }

  /** `xmp_fsetattr_x`: the requested updates one after another, stopping
      at the first that fails. Returns the calls made and the result. */
  method FsetattrX(a: SetattrX, fh: Option<int>, now: Timeval, sys: Call -> Sys) returns (calls: seq<Call>, res: int)
    ensures (calls, res) == Executed(Plan(a, fh, now), sys)
  {
    ghost var ps := Pieces(a, fh, now);
    PiecesAre(a, fh, now);
    calls, res := FirstSteps(a, fh, now, sys, ps);
    if res != 0 { return; }
    calls, res := LastSteps(a, sys, ps, calls);
  }

  /** The mode, owner, size and times steps of `xmp_fsetattr_x`. */
  method FirstSteps(a: SetattrX, fh: Option<int>, now: Timeval, sys: Call -> Sys, ghost ps: seq<seq<Call>>)
    returns (calls: seq<Call>, res: int)
    requires |ps| == STEPS
    requires ps[0] == ModeStep(a) && ps[1] == OwnerStep(a) && ps[2] == SizeStep(a, fh) && ps[3] == TimesStep(a, now)
    ensures res == 0 ==> calls == Made(ps, 4) && AllDone(calls, sys)
    ensures res != 0 ==> (calls, res) == Executed(Concat(ps, 0), sys)
  {
    calls := [];
    calls, res := RunStep(ps, sys, 0, calls, WantMode in a.want, Lchmod(a.mode));
    if res != 0 { return; }
    var uid := NO_ID;
    var gid := NO_ID;
    if WantUid in a.want {
      uid := a.uid;
    }
    if WantGid in a.want {
      gid := a.gid;
    }
    calls, res := RunStep(ps, sys, 1, calls, uid != NO_ID || gid != NO_ID, Lchown(uid, gid));
    if res != 0 { return; }
    var truncate := if fh.Some? then Ftruncate(fh.value, a.size) else Truncate(a.size);
    calls, res := RunStep(ps, sys, 2, calls, WantSize in a.want, truncate);
    if res != 0 { return; }
    var atime := if WantAcctime in a.want then ToTimeval(a.acctime) else now;
    calls, res := RunStep(ps, sys, 3, calls, WantModtime in a.want, Utimes(atime, ToTimeval(a.modtime)));
  }

  /** The three `setattrlist` steps and the flags step of
      `xmp_fsetattr_x`, after the first four steps all succeeded. */
  method LastSteps(a: SetattrX, sys: Call -> Sys, ghost ps: seq<seq<Call>>, before: seq<Call>)
    returns (calls: seq<Call>, res: int)
    requires |ps| == STEPS
    requires ps[4] == TimeStep(a, WantCrtime, CrTime, a.crtime) && ps[5] == TimeStep(a, WantChgtime, ChgTime, a.chgtime)
    requires ps[6] == TimeStep(a, WantBkuptime, BkupTime, a.bkuptime) && ps[7] == FlagsStep(a)
    requires before == Made(ps, 4) && AllDone(before, sys)
    ensures (calls, res) == Executed(Concat(ps, 0), sys)
  {
    calls, res := RunStep(ps, sys, 4, before, WantCrtime in a.want, SetAttrList(CrTime, a.crtime));
    if res != 0 { return; }
    calls, res := RunStep(ps, sys, 5, calls, WantChgtime in a.want, SetAttrList(ChgTime, a.chgtime));
    if res != 0 { return; }
    calls, res := RunStep(ps, sys, 6, calls, WantBkuptime in a.want, SetAttrList(BkupTime, a.bkuptime));
    if res != 0 { return; }
    calls, res := RunStep(ps, sys, 7, calls, WantFlags in a.want, Lchflags(a.flags));
  }

  /** Step `k`, after the earlier steps' calls all succeeded: when the
      step is wanted, make call `c`, record it and turn its answer into 0
      or `-errno`. A failure ends the whole run with the calls made so
      far. */
  method RunStep(ghost ps: seq<seq<Call>>, sys: Call -> Sys, ghost k: nat, before: seq<Call>, wanted: bool, c: Call)
    returns (calls: seq<Call>, res: int)
    requires k < |ps| && ps[k] == (if wanted then [c] else [])
    requires before == Made(ps, k) && AllDone(before, sys)
    ensures calls == Made(ps, k + 1)
    ensures res == 0 ==> AllDone(calls, sys)
    ensures res != 0 || k + 1 == |ps| ==> (calls, res) == Executed(Concat(ps, 0), sys)
  {
    if !wanted {
      assert before + [] == before;
      calls, res := before, 0;
    } else {
      calls := before + [c];
      res := Status(sys(c));
    }
    ConcatSplit(ps, k);
    ExecutedConcat(before, Concat(ps, k), sys);
    if wanted {
      assert Concat(ps, k) == [c] + Concat(ps, k + 1);
      ExecutedStep(c, Concat(ps, k + 1), sys);
    }
    if res == 0 && k + 1 == |ps| {
      ConcatSplit(ps, k + 1);
      ExecutedConcat(calls, [], sys);
      assert calls + [] == calls;
    }
  }

  // ---- utimens, readdir, readlink ----

  /** `xmp_utimens`: both times converted to `timeval` for `utimes`. */
  function Utimens(atime: Timespec, mtime: Timespec): (c: Call)
    ensures c.Utimes? && c.atime.sec == atime.sec && c.mtime.sec == mtime.sec
    ensures 0 <= atime.nsec < 1_000_000_000 ==> c.atime.usec == atime.nsec / 1000
    ensures 0 <= mtime.nsec < 1_000_000_000 ==> c.mtime.usec == mtime.nsec / 1000
  {
    Utimes(ToTimeval(atime), ToTimeval(mtime))
  }

  /** A directory entry as `readdir` returns it. */
  datatype Dirent = Dirent(ino: nat, dtype: bv8, name: CStr)

  /** What the filler is given: the name, the inode number and a mode
      holding only the file type, `d_type << 12`. */
  datatype Filled = Filled(name: CStr, ino: nat, mode: nat)

  function ModeOf(dtype: bv8): (m: nat)
    ensures m % 4096 == 0 && m / 4096 == dtype as nat
  {
    (dtype as nat) * 4096
  }

  /** The directory types become the matching `S_IF*` file types:
      `DT_DIR` 4 gives `S_IFDIR` 0o040000, `DT_REG` 8 gives `S_IFREG`
      0o100000 and `DT_LNK` 10 gives `S_IFLNK` 0o120000, with no
      permission bits. */
  lemma ModeOfTypes()
    ensures ModeOf(4) == 0x4000 && ModeOf(8) == 0x8000 && ModeOf(10) == 0xA000
  {
  }

  function FilledOf(e: Dirent): Filled
  {
    Filled(e.name, e.ino, ModeOf(e.dtype))
  }

  /** The entries as the filler is given them, in order. */
  function Converted(entries: seq<Dirent>): (r: seq<Filled>)
    ensures |r| == |entries|
    ensures forall i | 0 <= i < |r| :: r[i] == FilledOf(entries[i])
  {
    if entries == [] then []
    else Converted(entries[..|entries| - 1]) + [FilledOf(entries[|entries| - 1])]
  }

  /** `xmp_readdir` once `opendir` has answered (`dir` is `None` when it
      failed with `errno`). The filler takes `room` entries and refuses
      the next one; the loop stops at that first refusal, so the entries
      handed over are the first `room + 1`, or all of them when fewer. */
  method ReadDir(dir: Option<seq<Dirent>>, errno: Errno, room: nat) returns (filled: seq<Filled>, res: int)
    ensures dir.None? ==> res == -(errno as int) && filled == []
    ensures dir.Some? ==> res == 0 && filled == Converted(dir.value[..Min(room + 1, |dir.value|)])
  {
    if dir.None? {
      return [], -(errno as int);
    }
    var entries := dir.value;
    filled := [];
    var i := 0;
    while i < |entries|
      invariant i <= |entries| && i <= room
      invariant filled == Converted(entries[..i])
    {
      var refused := i >= room;
      filled := filled + [FilledOf(entries[i])];
      assert entries[..i + 1][..i] == entries[..i];
      i := i + 1;
      if refused {
        break;
      }
    }
    res := 0;
  }

  /** `xmp_readlink(path, buf, size)` once `readlink` has answered with the
      link's text (or `None` and `errno`): at most `size - 1` bytes are
      copied and a NUL is written after them. */
  method ReadLink(buf: array<char>, target: Option<CStr>, errno: Errno) returns (res: int)
    requires buf.Length > 0
    modifies buf
    ensures target.None? ==> res == -(errno as int) && buf[..] == old(buf[..])
    ensures target.Some? ==> res == 0
    ensures target.Some? ==>
      (var n := Min(|target.value|, buf.Length - 1);
       buf[..n] == target.value[..n] && buf[n] == NUL && buf[n + 1..] == old(buf[n + 1..]))
  {
    if target.None? {
      return -(errno as int);
    }
    var t := target.value;
    var n := Min(|t|, buf.Length - 1);
    var k := 0;
    while k < n
      invariant 0 <= k <= n
      invariant buf[..k] == t[..k]
      invariant buf[k..] == old(buf[k..])
    {
      buf[k] := t[k];
      k := k + 1;
    }
    buf[n] := NUL;
    res := 0;
  }
}
