# WiredTiger data handles: flags, the session's current handle, and the handle-list walk

This project models the core of WiredTiger's data-handle header
(`src/include/dhandle.h`). A data handle stands for one open named data
source, a btree or a table. The header defines three pieces of behaviour:

- **Flag word and status predicates.** The eight `WT_DHANDLE_*` bits
  (DEAD, DISCARD, DISCARD_KILL, DROPPED, EXCLUSIVE, IS_METADATA, LOCK_ONLY,
  OPEN) live in the handle's 32-bit `flags`. Two predicates are derived from
  them: `WT_DHANDLE_INACTIVE` and `WT_DHANDLE_CAN_REOPEN`. Module
  `DHandleFlags` (flags.dfy) keeps the word as a `bv32` and evaluates the
  predicates as the macros do, with `F_ISSET` meaning "any bit of the mask is
  set". Each predicate is also proved equal to a statement over the set of
  named flags the word holds, and each constant is proved to be its own
  single bit inside 0xff.
- **The session's current-handle slot.** `WT_WITH_DHANDLE(s, d, e)` saves
  `session->dhandle`, binds `d`, runs `e` and writes the saved value back.
  `WT_WITH_BTREE`, `WT_WITHOUT_DHANDLE` and `WT_SAVE_DHANDLE` are variants of
  it. Module `DHandleScope` (scope.dfy) has a `Session` class with a mutable
  `dhandle` field. The macro body is any program of `Step`s: it may store
  into the slot, read it, or open nested scopes. The methods run such a
  program on the session and are proved to agree with the function `Exec`.
  The restore and nesting properties are lemmas about `Exec`.
- **Reference counts and the list walk.** `WT_DHANDLE_ACQUIRE` and
  `WT_DHANDLE_RELEASE` change `session_ref` by one; they are methods of the
  `DataHandle` class in module `DataHandles` (handle.dfy). In module
  `DHandleList` (handle_list.dfy), `WT_DHANDLE_NEXT` is one step over the
  connection's insertion-ordered handle list. The list is kept as real
  `next` links from a `head`, plus a ghost sequence that the links must
  spell out. A full walk from NULL back to NULL visits every handle once, in
  list order, and leaves every count as it found it.

The walk step follows the code's order: it releases the current handle
(dhandle.h:52) and only then acquires the next (dhandle.h:56). Some
descriptions of this walk say the next handle is acquired before the
current one is released; the code does not do that. Between the two
updates, the handle being left may be back at its original count, possibly
zero. What keeps it alive is the handle-list lock that the step asserts
(dhandle.h:48). The model states that lock as a precondition of `Next`.

## Model

| member | source | states |
|---|---|---|
| DHandleFlags.Bit | src/third_party/wiredtiger/src/include/dhandle.h:105-126 | every flag constant is a non-zero single bit and lies within 0xff |
| DHandleFlags.BitsDisjoint | src/third_party/wiredtiger/src/include/dhandle.h:105-126 | two different flags have disjoint bits, so no two constants are equal |
| DHandleFlags.MemberBit | src/third_party/wiredtiger/src/include/dhandle.h:105-126 | a named flag is among a word's flags exactly when its bit is set in the word |
| DHandleFlags.EncodeBit | src/third_party/wiredtiger/src/include/dhandle.h:105-126 | the word built from a set of flags has a flag's bit set exactly when the flag is in the set |
| DHandleFlags.MembersEncode | src/third_party/wiredtiger/src/include/dhandle.h:103-128 | building a word from a set of flags and reading the flags back gives the same set |
| DHandleFlags.EncodeMembers | src/third_party/wiredtiger/src/include/dhandle.h:103-128 | the named flags determine a word except for the bits above 0xff, which are reserved for the btree |
| DHandleFlags.Inactive | src/third_party/wiredtiger/src/include/dhandle.h:31-32 | INACTIVE holds exactly when DEAD is set, or when neither EXCLUSIVE nor OPEN is set (the two-bit F_ISSET tests for either bit) |
| DHandleFlags.CanReopen | src/third_party/wiredtiger/src/include/dhandle.h:35-37 | CAN_REOPEN holds exactly when DEAD is clear, OPEN is set and DROPPED is clear; it implies not INACTIVE; it is false whenever DROPPED is set, whatever OPEN is |
| DHandleFlags.NoFlagsInactive | src/third_party/wiredtiger/src/include/dhandle.h:31-37 | a handle with no flags set is inactive and cannot be reopened |
| DHandleFlags.OpenNotDeadIsActive | src/third_party/wiredtiger/src/include/dhandle.h:31-37 | setting OPEN on a handle that is not dead makes it active; it can then be reopened exactly when it is not dropped |
| DHandleFlags.DeadIsInactive | src/third_party/wiredtiger/src/include/dhandle.h:31-37 | with DEAD set a handle is inactive and cannot be reopened, whatever else is set |
| DataHandles.DataHandle.Acquire | src/third_party/wiredtiger/src/include/dhandle.h:42 | ACQUIRE raises `session_ref` by exactly one and changes no other field |
| DataHandles.DataHandle.Release | src/third_party/wiredtiger/src/include/dhandle.h:44 | RELEASE lowers `session_ref` by exactly one and changes no other field |
| DataHandles.AcquireRelease | src/third_party/wiredtiger/src/include/dhandle.h:42-44 | an acquire followed by a release leaves the count as it was and changes no other field |
| DHandleScope.WithDHandle | src/third_party/wiredtiger/src/include/dhandle.h:12-18 | the body runs with the slot bound to `d`; afterwards the slot holds its value from before the macro, whatever the body stored |
| DHandleScope.WithBtree | src/third_party/wiredtiger/src/include/dhandle.h:20 | the body runs with the btree's own handle bound; the prior slot value is restored afterwards |
| DHandleScope.WithoutDHandle | src/third_party/wiredtiger/src/include/dhandle.h:23 | the body runs with NULL bound; the prior slot value is restored afterwards |
| DHandleScope.SaveDHandle | src/third_party/wiredtiger/src/include/dhandle.h:25-28 | the body runs with the caller's handle still bound; the slot is restored afterwards even if the body overwrote it |
| DHandleScope.Run | src/third_party/wiredtiger/src/include/dhandle.h:16 | running a body leaves the slot and the reads that `Exec` predicts |
| DHandleScope.RunStep | src/third_party/wiredtiger/src/include/dhandle.h:12-28 | one body step (store, read, or a nested scope of any of the four kinds) has the effect `ExecStep` predicts |
| DHandleScope.ExecAppend | src/third_party/wiredtiger/src/include/dhandle.h:16 | running two pieces of body in sequence: the second starts from the slot the first leaves, and their reads concatenate |
| DHandleScope.ScopeRestores | src/third_party/wiredtiger/src/include/dhandle.h:12-28 | any scope hands the slot back unchanged, so the code after it sees the enclosing binding |
| DHandleScope.ScopeEntry | src/third_party/wiredtiger/src/include/dhandle.h:12-28 | each macro enters its body with its own binding: `d`, the btree's handle, NULL, or the caller's handle |
| DHandleScope.NestedRestoresEnclosing | src/third_party/wiredtiger/src/include/dhandle.h:12-18 | binding A, then B inside it, then leaving B's scope gives back A, not NULL; leaving A's scope gives back the caller's value |
| DHandleScope.NestedScopes | src/third_party/wiredtiger/src/include/dhandle.h:12-18 | at any nesting depth the body runs with the innermost binding and the whole nest hands back the caller's value |
| DHandleScope.NoAssignKeepsSlot | src/third_party/wiredtiger/src/include/dhandle.h:12-18 | a body that never stores into the slot itself ends with the slot it started with, however many scopes it opens |
| DHandleList.Next | src/third_party/wiredtiger/src/include/dhandle.h:46-57 | needs the handle-list lock; from NULL it moves to the list head; otherwise it releases the current handle and moves to its successor; it acquires the new handle if it is not NULL; every count moves by exactly those steps; the list, its links and every handle's flags are unchanged |
| DHandleList.Walk | src/third_party/wiredtiger/src/include/dhandle.h:46-57 | applying NEXT from NULL until NULL visits exactly the handles of the list, in list order, none twice; its loop invariant keeps one extra reference on the current handle only, between steps; at the end every `session_ref` equals its original value |

## Left out

- `rwlock` (dhandle.h:64) and `close_lock` (dhandle.h:97): real locks whose purpose is concurrency. The model is sequential. The handle-list lock appears only as the boolean `Session.lockedHandleList`, a precondition of `DHandleList.Next`.
- Atomicity of `__wt_atomic_add32` and `__wt_atomic_sub32` (dhandle.h:42-44): they are plain increments and decrements here.
- DataHandles.DataHandle.Release: requires `session_ref > 0`, which the code does not check. Releasing a reference that was never acquired is a caller error, and the walk only releases handles it acquired.
- DataHandles.DataHandle.Acquire: `session_ref` is an unbounded natural number, so the 32-bit wrap-around of `uint32_t` is not modelled. The count of sessions never comes near 2^32.
- `WT_SESSION_META_DHANDLE` (dhandle.h:40): it casts through the metadata cursor type, which is not part of this model.
- Handle members not used by any macro in the header: `session_inuse`, `excl_ref`, `excl_session`, `timeofdeath`, `checkpoint`, `cfg`, `meta_base`, `name_hash`, `dsrc`, `handle`, `compact_skip`, the statistics arrays, and the hash-bucket link `hashq` (dhandle.h:66-101). The handle keeps `name` and its type only as identity.
- Name lookup, handle creation and removal, shared and exclusive acquisition with busy failure, lock-only acquisition, and the discard and dead transitions on release. None of these are implemented in dhandle.h, and the files that implement them are not part of this model. List insertion is also outside the model; `Connection` only has an empty constructor and the `Valid` invariant that the walk relies on.
- The body of a scope macro is modelled as code that runs to completion. In C, a body that jumps out of the macro (`goto`, `return`) would skip the restore; bodies of that kind are not modelled.
- The session's flag word is not modelled; only `WT_SESSION_LOCKED_HANDLE_LIST` is kept, as a boolean. That flag's value is defined outside dhandle.h.
