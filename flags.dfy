/**
 * The flag word of a data handle and the two status predicates derived from
 * it (dhandle.h): the eight WT_DHANDLE_* bits, WT_DHANDLE_INACTIVE and
 * WT_DHANDLE_CAN_REOPEN.
 *
 * The word is kept as the 32-bit value the handle stores; beside it, the set
 * of named flags it holds gives each predicate an independent meaning that
 * the bit formulas are proved against.
 */
module DHandleFlags {

  /** The handle's `uint32_t flags`. */
  type Word = bv32

  const DEAD: Word := 0x01          // dead, awaiting discard
  const DISCARD: Word := 0x02       // close on release
  const DISCARD_KILL: Word := 0x04  // mark dead on release
  const DROPPED: Word := 0x08       // handle is dropped
  const EXCLUSIVE: Word := 0x10     // exclusive access
  const IS_METADATA: Word := 0x20   // metadata handle
  const LOCK_ONLY: Word := 0x40     // handle only used as a lock
  const OPEN: Word := 0x80          // handle is open

  /** The bits a data handle may use; values above 0xff are reserved for the btree. */
  const HANDLE_BITS: Word := 0xff

  /** F_ISSET: true when ANY bit of `mask` is set in `flags`. */
  predicate IsSet(flags: Word, mask: Word) {
    flags & mask != 0
  }

  /** The eight flags by name. */
  datatype Flag = Dead | Discard | DiscardKill | Dropped | Exclusive | IsMetadata | LockOnly | Open

  /** The bit constant of each flag: a single bit inside the handle's byte. */
  function Bit(f: Flag): (b: Word)
    ensures b != 0 && b & (b - 1) == 0
    ensures b & HANDLE_BITS == b
  {
    match f
    case Dead => DEAD
    case Discard => DISCARD
    case DiscardKill => DISCARD_KILL
    case Dropped => DROPPED
    case Exclusive => EXCLUSIVE
    case IsMetadata => IS_METADATA
    case LockOnly => LOCK_ONLY
    case Open => OPEN
  }

  /** Distinct flags have disjoint bits, so no two constants share a value. */
  lemma BitsDisjoint(f: Flag, g: Flag)
    requires f != g
    ensures Bit(f) & Bit(g) == 0
    ensures Bit(f) != Bit(g)
  {
    match f
    case Dead =>
    case Discard =>
    case DiscardKill =>
    case Dropped =>
    case Exclusive =>
    case IsMetadata =>
    case LockOnly =>
    case Open =>
  }

  /** All eight flags. */
  const AllFlags: set<Flag> := {Dead, Discard, DiscardKill, Dropped, Exclusive, IsMetadata, LockOnly, Open}

  /** The named flags a word holds (bits outside HANDLE_BITS name no flag). */
  function Members(flags: Word): set<Flag> {
    set f | f in AllFlags && IsSet(flags, Bit(f))
  }

  /** A flag is among a word's members exactly when F_ISSET finds its bit. */
  lemma MemberBit(flags: Word, f: Flag)
    ensures f in Members(flags) <==> IsSet(flags, Bit(f))
  {
    assert f in AllFlags by {
      match f
      case Dead =>
      case Discard =>
      case DiscardKill =>
      case Dropped =>
      case Exclusive =>
      case IsMetadata =>
      case LockOnly =>
      case Open =>
    }
  }

  /** The bit of `f` if `f` is in `s`, otherwise no bit. */
  function Pick(s: set<Flag>, f: Flag): (w: Word)
    ensures w & HANDLE_BITS == w
  {
    if f in s then Bit(f) else 0
  }

  /** The word that holds exactly the flags of `s`. */
  function Encode(s: set<Flag>): (w: Word)
    ensures w & HANDLE_BITS == w
  {
    Pick(s, Dead) | Pick(s, Discard) | Pick(s, DiscardKill) | Pick(s, Dropped)
    | Pick(s, Exclusive) | Pick(s, IsMetadata) | Pick(s, LockOnly) | Pick(s, Open)
  }

  /** Each flag's bit is set in Encode(s) exactly when the flag is in `s`. */
  lemma EncodeBit(s: set<Flag>, f: Flag)
    ensures IsSet(Encode(s), Bit(f)) <==> f in s
  {
    forall g | g != f
      ensures Pick(s, g) & Bit(f) == 0
    {
      BitsDisjoint(g, f);
    }
    match f
    case Dead =>
    case Discard =>
    case DiscardKill =>
    case Dropped =>
    case Exclusive =>
    case IsMetadata =>
    case LockOnly =>
    case Open =>
  }

  /** Encoding a set of flags and reading the flags back gives the same set. */
  lemma MembersEncode(s: set<Flag>)
    ensures Members(Encode(s)) == s
  {
    forall f ensures f in Members(Encode(s)) <==> f in s {
      EncodeBit(s, f);
      MemberBit(Encode(s), f);
    }
  }

  /** A word is determined by its named flags up to the reserved bits above 0xff. */
  lemma EncodeMembers(flags: Word)
    ensures Encode(Members(flags)) == flags & HANDLE_BITS
  {
    var m := Members(flags);
    MemberBit(flags, Dead);
    MemberBit(flags, Discard);
    MemberBit(flags, DiscardKill);
    MemberBit(flags, Dropped);
    MemberBit(flags, Exclusive);
    MemberBit(flags, IsMetadata);
    MemberBit(flags, LockOnly);
    MemberBit(flags, Open);
    assert Pick(m, Dead) == flags & DEAD;
    assert Pick(m, Discard) == flags & DISCARD;
    assert Pick(m, DiscardKill) == flags & DISCARD_KILL;
    assert Pick(m, Dropped) == flags & DROPPED;
    assert Pick(m, Exclusive) == flags & EXCLUSIVE;
    assert Pick(m, IsMetadata) == flags & IS_METADATA;
    assert Pick(m, LockOnly) == flags & LOCK_ONLY;
    assert Pick(m, Open) == flags & OPEN;
  }

  /**
   * WT_DHANDLE_INACTIVE: DEAD is set, or neither EXCLUSIVE nor OPEN is set
   * (the two-bit F_ISSET tests for either bit).
   */
  function Inactive(flags: Word): (r: bool)
    ensures r <==> Dead in Members(flags) || (Exclusive !in Members(flags) && Open !in Members(flags))
  {
    MemberBit(flags, Dead);
    MemberBit(flags, Exclusive);
    MemberBit(flags, Open);
    IsSet(flags, DEAD) || !IsSet(flags, EXCLUSIVE | OPEN)
  }

  /** WT_DHANDLE_CAN_REOPEN: not inactive, OPEN set and DROPPED clear. */
  function CanReopen(flags: Word): (r: bool)
    ensures r <==> Dead !in Members(flags) && Open in Members(flags) && Dropped !in Members(flags)
    ensures r ==> !Inactive(flags)
    ensures Dropped in Members(flags) ==> !r
  {
    MemberBit(flags, Dead);
    MemberBit(flags, Open);
    MemberBit(flags, Dropped);
    !Inactive(flags) && IsSet(flags, OPEN) && !IsSet(flags, DROPPED)
  }

  /** A handle with no flags set, as a new handle starts, is inactive. */
  lemma NoFlagsInactive()
    ensures Inactive(0)
    ensures !CanReopen(0)
  {
  }

  /** Setting OPEN on a handle that is not dead makes it active. */
  lemma OpenNotDeadIsActive(flags: Word)
    requires Dead !in Members(flags)
    ensures !Inactive(flags | OPEN)
    ensures CanReopen(flags | OPEN) <==> Dropped !in Members(flags)
  {
  }

  /** Once DEAD is set the handle is inactive and cannot be reopened, whatever else is set. */
  lemma DeadIsInactive(flags: Word)
    ensures Inactive(flags | DEAD)
    ensures !CanReopen(flags | DEAD)
  {
  }
}
