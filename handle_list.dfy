/**
 * The connection's insertion-ordered list of data handles (the TAILQ whose
 * link is the handle's `q` field) and WT_DHANDLE_NEXT, the step a session
 * takes to walk it: release the handle it is on, move to the successor,
 * acquire that one. A walk repeats the step from NULL until it is back at
 * NULL.
 */
module DHandleList {
  import opened DHandleFlags
  import opened DataHandles
  import opened DHandleScope

  /** The part of the connection this model needs: the head of its handle list. */
  class Connection {
    /** TAILQ_FIRST(&conn->dhqh). */
    var head: DataHandle?
    /** The handles on the list, in list order. */
    ghost var handles: seq<DataHandle>

    /**
     * The links spell out `handles`: the head is the first handle, each
     * handle's `next` is the one after it (NULL after the last), and no
     * handle is on the list twice.
     */
    ghost predicate Valid()
      reads this, handles`next
    {
      && head == (if handles == [] then null else handles[0])
      && (forall i :: 0 <= i < |handles| ==>
            handles[i].next == (if i + 1 < |handles| then handles[i + 1] else null))
      && (forall i, j :: 0 <= i < j < |handles| ==> handles[i] != handles[j])
    }

    /** The link of the handle at position `k` leads to position `k + 1`, or to NULL at the end. */
    lemma LinkAt(k: nat)
      requires Valid() && k < |handles|
      ensures handles[k].next == (if k + 1 < |handles| then handles[k + 1] else null)
    {
    }

    constructor ()
      ensures Valid() && handles == []
    {
      head := null;
      handles := [];
    }
  }

  /**
   * WT_DHANDLE_NEXT(session, dhandle, head, q). The session must hold the
   * handle-list lock. From NULL the step moves to the head of the list;
   * otherwise it releases `dhandle` and moves to its successor. It acquires
   * the handle it arrives at, if any. The list, its links and every
   * handle's flags stay as they were.
   */
  method Next(session: Session, conn: Connection, dhandle: DataHandle?) returns (next: DataHandle?)
    requires session.lockedHandleList
    requires conn.Valid()
    requires dhandle != null ==> dhandle in conn.handles && dhandle.sessionRef > 0
    modifies conn.handles`sessionRef
    ensures conn.Valid()
    ensures dhandle == null ==> next == (if conn.handles == [] then null else conn.handles[0])
    ensures dhandle != null ==> next == dhandle.next
    ensures next != null ==> next in conn.handles
    ensures forall h :: h in conn.handles ==>
              h.sessionRef == old(h.sessionRef) - (if h == dhandle then 1 else 0) + (if h == next then 1 else 0)
    ensures forall h :: h in conn.handles ==> h.flags == old(h.flags) && h.next == old(h.next)
  {
    if dhandle == null {
      next := conn.head;
    } else {
      ghost var k :| 0 <= k < |conn.handles| && conn.handles[k] == dhandle;
      conn.LinkAt(k);
      dhandle.Release();
      next := dhandle.next;
      assert next == (if k + 1 < |conn.handles| then conn.handles[k + 1] else null);
    }
    if next != null {
      next.Acquire();
    }
    assert forall i :: 0 <= i < |conn.handles| ==> conn.handles[i].next == old(conn.handles[i].next);
  }

  /**
   * A full walk of the handle list: WT_DHANDLE_NEXT from NULL until NULL
   * again. It visits every handle once, in list order; while it stands on a
   * handle that handle alone holds one extra reference; and when it ends
   * every reference count is what it was before.
   */
  method Walk(session: Session, conn: Connection) returns (visited: seq<DataHandle>)
    requires session.lockedHandleList
    requires conn.Valid()
    modifies conn.handles`sessionRef
    ensures conn.Valid()
    ensures visited == conn.handles
    ensures forall i, j :: 0 <= i < j < |visited| ==> visited[i] != visited[j]
    ensures forall h :: h in conn.handles ==> h.sessionRef == old(h.sessionRef)
    ensures forall h :: h in conn.handles ==> h.flags == old(h.flags)
  {
    visited := [];
    ghost var n := |conn.handles|;
    var dhandle := Next(session, conn, null);
    while dhandle != null
      invariant conn.Valid() && |conn.handles| == n
      invariant |visited| <= n
      invariant visited == conn.handles[..|visited|]
      invariant dhandle == (if |visited| < n then conn.handles[|visited|] else null)
      invariant forall h :: h in conn.handles ==>
                  h.sessionRef == old(h.sessionRef) + (if h == dhandle then 1 else 0)
      decreases n - |visited|
    {
      ghost var k := |visited|;
      conn.LinkAt(k);
      PrefixGrows(conn.handles, k);
      visited := visited + [dhandle];
      dhandle := Next(session, conn, dhandle);
    }
    assert conn.handles[..n] == conn.handles;
  }

  /** The prefix of `s` one longer than `s[..k]` ends with `s[k]`. */
  lemma PrefixGrows<T>(s: seq<T>, k: nat)
    requires k < |s|
    ensures s[..k + 1] == s[..k] + [s[k]]
  {
  }
}
