/**
 * The data handle itself (struct __wt_data_handle in dhandle.h), reduced to
 * the members this model uses: its name, its flag word, the reference count
 * `session_ref` and the link `q` of the connection's insertion-ordered
 * handle list; and WT_DHANDLE_ACQUIRE / WT_DHANDLE_RELEASE on that count.
 */
module DataHandles {
  import opened DHandleFlags

  /** The two kinds of object a handle can stand for. */
  datatype HandleType = Btree | Table

  class DataHandle {
    /** Object name as a URI; the handle's identity in this model. */
    const name: string
    const kind: HandleType
    /** Sessions referencing this handle. */
    var sessionRef: nat
    var flags: Word
    /** TAILQ_NEXT(dhandle, q): the successor in the connection's handle list. */
    var next: DataHandle?

    constructor (name: string, kind: HandleType)
      ensures this.name == name && this.kind == kind
      ensures sessionRef == 0 && flags == 0 && next == null
      ensures Inactive(flags)
    {
      this.name := name;
      this.kind := kind;
      sessionRef := 0;
      flags := 0;
      next := null;
    }

    /** WT_DHANDLE_ACQUIRE: one more session references the handle. */
    method Acquire()
      modifies this`sessionRef
      ensures sessionRef == old(sessionRef) + 1
    {
      sessionRef := sessionRef + 1;
    }

    /**
     * WT_DHANDLE_RELEASE: one session fewer references the handle. The
     * caller must hold a reference it acquired, so the count is positive.
     */
    method Release()
      requires sessionRef > 0
      modifies this`sessionRef
      ensures sessionRef == old(sessionRef) - 1
    {
      sessionRef := sessionRef - 1;
    }
  }

  /** An acquire followed by a release gives the count back and touches nothing else. */
  method AcquireRelease(h: DataHandle)
    modifies h`sessionRef
    ensures h.sessionRef == old(h.sessionRef)
  {
    h.Acquire();
    assert h.sessionRef > 0;
    h.Release();
  }

  /** The part of a btree this model needs: the data handle it belongs to (`btree->dhandle`). */
  class BtreeHandle {
    const dhandle: DataHandle?

    constructor (dhandle: DataHandle?)
      ensures this.dhandle == dhandle
    {
      this.dhandle := dhandle;
    }
  }
}
