/**
 * The session's "current data handle" slot and the scoped helpers of
 * dhandle.h that bind it around a body and restore it afterwards:
 * WT_WITH_DHANDLE and its variants WT_WITH_BTREE, WT_WITHOUT_DHANDLE and
 * WT_SAVE_DHANDLE.
 *
 * The body `e` of a macro is arbitrary code. It is modelled as a program of
 * Steps: it may overwrite the slot, read it (as nested code does to find
 * "its" handle), or open nested scopes of its own. `Exec` says what such a
 * program does to the slot and what it reads; the methods run it on a
 * Session and are proved to agree with `Exec`.
 */
module DHandleScope {
  import opened DataHandles

  /** The part of WT_SESSION_IMPL this model needs. */
  class Session {
    /** session->dhandle: the handle the current operation works on, or NULL. */
    var dhandle: DataHandle?
    /** F_ISSET(session, WT_SESSION_LOCKED_HANDLE_LIST). */
    var lockedHandleList: bool
    /** What the code run in this session has read from the slot, in order. */
    ghost var observed: seq<DataHandle?>

    constructor ()
      ensures dhandle == null && !lockedHandleList && observed == []
    {
      dhandle := null;
      lockedHandleList := false;
      observed := [];
    }
  }

  /** One step of a macro body. */
  datatype Step =
    | Assign(h: DataHandle?)                        // the body stores into session->dhandle
    | Peek                                          // the body reads session->dhandle
    | Bind(d: DataHandle?, body: seq<Step>)         // a nested WT_WITH_DHANDLE(s, d, body)
    | BindBtree(b: BtreeHandle, body: seq<Step>)    // a nested WT_WITH_BTREE(s, b, body)
    | Clear(body: seq<Step>)                        // a nested WT_WITHOUT_DHANDLE(s, body)
    | Keep(body: seq<Step>)                         // a nested WT_SAVE_DHANDLE(s, body)

  /** True of the steps that open a scope of their own. */
  predicate IsScope(st: Step) {
    !st.Assign? && !st.Peek?
  }

  /** The slot after running some steps, and the slot values they read, in order. */
  datatype Outcome = Outcome(slot: DataHandle?, seen: seq<DataHandle?>)

  /** What running `steps` with `slot` in session->dhandle does. */
  function Exec(slot: DataHandle?, steps: seq<Step>): Outcome
    decreases steps
  {
    if steps == [] then Outcome(slot, [])
    else
      var first := ExecStep(slot, steps[0]);
      var rest := Exec(first.slot, steps[1..]);
      Outcome(rest.slot, first.seen + rest.seen)
  }

  /**
   * One step. A scope saves the slot, binds its handle, runs its body and
   * writes the saved value back, whatever the body left in the slot.
   */
  function ExecStep(slot: DataHandle?, st: Step): Outcome
    decreases st
  {
    match st
    case Assign(h) => Outcome(h, [])
    case Peek => Outcome(slot, [slot])
    case Bind(d, body) => var saved := slot; Outcome(saved, Exec(d, body).seen)
    case BindBtree(b, body) => var saved := slot; Outcome(saved, Exec(b.dhandle, body).seen)
    case Clear(body) => var saved := slot; Outcome(saved, Exec(null, body).seen)
    case Keep(body) => var saved := slot; Outcome(saved, Exec(slot, body).seen)
  }

  /** Running `a` then `b`: `b` starts from the slot that `a` leaves behind. */
  lemma {:induction false} ExecAppend(x: DataHandle?, a: seq<Step>, b: seq<Step>)
    ensures Exec(x, a + b).slot == Exec(Exec(x, a).slot, b).slot
    ensures Exec(x, a + b).seen == Exec(x, a).seen + Exec(Exec(x, a).slot, b).seen
    decreases a
  {
    if a == [] {
      assert a + b == b;
    } else {
      assert (a + b)[0] == a[0];
      assert (a + b)[1..] == a[1..] + b;
      ExecAppend(ExecStep(x, a[0]).slot, a[1..], b);
    }
  }

  /** A scope of any kind hands the slot back unchanged, so the code after it sees the enclosing binding. */
  lemma ScopeRestores(x: DataHandle?, st: Step, post: seq<Step>)
    requires IsScope(st)
    ensures Exec(x, [st] + post).slot == Exec(x, post).slot
    ensures Exec(x, [st] + post).seen == ExecStep(x, st).seen + Exec(x, post).seen
  {
    assert ([st] + post)[1..] == post;
  }

  /**
   * Each macro enters its body with its own binding: WT_WITH_DHANDLE with `d`,
   * WT_WITH_BTREE with the btree's handle, WT_WITHOUT_DHANDLE with NULL and
   * WT_SAVE_DHANDLE with the caller's handle.
   */
  lemma ScopeEntry(x: DataHandle?, d: DataHandle?, b: BtreeHandle, rest: seq<Step>)
    ensures Exec(x, [Bind(d, [Peek] + rest)]).seen == [d] + Exec(d, rest).seen
    ensures Exec(x, [BindBtree(b, [Peek] + rest)]).seen == [b.dhandle] + Exec(b.dhandle, rest).seen
    ensures Exec(x, [Clear([Peek] + rest)]).seen == [null] + Exec(null, rest).seen
    ensures Exec(x, [Keep([Peek] + rest)]).seen == [x] + Exec(x, rest).seen
  {
    assert ([Peek] + rest)[1..] == rest;
    assert Exec(d, [Peek] + rest).seen == [d] + Exec(d, rest).seen;
    assert Exec(b.dhandle, [Peek] + rest).seen == [b.dhandle] + Exec(b.dhandle, rest).seen;
    assert Exec(null, [Peek] + rest).seen == [null] + Exec(null, rest).seen;
    assert Exec(x, [Peek] + rest).seen == [x] + Exec(x, rest).seen;
  }

  /**
   * Binding A, then binding B inside it, then leaving B's scope gives A back
   * (not NULL); leaving A's scope gives back the caller's value.
   */
  lemma NestedRestoresEnclosing(x: DataHandle?, a: DataHandle?, b: DataHandle?, inner: seq<Step>, post: seq<Step>)
    ensures Exec(x, [Bind(a, [Bind(b, inner), Peek] + post)]).slot == x
    ensures Exec(x, [Bind(a, [Bind(b, inner), Peek] + post)]).seen
         == Exec(b, inner).seen + [a] + Exec(a, post).seen
  {
    var body := [Bind(b, inner), Peek] + post;
    assert body == [Bind(b, inner)] + ([Peek] + post);
    ScopeRestores(a, Bind(b, inner), [Peek] + post);
    assert ([Peek] + post)[1..] == post;
  }

  /** `ds` nested WT_WITH_DHANDLE scopes, outermost first, around `body`. */
  function Nest(ds: seq<DataHandle?>, body: seq<Step>): seq<Step>
    decreases |ds|
  {
    if ds == [] then body else [Bind(ds[0], Nest(ds[1..], body))]
  }

  /**
   * At any nesting depth the innermost binding is the one the body runs
   * with, and the whole nest hands the caller's slot back.
   */
  lemma {:induction false} NestedScopes(x: DataHandle?, ds: seq<DataHandle?>, body: seq<Step>)
    requires ds != []
    ensures Exec(x, Nest(ds, body)) == Outcome(x, Exec(ds[|ds| - 1], body).seen)
    decreases |ds|
  {
    if |ds| > 1 {
      NestedScopes(ds[0], ds[1..], body);
    }
  }

  /** A body that never stores into the slot itself (its nested scopes may) ends with the slot it started with. */
  lemma {:induction false} NoAssignKeepsSlot(x: DataHandle?, steps: seq<Step>)
    requires forall i :: 0 <= i < |steps| ==> !steps[i].Assign?
    ensures Exec(x, steps).slot == x
  {
    if steps != [] {
      assert !steps[0].Assign?;
      NoAssignKeepsSlot(x, steps[1..]);
    }
  }

  /** Runs a body on the session. */
  method Run(s: Session, steps: seq<Step>)
    modifies s`dhandle, s`observed
    ensures s.dhandle == Exec(old(s.dhandle), steps).slot
    ensures s.observed == old(s.observed) + Exec(old(s.dhandle), steps).seen
    decreases steps, 0
  {
    if steps != [] {
      RunStep(s, steps[0]);
      Run(s, steps[1..]);
    }
  }

  method RunStep(s: Session, st: Step)
    modifies s`dhandle, s`observed
    ensures s.dhandle == ExecStep(old(s.dhandle), st).slot
    ensures s.observed == old(s.observed) + ExecStep(old(s.dhandle), st).seen
    decreases st
  {
    match st
    case Assign(h) => s.dhandle := h;
    case Peek => s.observed := s.observed + [s.dhandle];
    case Bind(d, body) => WithDHandle(s, d, body);
    case BindBtree(b, body) => WithBtree(s, b, body);
    case Clear(body) => WithoutDHandle(s, body);
    case Keep(body) => SaveDHandle(s, body);
  }

  /**
   * WT_WITH_DHANDLE(s, d, e): the body runs with session->dhandle == d, and
   * afterwards the slot holds its value from before the macro.
   */
  method WithDHandle(s: Session, d: DataHandle?, body: seq<Step>)
    modifies s`dhandle, s`observed
    ensures s.dhandle == old(s.dhandle)
    ensures s.observed == old(s.observed) + Exec(d, body).seen
    decreases body, 1
  {
    var saved := s.dhandle;
    s.dhandle := d;
    Run(s, body);
    s.dhandle := saved;
  }

  /** WT_WITH_BTREE(s, b, e): binds the btree's own handle. */
  method WithBtree(s: Session, b: BtreeHandle, body: seq<Step>)
    modifies s`dhandle, s`observed
    ensures s.dhandle == old(s.dhandle)
    ensures s.observed == old(s.observed) + Exec(b.dhandle, body).seen
    decreases body, 2
  {
    WithDHandle(s, b.dhandle, body);
  }

  /** WT_WITHOUT_DHANDLE(s, e): the body runs with no current handle. */
  method WithoutDHandle(s: Session, body: seq<Step>)
    modifies s`dhandle, s`observed
    ensures s.dhandle == old(s.dhandle)
    ensures s.observed == old(s.observed) + Exec(null, body).seen
    decreases body, 2
  {
    WithDHandle(s, null, body);
  }

  /** WT_SAVE_DHANDLE(s, e): the body starts with the caller's handle, which is put back afterwards. */
  method SaveDHandle(s: Session, body: seq<Step>)
    modifies s`dhandle, s`observed
    ensures s.dhandle == old(s.dhandle)
    ensures s.observed == old(s.observed) + Exec(old(s.dhandle), body).seen
    decreases body, 2
  {
    WithDHandle(s, s.dhandle, body);
  }
}
