// The undo/redo bookkeeping of common/AnimationScene.kt: the `changes` map,
// `changePointer`, `canRedo` and `redoPointer`. The scene keeps these four
// fields itself; the functions here say how applyChange, undo, redo and
// resetScene move them, and which stored change undo or redo then runs.

module History {
  import opened Common

  /** The four history fields of a scene. */
  datatype History<C> = History(changes: map<int, C>, pointer: int, canRedo: bool, redoPointer: int)

  /** A fresh scene: no changes, every counter 0. */
  function Initial<C>(): History<C>
  {
    History(map[], 0, false, 0)
  }

  /** The invariant the four operations keep: the pointer is never
      negative, every slot below it holds a change, and while redo is
      possible the pointer is below `redoPointer` and every slot below that
      holds a change too. */
  predicate Valid<C>(h: History<C>)
  {
    && 0 <= h.pointer
    && (forall k :: 0 <= k < h.pointer ==> k in h.changes)
    && (h.canRedo ==> h.pointer < h.redoPointer && forall k :: 0 <= k < h.redoPointer ==> k in h.changes)
  }

  function Lookup<C>(m: map<int, C>, k: int): Option<C>
  {
    if k in m then Some(m[k]) else None
  }

  /** applyChange, once the change's `apply` has run: store it at the
      pointer, advance, and forbid redo. */
  function Applied<C>(h: History<C>, c: C): History<C>
  {
    History(h.changes[h.pointer := c], h.pointer + 1, false, h.redoPointer)
  }

  /** undo: the pointer steps back (not below 0) and the change stored
      there is the one to undo (`changes[p]?.undo()`); the first undo
      after an apply or a finished redo records where redo must stop. */
  function Undo<C>(h: History<C>): (History<C>, Option<C>)
  {
    var p := h.pointer - 1;
    if p < 0 then (h.(pointer := 0), None)
    else
      (History(h.changes, p, true, if h.canRedo then h.redoPointer else p + 1), Lookup(h.changes, p))
  }

  /** redo: only while `canRedo && pointer < redoPointer`; the change at
      the pointer is redone, the pointer advances, and reaching
      `redoPointer` ends the redo run. */
  function Redo<C>(h: History<C>): (History<C>, Option<C>)
  {
    if h.canRedo && h.pointer < h.redoPointer then
      var p := h.pointer + 1;
      (History(h.changes, p, p != h.redoPointer, h.redoPointer), Lookup(h.changes, h.pointer))
    else (h, None)
  }

  /** resetScene's part: pointer 0 and no redo, but `changes` and
      `redoPointer` are kept. */
  function Reset<C>(h: History<C>): History<C>
  {
    History(h.changes, 0, false, h.redoPointer)
  }

  // ------------------------------------------------------------ invariant

  /** Every operation keeps the invariant, starting from a fresh scene. */
  lemma OperationsKeepValid<C>(h: History<C>, c: C)
    requires Valid(h)
    ensures Valid(Initial<C>())
    ensures Valid(Applied(h, c)) && Valid(Undo(h).0) && Valid(Redo(h).0) && Valid(Reset(h))
  {
    var a := Applied(h, c);
    assert forall k :: 0 <= k < a.pointer ==> k in a.changes by {
      forall k | 0 <= k < a.pointer
        ensures k in a.changes
      {
        if k < h.pointer {
          assert k in h.changes;
        }
      }
    }
  }

  /** Under the invariant, undo and redo always find a stored change when
      they move the pointer, so the `?.` never skips one. */
  lemma MovesFindChanges<C>(h: History<C>)
    requires Valid(h)
    ensures h.pointer > 0 ==> Undo(h).1 == Some(h.changes[h.pointer - 1])
    ensures Redo(h).0 != h ==> Redo(h).1 == Some(h.changes[h.pointer])
    ensures Redo(h).0 == h <==> !(h.canRedo && h.pointer < h.redoPointer)
  {
  }

  // ---------------------------------------------------------- single steps

  /** Undo at the start of the history changes nothing and runs nothing. */
  lemma UndoAtStart<C>(h: History<C>)
    requires h.pointer == 0
    ensures Undo(h) == (h, None)
  {
  }

  /** Undo right after applying `c` undoes `c` and returns the pointer to
      where it was before the apply. */
  lemma ApplyThenUndo<C>(h: History<C>, c: C)
    requires Valid(h)
    ensures Undo(Applied(h, c)).1 == Some(c)
    ensures Undo(Applied(h, c)).0.pointer == h.pointer
    ensures Undo(Applied(h, c)).0.canRedo && Undo(Applied(h, c)).0.redoPointer == h.pointer + 1
  {
  }

  /** A new change forbids redo: right after an apply, redo does nothing. */
  lemma ApplyDisablesRedo<C>(h: History<C>, c: C)
    ensures Redo(Applied(h, c)) == (Applied(h, c), None)
  {
  }

  /** Redo right after an undo redoes the change that was undone and puts
      the pointer back. */
  lemma UndoThenRedo<C>(h: History<C>)
    requires Valid(h) && h.pointer > 0
    ensures var (u, undone) := Undo(h);
      var (r, redone) := Redo(u);
      undone == Some(h.changes[h.pointer - 1]) && redone == undone
      && r.pointer == h.pointer && r.changes == h.changes
  {
  }

  /** After resetScene neither undo nor redo does anything, although the
      old changes are still stored. */
  lemma ResetForgetsMoves<C>(h: History<C>)
    ensures Reset(h).changes == h.changes
    ensures Undo(Reset(h)) == (Reset(h), None)
    ensures Redo(Reset(h)) == (Reset(h), None)
  {
  }

  // ---------------------------------------------------------- many steps

  /** `k` undos in a row, and the changes they undo, in order. */
  function Undos<C>(h: History<C>, k: nat): (r: (History<C>, seq<Option<C>>))
    ensures |r.1| == k
    decreases k
  {
    if k == 0 then (h, [])
    else
      var (u, c) := Undo(h);
      var (rest, cs) := Undos(u, k - 1);
      (rest, [c] + cs)
  }

  /** `k` redos in a row, and the changes they redo, in order. */
  function Redos<C>(h: History<C>, k: nat): (r: (History<C>, seq<Option<C>>))
    ensures |r.1| == k
    decreases k
  {
    if k == 0 then (h, [])
    else
      var (r, c) := Redo(h);
      var (rest, cs) := Redos(r, k - 1);
      (rest, [c] + cs)
  }

  /** `k` undos (k <= pointer) walk the pointer back by `k`, undo the
      stored changes from the newest down, and leave redo enabled up to at
      least the starting pointer. */
  lemma {:induction false} UndosWalkBack<C>(h: History<C>, k: nat)
    requires Valid(h) && k <= h.pointer
    ensures var (u, cs) := Undos(h, k);
      && Valid(u) && u.pointer == h.pointer - k && u.changes == h.changes
      && |cs| == k && (forall i :: 0 <= i < k ==> cs[i] == Some(h.changes[h.pointer - 1 - i]))
      && (k > 0 ==> u.canRedo && u.redoPointer >= h.pointer)
      && (k > 0 && !h.canRedo ==> u.redoPointer == h.pointer)
      && (k > 0 && h.canRedo ==> u.redoPointer == h.redoPointer)
    decreases k
  {
    if k > 0 {
      var (u1, c) := Undo(h);
      OperationsKeepValid(h, h.changes[h.pointer - 1]);
      UndosWalkBack(u1, k - 1);
    }
  }

  /** While redo is enabled and `k` more redos stay within `redoPointer`,
      they walk the pointer forward by `k` and redo the stored changes from
      the oldest up. */
  lemma {:induction false} RedosWalkForward<C>(h: History<C>, k: nat)
    requires Valid(h) && (k > 0 ==> h.canRedo && h.pointer + k <= h.redoPointer)
    ensures var (r, cs) := Redos(h, k);
      && Valid(r) && r.pointer == h.pointer + k && r.changes == h.changes
      && |cs| == k && (forall i :: 0 <= i < k ==> cs[i] == Some(h.changes[h.pointer + i]))
    decreases k
  {
    if k > 0 {
      var (r1, c) := Redo(h);
      OperationsKeepValid(h, h.changes[h.pointer]);
      assert r1.canRedo || k == 1;
      RedosWalkForward(r1, k - 1);
    }
  }

  /** `k` undos followed by `k` redos bring the pointer back, redoing
      exactly the undone changes in the reverse order. */
  lemma UndosThenRedos<C>(h: History<C>, k: nat)
    requires Valid(h) && k <= h.pointer
    ensures var (u, undone) := Undos(h, k);
      var (r, redone) := Redos(u, k);
      && r.pointer == h.pointer && r.changes == h.changes
      && |undone| == |redone| == k
      && (forall i :: 0 <= i < k ==> redone[i] == undone[k - 1 - i])
  {
    UndosWalkBack(h, k);
    var (u, undone) := Undos(h, k);
    RedosWalkForward(u, k);
  }

  /** After an apply, no number of redos does anything. */
  lemma {:induction false} RedosAfterApply<C>(h: History<C>, c: C, k: nat)
    ensures Redos(Applied(h, c), k).0 == Applied(h, c)
    ensures forall i :: 0 <= i < k ==> Redos(Applied(h, c), k).1[i] == None
    decreases k
  {
    if k > 0 {
      ApplyDisablesRedo(h, c);
      RedosAfterApply(h, c, k - 1);
    }
  }
}
