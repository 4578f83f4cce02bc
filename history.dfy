/** The bounded linear undo/redo history of canvas snapshots, as values.
    `DrawingApp` keeps the same two pieces of state in its fields `history`
    and `historyIndex`; its methods are proved to act on them as the
    functions here do, and the lemmas here state what sequences of those
    operations achieve. */
module History {
  import opened Geometry

  /** Largest number of snapshots kept. */
  const Cap: nat := 50

  /** The snapshots, oldest first, and the cursor; -1 before any snapshot. */
  datatype Log = Log(entries: seq<seq<Shape>>, index: int)

  ghost predicate Valid(log: Log)
  {
    && -1 <= log.index < |log.entries| <= Cap
    && (log.index == -1 ==> log.entries == [])
  }

  /** The session before the first snapshot: no entries, cursor at -1. */
  const Empty := Log([], -1)

  /** The canvas the cursor designates (the empty canvas before any snapshot). */
  function Current(log: Log): seq<Shape>
    requires Valid(log)
  {
    if log.index == -1 then [] else log.entries[log.index]
  }

  /** The last Cap entries of `xs` (all of them when there are fewer). */
  function Newest(xs: seq<seq<Shape>>): (r: seq<seq<Shape>>)
    ensures |r| <= Cap && |r| <= |xs|
    ensures |xs| <= Cap ==> r == xs
  {
    if |xs| > Cap then xs[|xs| - Cap..] else xs
  }

  /** saveState: drop the redo tail, append the snapshot, move the cursor onto
      it, and evict the oldest entry once there are more than Cap. */
  function Save(log: Log, s: seq<Shape>): (r: Log)
    requires Valid(log)
    ensures Valid(r)
    ensures r.index == |r.entries| - 1 && Current(r) == s
  {
    var grown := log.entries[..log.index + 1] + [s];
    if |grown| > Cap then Log(grown[1..], log.index) else Log(grown, log.index + 1)
  }

  /** What a snapshot keeps: the entries up to the cursor and the new one,
      cut to the newest Cap; so the length becomes min(index + 2, Cap). */
  lemma SaveKeepsNewest(log: Log, s: seq<Shape>)
    requires Valid(log)
    ensures Save(log, s).entries == Newest(log.entries[..log.index + 1] + [s])
    ensures |Save(log, s).entries| == if log.index + 2 <= Cap then log.index + 2 else Cap
  {
  }

  predicate CanUndo(log: Log)
  {
    log.index > 0
  }

  predicate CanRedo(log: Log)
  {
    log.index < |log.entries| - 1
  }

  /** undo: step the cursor back by one unless it is at the oldest entry. */
  function Undo(log: Log): (r: Log)
    requires Valid(log)
    ensures Valid(r) && r.entries == log.entries
    ensures CanUndo(log) ==> r.index == log.index - 1 && Current(r) == log.entries[log.index - 1]
    ensures !CanUndo(log) ==> r == log
  {
    if CanUndo(log) then Log(log.entries, log.index - 1) else log
  }

  /** redo: step the cursor forward by one unless it is at the newest entry. */
  function Redo(log: Log): (r: Log)
    requires Valid(log)
    ensures Valid(r) && r.entries == log.entries
    ensures CanRedo(log) ==> r.index == log.index + 1 && Current(r) == log.entries[log.index + 1]
    ensures !CanRedo(log) ==> r == log
  {
    if CanRedo(log) then Log(log.entries, log.index + 1) else log
  }

  /** `n` undos in a row. */
  function UndoN(log: Log, n: nat): (r: Log)
    requires Valid(log)
    ensures Valid(r) && r.entries == log.entries
    ensures n <= log.index ==> r.index == log.index - n
  {
    if n == 0 then log else Undo(UndoN(log, n - 1))
  }

  /** `n` redos in a row. */
  function RedoN(log: Log, n: nat): (r: Log)
    requires Valid(log)
    ensures Valid(r) && r.entries == log.entries
    decreases n
  {
    if n == 0 then log else RedoN(Redo(log), n - 1)
  }

  /** One snapshot per element of `states`, in order. */
  function SaveAll(log: Log, states: seq<seq<Shape>>): (r: Log)
    requires Valid(log)
    ensures Valid(r)
    decreases |states|
  {
    if states == [] then log
    else Save(SaveAll(log, states[..|states| - 1]), states[|states| - 1])
  }

  /** Undoing after a snapshot returns to the canvas the cursor designated
      before it, eviction or not, provided a snapshot already existed. */
  lemma UndoAfterSave(log: Log, s: seq<Shape>)
    requires Valid(log) && log.index >= 0
    ensures CanUndo(Save(log, s))
    ensures Current(Undo(Save(log, s))) == Current(log)
  {
    var r := Save(log, s);
    var grown := log.entries[..log.index + 1] + [s];
    if |grown| > Cap {
      assert r.entries == grown[1..];
      assert r.entries[r.index - 1] == grown[log.index];
    } else {
      assert r.entries[r.index - 1] == grown[log.index];
    }
  }

  /** No snapshot exists before the first one, so the first snapshot cannot be
      undone: the session never returns to its initial empty canvas. */
  lemma FirstSaveNotUndoable(s: seq<Shape>)
    ensures Save(Empty, s).entries == [s]
    ensures Undo(Save(Empty, s)) == Save(Empty, s)
  {
  }

  /** Linearity: undoing `n` times and then redoing `n` times restores the log,
      hence the canvas, exactly. */
  lemma {:induction false} RedoUndoRoundTrip(log: Log, n: nat)
    requires Valid(log) && n <= log.index
    ensures RedoN(UndoN(log, n), n) == log
  {
    if n > 0 {
      var before := UndoN(log, n - 1);
      assert UndoN(log, n) == Undo(before);
      assert Redo(Undo(before)) == before;
      calc {
        RedoN(UndoN(log, n), n);
        RedoN(Redo(Undo(before)), n - 1);
        RedoN(before, n - 1);
        { RedoUndoRoundTrip(log, n - 1); }
        log;
      }
    }
  }

  /** Dropping the oldest entries twice is the same as dropping them once. */
  lemma NewestAppend(xs: seq<seq<Shape>>, s: seq<Shape>)
    ensures Newest(Newest(xs) + [s]) == Newest(xs + [s])
  {
    if |xs| > Cap {
      var k := |xs| - Cap;
      assert (xs + [s])[k + 1..] == xs[k + 1..] + [s];
      assert (xs[k..] + [s])[1..] == xs[k + 1..] + [s];
    }
  }

  /** Snapshotting when the cursor is on the newest entry appends and keeps
      the newest Cap. */
  lemma SaveAtTop(prev: Log, xs: seq<seq<Shape>>, s: seq<Shape>)
    requires Valid(prev) && prev.index == |prev.entries| - 1 && prev.entries == Newest(xs)
    ensures Save(prev, s).entries == Newest(xs + [s])
  {
    assert prev.entries[..prev.index + 1] == prev.entries;
    SaveKeepsNewest(prev, s);
    NewestAppend(xs, s);
  }

  /** A run of snapshots keeps the entries up to the old cursor followed by the
      new snapshots, minus the oldest beyond Cap, with the cursor on the last. */
  lemma {:induction false} SaveAllNewest(log: Log, states: seq<seq<Shape>>)
    requires Valid(log) && states != []
    ensures SaveAll(log, states).entries == Newest(log.entries[..log.index + 1] + states)
    ensures SaveAll(log, states).index == |SaveAll(log, states).entries| - 1
  {
    var init, last := states[..|states| - 1], states[|states| - 1];
    var kept := log.entries[..log.index + 1];
    if init == [] {
      SaveKeepsNewest(log, last);
      assert states == [last];
    } else {
      SaveAllNewest(log, init);
      SaveAtTop(SaveAll(log, init), kept + init, last);
      AppendLast(kept, states);
    }
  }

  /** Splitting off the last element and putting it back. */
  lemma AppendLast(kept: seq<seq<Shape>>, states: seq<seq<Shape>>)
    requires states != []
    ensures (kept + states[..|states| - 1]) + [states[|states| - 1]] == kept + states
  {
    assert states == states[..|states| - 1] + [states[|states| - 1]];
  }

  /** Capacity eviction: after Cap + 5 snapshots from the initial session,
      exactly Cap remain, the five oldest gone and the newest current. */
  lemma CapacityEviction(states: seq<seq<Shape>>)
    requires |states| == Cap + 5
    ensures |SaveAll(Empty, states).entries| == Cap
    ensures SaveAll(Empty, states).entries == states[5..]
    ensures Current(SaveAll(Empty, states)) == states[|states| - 1]
  {
    SaveAllNewest(Empty, states);
    assert Empty.entries[..Empty.index + 1] + states == states;
  }

  /** Below the capacity, snapshotting at the newest entry just appends. */
  lemma SaveBelowCap(log: Log, s: seq<Shape>)
    requires Valid(log) && log.index == |log.entries| - 1 && |log.entries| < Cap
    ensures Save(log, s) == Log(log.entries + [s], log.index + 1)
  {
    assert log.entries[..log.index + 1] == log.entries;
  }

  /** While the capacity is not reached, a run of snapshots taken at the newest
      entry appends them all, in order, and leaves the cursor on the last. */
  lemma {:induction false} SaveAllBelowCap(log: Log, states: seq<seq<Shape>>)
    requires Valid(log) && log.index == |log.entries| - 1
    requires |log.entries| + |states| <= Cap
    ensures SaveAll(log, states) == Log(log.entries + states, log.index + |states|)
    decreases |states|
  {
    if states != [] {
      var init, last := states[..|states| - 1], states[|states| - 1];
      SaveAllBelowCap(log, init);
      SaveBelowCap(SaveAll(log, init), last);
      assert (log.entries + init) + [last] == log.entries + states;
    }
  }

  /** History linearity: from the newest entry (where every snapshot leaves
      the cursor), undoing until the oldest entry reaches it, and redoing as
      many times returns to exactly the same log, hence the same canvas. With
      SaveAllBelowCap this covers N snapshots from the initial session. */
  lemma LinearHistory(log: Log)
    requires Valid(log) && log.index >= 0 && log.index == |log.entries| - 1
    ensures Current(UndoN(log, log.index)) == log.entries[0]
    ensures RedoN(UndoN(log, log.index), log.index) == log
  {
    assert UndoN(log, log.index).index == 0;
    RedoUndoRoundTrip(log, log.index);
  }

  /** Redo destruction: after undoing and then taking a new snapshot, nothing
      is left to redo and the undone entries are gone. */
  lemma SaveDiscardsRedo(log: Log, s: seq<Shape>)
    requires Valid(log) && CanUndo(log)
    ensures !CanRedo(Save(Undo(log), s))
    ensures Save(Undo(log), s).entries == Newest(log.entries[..log.index] + [s])
  {
  }
}
