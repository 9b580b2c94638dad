/**
 The builder's undo and redo (script.js): two stacks of workspace snapshots, a cap
 that only new edits enforce, and the timeline they represent.
 W is whatever captureWorkspace records besides the label.
 */
module History {

  const MAX_UNDO := 60

  datatype Snapshot<W> = Snapshot(name: string, work: W)

  datatype History<W> = History(work: W, undos: seq<Snapshot<W>>, redos: seq<Snapshot<W>>)

  datatype Op<W> =
    | Push(name: string)
    | Commit(name: string, before: W)     // a gesture that began with captureWorkspace(name)
    | Undo | Redo
    | Change(work: W)                      // any edit of the workspace itself

  function Capture<W>(name: string, work: W): Snapshot<W> {
    Snapshot(if name == "" then "edit" else name, work)
  }

  /** push, then shift when over the cap. */
  function Capped<W>(s: seq<Snapshot<W>>): seq<Snapshot<W>> {
    if |s| > MAX_UNDO then s[1..] else s
  }

  function Apply<W(==)>(h: History<W>, op: Op<W>): History<W> {
    match op
    case Push(name) => History(h.work, Capped(h.undos + [Capture(name, h.work)]), [])
    case Commit(name, before) =>
      if before == h.work then h else History(h.work, Capped(h.undos + [Capture(name, before)]), [])
    case Undo =>
      if h.undos == [] then h
      else
        var top := h.undos[|h.undos| - 1];
        History(top.work, h.undos[..|h.undos| - 1], h.redos + [Capture(top.name, h.work)])
    case Redo =>
      if h.redos == [] then h
      else
        var top := h.redos[|h.redos| - 1];
        History(top.work, h.undos + [Capture(top.name, h.work)], h.redos[..|h.redos| - 1])
    case Change(w) => h.(work := w)
  }

  function Run<W(==)>(h: History<W>, ops: seq<Op<W>>): History<W> {
    if ops == [] then h else Apply(Run(h, ops[..|ops| - 1]), ops[|ops| - 1])
  }

  // ----- every reachable history -----

  ghost predicate Labelled<W>(s: seq<Snapshot<W>>) { forall i :: 0 <= i < |s| ==> s[i].name != "" }

  ghost predicate Inv<W>(h: History<W>) {
    |h.undos| + |h.redos| <= MAX_UNDO && Labelled(h.undos) && Labelled(h.redos)
  }

  lemma ApplyInv<W>(h: History<W>, op: Op<W>)
    requires Inv(h)
    ensures Inv(Apply(h, op))
  {}

  /** A step is labelled by its edit, and keeps its label when it is undone and redone. */
  lemma LabelsFollow<W>(h: History<W>, name: string, before: W)
    requires Inv(h)
    ensures var u := Apply(h, Push(name)).undos; u != [] && u[|u| - 1] == Snapshot(if name == "" then "edit" else name, h.work)
    ensures before != h.work ==>
              var u := Apply(h, Commit(name, before)).undos;
              u != [] && u[|u| - 1] == Snapshot(if name == "" then "edit" else name, before)
    ensures h.undos != [] ==>
              var r := Apply(h, Undo).redos;
              r != [] && r[|r| - 1] == Snapshot(h.undos[|h.undos| - 1].name, h.work)
    ensures h.redos != [] ==>
              var u := Apply(h, Redo).undos;
              u != [] && u[|u| - 1] == Snapshot(h.redos[|h.redos| - 1].name, h.work)
  {}

  /** Undo depth plus redo depth never exceeds the cap, although undo and redo do not check it. */
  lemma {:induction false} DepthIsCapped<W>(start: W, ops: seq<Op<W>>)
    ensures Inv(Run(History(start, [], []), ops))
    ensures |Run(History(start, [], []), ops).undos| + |Run(History(start, [], []), ops).redos| <= 60
  {
    if ops != [] {
      DepthIsCapped(start, ops[..|ops| - 1]);
      ApplyInv(Run(History(start, [], []), ops[..|ops| - 1]), ops[|ops| - 1]);
    }
  }

  function Times<W>(op: Op<W>, n: nat): seq<Op<W>> { seq(n, _ => op) }

  lemma {:induction false} RunAppend<W>(h: History<W>, a: seq<Op<W>>, b: seq<Op<W>>)
    ensures Run(h, a + b) == Run(Run(h, a), b)
  {
    if b == [] {
      assert a + b == a;
    } else {
      assert (a + b)[..|a + b| - 1] == a + b[..|b| - 1];
      RunAppend(h, a, b[..|b| - 1]);
    }
  }

  lemma RunOne<W>(h: History<W>, op: Op<W>)
    ensures Run(h, [op]) == Apply(h, op)
  {
    assert [op][..0] == [];
    assert Run(h, [op][..0]) == h;
  }

  lemma RunAround<W>(h: History<W>, a: Op<W>, inner: seq<Op<W>>, b: Op<W>)
    ensures Run(h, [a] + inner + [b]) == Apply(Run(Apply(h, a), inner), b)
  {
    RunOne(h, a);
    RunAppend(h, [a], inner);
    RunAppend(h, [a] + inner, [b]);
    RunOne(Run(h, [a] + inner), b);
  }

  lemma TimesAround<W>(a: Op<W>, b: Op<W>, n: nat)
    requires n > 0
    ensures Times(a, n) + Times(b, n) == [a] + (Times(a, n - 1) + Times(b, n - 1)) + [b]
  {}

  lemma UndoThenRedo<W>(h: History<W>)
    requires Inv(h) && h.undos != []
    ensures Apply(Apply(h, Undo), Redo) == h && Inv(Apply(h, Undo))
  {
    var k := |h.undos| - 1;
    assert h.undos[..k] + [h.undos[k]] == h.undos;
    assert Apply(h, Undo).redos[..|h.redos|] == h.redos;
  }

  lemma RedoThenUndo<W>(h: History<W>)
    requires Inv(h) && h.redos != []
    ensures Apply(Apply(h, Redo), Undo) == h && Inv(Apply(h, Redo))
  {
    var k := |h.redos| - 1;
    assert h.redos[..k] + [h.redos[k]] == h.redos;
    assert Apply(h, Redo).undos[..|h.undos|] == h.undos;
  }

  /** Undoing n edits and redoing them restores the workspace and both stacks, labels included. */
  lemma {:induction false} UndoRedoIdentity<W>(h: History<W>, n: nat)
    requires Inv(h) && n <= |h.undos|
    ensures Run(h, Times(Undo, n) + Times(Redo, n)) == h
    decreases n
  {
    if n == 0 {
      assert Times<W>(Undo, 0) + Times(Redo, 0) == [];
    } else {
      UndoThenRedo(h);
      UndoRedoIdentity(Apply(h, Undo), n - 1);
      TimesAround<W>(Undo, Redo, n);
      RunAround(h, Undo, Times(Undo, n - 1) + Times(Redo, n - 1), Redo);
    }
  }

  /** ... and the other way round. */
  lemma {:induction false} RedoUndoIdentity<W>(h: History<W>, n: nat)
    requires Inv(h) && n <= |h.redos|
    ensures Run(h, Times(Redo, n) + Times(Undo, n)) == h
    decreases n
  {
    if n == 0 {
      assert Times<W>(Redo, 0) + Times(Undo, 0) == [];
    } else {
      RedoThenUndo(h);
      RedoUndoIdentity(Apply(h, Redo), n - 1);
      TimesAround<W>(Redo, Undo, n);
      RunAround(h, Redo, Times(Redo, n - 1) + Times(Undo, n - 1), Undo);
    }
  }

  // ----- the timeline the two stacks stand for -----

  function Works<W>(s: seq<Snapshot<W>>): seq<W> { seq(|s|, i requires 0 <= i < |s| => s[i].work) }

  function Backwards<W>(s: seq<W>): seq<W> { seq(|s|, i requires 0 <= i < |s| => s[|s| - 1 - i]) }

  /** All workspaces from the oldest that can be undone to, to the newest that can be redone. */
  function Timeline<W>(h: History<W>): seq<W> { Works(h.undos) + [h.work] + Backwards(Works(h.redos)) }

  /** The cursor; Timeline(h)[Position(h)] is the current workspace. */
  function Position<W>(h: History<W>): nat { |h.undos| }

  /** Undo and redo only move the cursor. */
  lemma UndoMovesBack<W>(h: History<W>)
    requires h.undos != []
    ensures Timeline(Apply(h, Undo)) == Timeline(h) && Position(Apply(h, Undo)) == Position(h) - 1
  {
    var u := Apply(h, Undo);
    var k := |h.undos| - 1;
    assert Works(h.undos) == Works(u.undos) + [u.work];
    assert Backwards(Works(u.redos)) == [h.work] + Backwards(Works(h.redos));
  }

  lemma RedoMovesForward<W>(h: History<W>)
    requires h.redos != []
    ensures Timeline(Apply(h, Redo)) == Timeline(h) && Position(Apply(h, Redo)) == Position(h) + 1
  {
    var u := Apply(h, Redo);
    assert Works(u.undos) == Works(h.undos) + [h.work];
    assert Backwards(Works(h.redos)) == [u.work] + Backwards(Works(u.redos));
  }

  function Newest<W>(s: seq<W>, k: nat): seq<W> { if |s| > k then s[|s| - k..] else s }

  /** An edit forgets the future, keeps at most 60 states behind it and appends the new one. */
  lemma EditRewritesFuture<W>(h: History<W>, name: string, work: W)
    requires Inv(h)
    ensures var e := Apply(Apply(h, Push(name)), Change(work));
            Timeline(e) == Newest(Timeline(h)[..Position(h) + 1], MAX_UNDO) + [work] && Position(e) == |Timeline(e)| - 1
  {
    var p := Apply(h, Push(name));
    var past := Works(h.undos) + [h.work];
    assert Timeline(h)[..Position(h) + 1] == past;
    assert Works(h.undos + [Capture(name, h.work)]) == past;
    assert Works(p.undos) == Newest(past, MAX_UNDO);
    assert Backwards(Works(p.redos)) == [];
  }

  /** A committed gesture is the same edit seen from its end; one that changed nothing leaves no step. */
  lemma CommitRewritesFuture<W>(h: History<W>, name: string, before: W)
    requires Inv(h)
    ensures before == h.work ==> Apply(h, Commit(name, before)) == h
    ensures before != h.work ==>
              Apply(h, Commit(name, before)) == Apply(Apply(h.(work := before), Push(name)), Change(h.work))
  {}

  /** n undos land n states back on the timeline, and change nothing else of it. */
  lemma {:induction false} UndosGoBack<W>(h: History<W>, n: nat)
    requires n <= |h.undos|
    ensures var u := Run(h, Times(Undo, n));
            && Timeline(u) == Timeline(h) && Position(u) == Position(h) - n
            && u.work == Timeline(h)[Position(h) - n]
  {
    if n > 0 {
      UndosGoBack(h, n - 1);
      var u := Run(h, Times(Undo, n - 1));
      assert Times<W>(Undo, n)[..n - 1] == Times(Undo, n - 1);
      assert |u.undos| == Position(h) - (n - 1);
      UndoMovesBack(u);
      var v := Apply(u, Undo);
      assert Timeline(v)[Position(v)] == v.work;
    }
  }

  /** A run of edits from a fresh editor, each with its own undo step. */
  function Edits<W>(works: seq<W>): seq<Op<W>> {
    if works == [] then [] else Edits(works[..|works| - 1]) + [Push("edit"), Change(works[|works| - 1])]
  }

  lemma NewestSnoc<W>(s: seq<W>, last: W, k: nat)
    ensures Newest(Newest(s, k + 1), k) + [last] == Newest(s + [last], k + 1)
  {}

  lemma EditRun<W>(h: History<W>, work: W)
    ensures Run(h, [Push("edit"), Change(work)]) == Apply(Apply(h, Push("edit")), Change(work))
  {
    RunOne(h, Push("edit"));
    RunOne(Apply(h, Push("edit")), Change(work));
    RunAppend(h, [Push("edit")], [Change(work)]);
    assert [Push("edit")] + [Change(work)] == [Push("edit"), Change(work)];
  }

  lemma {:induction false} EditsTimeline<W>(start: W, works: seq<W>)
    ensures var h := Run(History(start, [], []), Edits(works));
            Inv(h) && Timeline(h) == Newest([start] + works, MAX_UNDO + 1) && Position(h) == |Timeline(h)| - 1
  {
    var empty := History(start, [], []);
    DepthIsCapped(start, Edits(works));
    if works == [] {
      assert Timeline(empty) == [start] + works;
    } else {
      var front, last := works[..|works| - 1], works[|works| - 1];
      EditsTimeline(start, front);
      RunAppend(empty, Edits(front), [Push("edit"), Change(last)]);
      NextEdit(Run(empty, Edits(front)), [start] + front, last);
      assert [start] + works == ([start] + front) + [last];
    }
  }

  lemma NextEdit<W>(h: History<W>, all: seq<W>, last: W)
    requires Inv(h) && Timeline(h) == Newest(all, MAX_UNDO + 1) && Position(h) == |Timeline(h)| - 1
    ensures var t := Run(h, [Push("edit"), Change(last)]);
            Timeline(t) == Newest(all + [last], MAX_UNDO + 1) && Position(t) == |Timeline(t)| - 1
  {
    EditRun(h, last);
    EditRewritesFuture(h, "edit", last);
    assert Timeline(h)[..Position(h) + 1] == Timeline(h);
    NewestSnoc(all, last, MAX_UNDO);
  }

  lemma NewestAt<W>(all: seq<W>, k: nat, n: nat)
    requires n < |all| && n < k
    ensures |Newest(all, k)| > n && Newest(all, k)[|Newest(all, k)| - 1 - n] == all[|all| - 1 - n]
  {}

  /** From the end of a timeline that holds the newest states, n undos return the state n steps before the last. */
  lemma UndosReturn<W>(h: History<W>, all: seq<W>, n: nat)
    requires n < |all| && n <= MAX_UNDO
    requires Timeline(h) == Newest(all, MAX_UNDO + 1) && Position(h) == |Timeline(h)| - 1
    ensures Run(h, Times(Undo, n)).work == all[|all| - 1 - n]
  {
    NewestAt(all, MAX_UNDO + 1, n);
    UndosGoBack(h, n);
  }

  lemma UndosReturnTo<W>(h: History<W>, start: W, works: seq<W>, n: nat)
    requires n <= |works| && n <= MAX_UNDO
    requires Timeline(h) == Newest([start] + works, MAX_UNDO + 1) && Position(h) == |Timeline(h)| - 1
    ensures Run(h, Times(Undo, n)).work == ([start] + works)[|works| - n]
  {
    UndosReturn(h, [start] + works, n);
  }

  /** After any number of edits, up to 60 undos return the workspace as it was that many edits ago. */
  lemma UndoReturnsRecorded<W>(start: W, works: seq<W>, n: nat)
    requires n <= |works| && n <= MAX_UNDO
    ensures Run(Run(History(start, [], []), Edits(works)), Times(Undo, n)).work == ([start] + works)[|works| - n]
  {
    var h := Run(History(start, [], []), Edits(works));
    EditsTimeline(start, works);
    UndosReturnTo(h, start, works, n);
  }

  // ----- the source's stacks -----

  class Editor<W(==)> {
    var work: W
    var undoStack: seq<Snapshot<W>>
    var redoStack: seq<Snapshot<W>>

    constructor (start: W)
      ensures Now() == History(start, [], [])
    {
      work, undoStack, redoStack := start, [], [];
    }

    function Now(): History<W> reads this { History(work, undoStack, redoStack) }

    method PushUndo(name: string)
      modifies this
      ensures Now() == Apply(old(Now()), Push(name))
    {
      undoStack := undoStack + [Capture(name, work)];
      if |undoStack| > MAX_UNDO { undoStack := undoStack[1..]; }
      redoStack := [];
    }

    method CommitUndoSnapshot(name: string, before: W)
      modifies this
      ensures Now() == Apply(old(Now()), Commit(name, before))
    {
      if before == work { return; }
      undoStack := undoStack + [Capture(name, before)];
      if |undoStack| > MAX_UNDO { undoStack := undoStack[1..]; }
      redoStack := [];
    }

    method UndoEdit()
      modifies this
      ensures Now() == Apply(old(Now()), Undo)
    {
      if |undoStack| == 0 { return; }
      redoStack := redoStack + [Capture(undoStack[|undoStack| - 1].name, work)];
      var snapshot := undoStack[|undoStack| - 1];
      undoStack := undoStack[..|undoStack| - 1];
      work := snapshot.work;
    }

    method RedoEdit()
      modifies this
      ensures Now() == Apply(old(Now()), Redo)
    {
      if |redoStack| == 0 { return; }
      var snapshot := redoStack[|redoStack| - 1];
      redoStack := redoStack[..|redoStack| - 1];
      undoStack := undoStack + [Capture(snapshot.name, work)];
      work := snapshot.work;
    }
  }
}
