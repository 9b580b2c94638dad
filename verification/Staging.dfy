/**
 Staging one release on disk (player/autoupdate.go) and the three clean-ups of a
 staged release, which all remove the tree before its ready marker: confirming and
 cancelling do so by name, and repairing removes the entries of the staging directory
 in the order of their names. `Step` is one primitive disk operation, so a crash can
 fall between any two of them.
 */
module Staging {
  import opened Prelude

  /** The staging directory. Whole means the archive was extracted in full. */
  datatype Tree = Absent | Partial(binary: bool) | Whole(binary: bool)

  datatype CleanUp = Confirm | Cancel | Repair

  datatype Pc =
    | Ready                       // no operation in progress
    | Unmarking | Clearing | Making | Extracting | Stamping | Marking
    | CleaningTree(who: CleanUp) | CleaningMarker(who: CleanUp)

  /** `installed`: the running installation is this release. `ships`: the archive has an executable. */
  datatype State = State(tree: Tree, marker: bool, installed: bool, ships: bool, pc: Pc)

  /** What can go wrong in a run. */
  datatype Setting = Setting(
    markerRemovalWorks: bool,     // os.Remove of the marker, whose error is ignored, takes effect
    cancelFinishes: bool,         // no crash inside OpCancelStagedSwap's clean-up
    confirmFinishes: bool,        // no crash inside confirmAppliedUpdate's clean-up
    repairFinishes: bool,         // no crash while RepairJukaHub clears the staging directory
    superseded: bool)             // another release may be installed over this one

  datatype Action =
    | BeginStage | BeginCleanUp(who: CleanUp)
    | Crash
    | SwapIn | SwapOut            // this release, or another one, becomes the installed one
    | RemoveMarker(works: bool)
    | Unlink(binary: bool)        // RemoveAll part-way: is the executable still there?
    | RemovedTree(all: bool, binary: bool)
    | MakeDir(works: bool)
    | Unpack(binary: bool)        // extraction part-way
    | Unpacked
    | UnpackFails(all: bool, binary: bool)
    | Stamp(works: bool)
    | WriteMarker(written: bool)

  predicate HasBinary(t: Tree) { !t.Absent? && t.binary }

  /** The reuse test at the head of stageDownloadedRelease. */
  predicate Reuses(s: State) { s.marker && HasBinary(s.tree) }

  /** What a RemoveAll that stops early can leave. */
  function Remains(t: Tree, binary: bool): Tree {
    if t.Absent? then Absent else Partial(binary && HasBinary(t))
  }

  function Removed(t: Tree, all: bool, binary: bool): Tree { if all then Absent else Remains(t, binary) }

  predicate Finishes(p: Setting, who: CleanUp) {
    match who
    case Confirm => p.confirmFinishes
    case Cancel => p.cancelFinishes
    case Repair => p.repairFinishes
  }

  predicate MayCrash(p: Setting, pc: Pc) { pc.CleaningTree? || pc.CleaningMarker? ==> !Finishes(p, pc.who) }

  function Step(p: Setting, s: State, a: Action): Option<State> {
    match a
    case BeginStage => if s.pc.Ready? then Some(s.(pc := if Reuses(s) then Stamping else Unmarking)) else None
    case BeginCleanUp(who) =>
      if s.pc.Ready? && (who == Confirm ==> s.installed) then Some(s.(pc := CleaningTree(who))) else None
    case Crash => if MayCrash(p, s.pc) then Some(s.(pc := Ready)) else None
    case SwapIn => if s.pc.Ready? && HasBinary(s.tree) then Some(s.(installed := true)) else None
    case SwapOut => if s.pc.Ready? && p.superseded then Some(s.(installed := false)) else None
    case RemoveMarker(works) =>
      if !works && p.markerRemovalWorks then None
      else if s.pc.Unmarking? then Some(s.(marker := s.marker && !works, pc := Clearing))
      else if s.pc.CleaningMarker? then Some(s.(marker := s.marker && !works, pc := Ready))
      else None
    case Unlink(binary) =>
      if s.pc.Clearing? || s.pc.CleaningTree? then Some(s.(tree := Remains(s.tree, binary))) else None
    case RemovedTree(all, binary) =>
      if s.pc.Clearing? then Some(s.(tree := Removed(s.tree, all, binary), pc := Making))
      else if s.pc.CleaningTree?
      then Some(s.(tree := Removed(s.tree, all, binary), pc := CleaningMarker(s.pc.who)))
      else None
    case MakeDir(works) =>
      if !s.pc.Making? then None
      else if !works then Some(s.(pc := Ready))
      else Some(s.(tree := if s.tree.Absent? then Partial(false) else s.tree, pc := Extracting))
    case Unpack(binary) =>
      if s.pc.Extracting? then Some(s.(tree := Partial(HasBinary(s.tree) || (binary && s.ships)))) else None
    case Unpacked => if s.pc.Extracting? then Some(s.(tree := Whole(s.ships), pc := Stamping)) else None
    case UnpackFails(all, binary) =>
      if s.pc.Extracting? then Some(s.(tree := Removed(s.tree, all, binary), pc := Ready)) else None
    case Stamp(works) =>
      if s.pc.Stamping? then Some(s.(pc := if works && HasBinary(s.tree) then Marking else Ready)) else None
    case WriteMarker(written) =>
      if s.pc.Marking? then Some(s.(marker := s.marker || written, pc := Ready)) else None
  }

  function Run(p: Setting, s: State, actions: seq<Action>): Option<State>
    decreases |actions|
  {
    if actions == [] then Some(s)
    else match Step(p, s, actions[0])
      case None => None
      case Some(t) => Run(p, t, actions[1..])
  }

  function Fresh(ships: bool): State { State(Absent, false, false, ships, Ready) }

  /** A truncated tree of a release that is not installed never passes for complete. */
  predicate Trustworthy(s: State) {
    s.pc.Ready? && Reuses(s) ==> s.tree.Whole? || s.installed
  }

  ghost predicate AlwaysTrustworthy(p: Setting) {
    forall ships: bool, actions: seq<Action> ::
      Run(p, Fresh(ships), actions).Some? ==> Trustworthy(Run(p, Fresh(ships), actions).value)
  }

  // ----- when it holds -----

  predicate Sound(p: Setting) {
    p.markerRemovalWorks && p.cancelFinishes && p.repairFinishes && (p.confirmFinishes || !p.superseded)
  }

  /** The tree may carry a marker. */
  predicate Markable(p: Setting, s: State) {
    s.tree.Whole? || (s.installed && !p.superseded)
  }

  predicate Inv(p: Setting, s: State) {
    match s.pc
    case Ready => s.marker ==> Markable(p, s)
    case Unmarking => s.marker ==> Markable(p, s)
    case Clearing => !s.marker
    case Making => !s.marker
    case Extracting => !s.marker
    case Stamping => Markable(p, s)
    case Marking => Markable(p, s)
    case CleaningTree(who) => who == Confirm ==> s.installed
    case CleaningMarker(who) => who == Confirm ==> s.installed
  }

  lemma StepInv(p: Setting, s: State, a: Action)
    requires Sound(p) && Inv(p, s) && Step(p, s, a).Some?
    ensures Inv(p, Step(p, s, a).value)
  {}

  lemma {:induction false} RunInv(p: Setting, s: State, actions: seq<Action>)
    requires Sound(p) && Inv(p, s) && Run(p, s, actions).Some?
    ensures Inv(p, Run(p, s, actions).value)
    decreases |actions|
  {
    if actions != [] {
      StepInv(p, s, actions[0]);
      RunInv(p, Step(p, s, actions[0]).value, actions[1..]);
    }
  }

  /** In a sound setting the marker, whenever staging is idle, vouches for a whole tree or an installed release. */
  lemma MarkerMeansWhole(p: Setting, ships: bool, actions: seq<Action>)
    requires Sound(p) && Run(p, Fresh(ships), actions).Some?
    ensures var s := Run(p, Fresh(ships), actions).value;
            s.pc.Ready? && s.marker ==> s.tree.Whole? || s.installed
  {
    RunInv(p, Fresh(ships), actions);
  }

  /** Each fact about the disk is changed by its own operations alone, and removing never creates. */
  lemma StepChangesOnly(p: Setting, s: State, a: Action)
    requires Step(p, s, a).Some?
    ensures var t := Step(p, s, a).value;
            && t.ships == s.ships
            && (t.installed != s.installed ==> a == SwapIn || a == SwapOut)
            && (a.SwapIn? ==> HasBinary(s.tree)) && (a.SwapOut? ==> p.superseded)
            && (a.SwapIn? || a.SwapOut? || a.BeginStage? || a.BeginCleanUp? ==> s.pc.Ready?)
            && (t.marker && !s.marker ==> a.WriteMarker? && a.written)
            && (s.marker && !t.marker ==> a.RemoveMarker? && a.works)
            && (t.tree.Whole? && t.tree != s.tree ==> a.Unpacked? && t.tree.binary == s.ships)
            && (HasBinary(t.tree) && !HasBinary(s.tree) ==> s.ships && (a.Unpacked? || (a.Unpack? && a.binary)))
            && (s.tree.Absent? && !t.tree.Absent? ==> a.MakeDir? || a.Unpack? || a.Unpacked?)
  {}

  /** A removal that stops early leaves a partial tree, and one that finishes leaves none. */
  lemma RemovalLeaves(t: Tree, all: bool, binary: bool)
    ensures Removed(t, all, binary).Absent? <==> all || t.Absent?
    ensures !all && !t.Absent? ==> Removed(t, all, binary).Partial?
    ensures !all && HasBinary(t) ==> HasBinary(Removed(t, all, binary)) == binary
    ensures !HasBinary(t) ==> !HasBinary(Removed(t, all, binary))
  {}

  /** The archive is unpacked into a directory that exists. */
  lemma {:induction false} ExtractingHasDir(p: Setting, ships: bool, actions: seq<Action>)
    requires Run(p, Fresh(ships), actions).Some?
    ensures Run(p, Fresh(ships), actions).value.pc.Extracting? ==> !Run(p, Fresh(ships), actions).value.tree.Absent?
  {
    DirStays(p, Fresh(ships), actions);
  }

  lemma {:induction false} DirStays(p: Setting, s: State, actions: seq<Action>)
    requires (s.pc.Extracting? ==> !s.tree.Absent?) && Run(p, s, actions).Some?
    ensures Run(p, s, actions).value.pc.Extracting? ==> !Run(p, s, actions).value.tree.Absent?
    decreases |actions|
  {
    if actions != [] { DirStays(p, Step(p, s, actions[0]).value, actions[1..]); }
  }

  // ----- and exactly when -----

  lemma {:induction false} Extend(p: Setting, s: State, actions: seq<Action>, a: Action)
    requires Run(p, s, actions).Some?
    ensures Run(p, s, actions + [a]) == Step(p, Run(p, s, actions).value, a)
    decreases |actions|
  {
    if actions == [] {
      assert [] + [a] == [a] && [a][1..] == [];
    } else {
      assert (actions + [a])[0] == actions[0] && (actions + [a])[1..] == actions[1..] + [a];
      Extend(p, Step(p, s, actions[0]).value, actions[1..], a);
    }
  }

  lemma RunOne(p: Setting, s: State, a: Action)
    ensures Run(p, s, [a]) == Step(p, s, a)
  {
    assert Run(p, s, []) == Some(s);
    Extend(p, s, [], a);
    assert [] + [a] == [a];
  }

  lemma {:induction false} RunAppend(p: Setting, s: State, a: seq<Action>, b: seq<Action>)
    ensures Run(p, s, a + b) == (match Run(p, s, a) case None => None case Some(t) => Run(p, t, b))
    decreases |a|
  {
    if a == [] {
      assert a + b == b;
    } else {
      assert (a + b)[0] == a[0] && (a + b)[1..] == a[1..] + b;
      if Step(p, s, a[0]).Some? { RunAppend(p, Step(p, s, a[0]).value, a[1..], b); }
    }
  }

  /** Three steps in a row. */
  lemma RunThree(p: Setting, s: State, a: Action, b: Action, c: Action)
    requires Step(p, s, a).Some? && Step(p, Step(p, s, a).value, b).Some?
    ensures Run(p, s, [a, b]) == Step(p, Step(p, s, a).value, b)
    ensures Run(p, s, [a, b, c]) == Step(p, Step(p, Step(p, s, a).value, b).value, c)
  {
    RunOne(p, s, a);
    Extend(p, s, [a], b);
    assert [a] + [b] == [a, b];
    Extend(p, s, [a, b], c);
    assert [a, b] + [c] == [a, b, c];
  }

  const STAGED := State(Whole(true), true, false, true, Ready)
  const TRUNCATED := State(Partial(true), true, false, true, Ready)
  const ALL_WELL := Outcomes(true, true, true, true, true, true)

  /** Cancelling the staged update is cut short while its tree is being removed: the marker survives the files. */
  lemma CancelCutShort(p: Setting) returns (actions: seq<Action>)
    requires !p.cancelFinishes
    ensures Run(p, Fresh(true), actions) == Some(TRUNCATED)
  {
    actions := CutShort(p, Cancel);
  }

  /** The same for a repair. */
  lemma RepairCutShort(p: Setting) returns (actions: seq<Action>)
    requires !p.repairFinishes
    ensures Run(p, Fresh(true), actions) == Some(TRUNCATED)
  {
    actions := CutShort(p, Repair);
  }

  lemma CutShort(p: Setting, who: CleanUp) returns (actions: seq<Action>)
    requires who != Confirm && !Finishes(p, who)
    ensures Run(p, Fresh(true), actions) == Some(TRUNCATED)
  {
    StagingIsARun(p, Fresh(true), ALL_WELL);
    var staged := StageActions(Fresh(true), ALL_WELL);
    var tail := [BeginCleanUp(who), Unlink(true), Crash];
    RunThree(p, STAGED, BeginCleanUp(who), Unlink(true), Crash);
    RunAppend(p, Fresh(true), staged, tail);
    actions := staged + tail;
  }

  /** The clean-up after an applied update is cut short, and another release is installed later. */
  lemma ConfirmCutShort(p: Setting) returns (actions: seq<Action>)
    requires !p.confirmFinishes && p.superseded
    ensures Run(p, Fresh(true), actions) == Some(TRUNCATED)
  {
    StagingIsARun(p, Fresh(true), ALL_WELL);
    var staged := StageActions(Fresh(true), ALL_WELL);
    var a, b := [SwapIn, BeginCleanUp(Confirm), Unlink(true)], [Crash, SwapOut];
    RunThree(p, STAGED, SwapIn, BeginCleanUp(Confirm), Unlink(true));
    RunThree(p, State(Partial(true), true, true, true, CleaningTree(Confirm)), Crash, SwapOut, Crash);
    RunAppend(p, Fresh(true), staged, a);
    RunAppend(p, Fresh(true), staged + a, b);
    actions := staged + a + b;
  }

  /** A marker that cannot be removed outlives a completed cancel and then vouches for a half-extracted tree. */
  lemma MarkerStuck(p: Setting) returns (actions: seq<Action>)
    requires !p.markerRemovalWorks
    ensures Run(p, Fresh(true), actions) == Some(TRUNCATED)
  {
    StagingIsARun(p, Fresh(true), ALL_WELL);
    actions := StageActions(Fresh(true), ALL_WELL);
    var a := [BeginCleanUp(Cancel), RemovedTree(true, false), RemoveMarker(false)];
    RunThree(p, STAGED, BeginCleanUp(Cancel), RemovedTree(true, false), RemoveMarker(false));
    RunAppend(p, Fresh(true), actions, a);
    actions := actions + a;
    actions := HalfExtracted(p, actions);
  }

  lemma HalfExtracted(p: Setting, before: seq<Action>) returns (actions: seq<Action>)
    requires !p.markerRemovalWorks
    requires Run(p, Fresh(true), before) == Some(State(Absent, true, false, true, Ready))
    ensures Run(p, Fresh(true), actions) == Some(TRUNCATED)
  {
    var b := [BeginStage, RemoveMarker(false), RemovedTree(true, false)];
    RunThree(p, State(Absent, true, false, true, Ready), BeginStage, RemoveMarker(false), RemovedTree(true, false));
    var c := [MakeDir(true), Unpack(true), Crash];
    RunThree(p, State(Absent, true, false, true, Making), MakeDir(true), Unpack(true), Crash);
    RunAppend(p, Fresh(true), before, b);
    RunAppend(p, Fresh(true), before + b, c);
    actions := before + b + c;
  }

  /** A truncated tree is never reused if and only if the setting is sound. */
  lemma TrustworthyIff(p: Setting)
    ensures AlwaysTrustworthy(p) <==> Sound(p)
  {
    if Sound(p) {
      forall ships: bool, actions: seq<Action> | Run(p, Fresh(ships), actions).Some?
        ensures Trustworthy(Run(p, Fresh(ships), actions).value)
      {
        RunInv(p, Fresh(ships), actions);
      }
    } else {
      var actions: seq<Action>;
      if !p.markerRemovalWorks {
        actions := MarkerStuck(p);
      } else if !p.cancelFinishes {
        actions := CancelCutShort(p);
      } else if !p.repairFinishes {
        actions := RepairCutShort(p);
      } else {
        actions := ConfirmCutShort(p);
      }
      assert !Trustworthy(Run(p, Fresh(true), actions).value);
    }
  }

  // ----- the source's procedures -----

  /** How the fallible calls of one undisturbed staging attempt turn out. */
  datatype Outcomes = Outcomes(
    markerRemoved: bool, treeRemoved: bool, made: bool, extracted: bool, chmodWorks: bool, markerWritten: bool)

  function Finish(s: State, o: Outcomes): seq<Action> {
    [Stamp(o.chmodWorks)] + if o.chmodWorks && HasBinary(s.tree) then [WriteMarker(o.markerWritten)] else []
  }

  function Prepare(o: Outcomes): seq<Action> {
    [RemoveMarker(o.markerRemoved), RemovedTree(o.treeRemoved, true), MakeDir(o.made)]
  }

  /** The machine's view of one undisturbed attempt from s. */
  function StageActions(s: State, o: Outcomes): seq<Action> {
    if Reuses(s) then [BeginStage] + Finish(s, o)
    else if !o.made then [BeginStage] + Prepare(o)
    else if !o.extracted then [BeginStage] + Prepare(o) + [UnpackFails(true, false)]
    else [BeginStage] + Prepare(o) + [Unpacked] + Finish(s.(tree := Whole(s.ships)), o)
  }

  /** What it leaves on disk. */
  function Staged(s: State, o: Outcomes): State {
    var unmarked := s.marker && !o.markerRemoved;
    if Reuses(s) then s.(marker := true)
    else if !o.made then s.(marker := unmarked, tree := Removed(s.tree, o.treeRemoved, true))
    else if !o.extracted then s.(marker := unmarked, tree := Absent)
    else s.(marker := unmarked || (o.chmodWorks && s.ships && o.markerWritten), tree := Whole(s.ships))
  }

  lemma FinishRuns(p: Setting, s: State, o: Outcomes)
    requires s.pc.Stamping?
    ensures Run(p, s, Finish(s, o)) ==
            Some(s.(pc := Ready, marker := s.marker || (o.chmodWorks && HasBinary(s.tree) && o.markerWritten)))
  {
    RunOne(p, s, Stamp(o.chmodWorks));
    assert [Stamp(o.chmodWorks)] + [] == [Stamp(o.chmodWorks)];
    if o.chmodWorks && HasBinary(s.tree) {
      Extend(p, s, [Stamp(o.chmodWorks)], WriteMarker(o.markerWritten));
    }
  }

  /** An undisturbed attempt is a run of the machine, so every prefix of it is a possible crash point. */
  lemma StagingIsARun(p: Setting, s: State, o: Outcomes)
    requires s.pc.Ready? && (p.markerRemovalWorks ==> o.markerRemoved)
    ensures Run(p, s, StageActions(s, o)) == Some(Staged(s, o))
  {
    RunOne(p, s, BeginStage);
    var begun := Step(p, s, BeginStage).value;
    if Reuses(s) {
      RunAppend(p, s, [BeginStage], Finish(s, o));
      FinishRuns(p, begun, o);
      assert Finish(s, o) == Finish(begun, o);
    } else {
      RunThree(p, begun, RemoveMarker(o.markerRemoved), RemovedTree(o.treeRemoved, true), MakeDir(o.made));
      RunAppend(p, s, [BeginStage], Prepare(o));
      if o.made { UnpackingIsARun(p, s, Run(p, s, [BeginStage] + Prepare(o)).value, [BeginStage] + Prepare(o), o); }
    }
  }

  lemma UnpackingIsARun(p: Setting, s: State, t: State, front: seq<Action>, o: Outcomes)
    requires Run(p, s, front) == Some(t) && t.pc.Extracting?
    ensures !o.extracted ==> Run(p, s, front + [UnpackFails(true, false)]) == Some(t.(tree := Absent, pc := Ready))
    ensures o.extracted ==>
              var whole := t.(tree := Whole(t.ships), pc := Ready);
              Run(p, s, front + [Unpacked] + Finish(whole, o)) ==
              Some(whole.(marker := t.marker || (o.chmodWorks && t.ships && o.markerWritten)))
  {
    if o.extracted {
      Extend(p, s, front, Unpacked);
      var u := t.(tree := Whole(t.ships), pc := Stamping);
      FinishRuns(p, u, o);
      RunAppend(p, s, front + [Unpacked], Finish(u, o));
    } else {
      Extend(p, s, front, UnpackFails(true, false));
    }
  }

  class Area {
    var tree: Tree
    var marker: bool
    var installed: bool
    const ships: bool

    constructor (ships: bool)
      ensures Now() == Fresh(ships)
    {
      tree, marker, installed := Absent, false, false;
      this.ships := ships;
    }

    function Now(): State reads this { State(tree, marker, installed, ships, Ready) }

    /**
     stageDownloadedRelease without a crash. It is a run of the machine above, it
     succeeds exactly when every checked call does, and a fresh success is a whole tree.
     */
    method StageDownloadedRelease(o: Outcomes) returns (ok: bool)
      modifies this
      ensures Now() == Staged(old(Now()), o)
      ensures forall p: Setting :: (p.markerRemovalWorks ==> o.markerRemoved) ==>
                Run(p, old(Now()), StageActions(old(Now()), o)) == Some(Now())
      ensures ok <==> o.chmodWorks && (Reuses(old(Now())) || (o.made && o.extracted && ships))
      ensures ok && !Reuses(old(Now())) ==> tree == Whole(true)
      ensures ok && o.markerWritten ==> marker
      ensures !Reuses(old(Now())) && !o.made && !o.treeRemoved && HasBinary(old(tree)) ==> tree == Partial(true)
    {
      ghost var s0 := Now();
      forall p: Setting | p.markerRemovalWorks ==> o.markerRemoved
        ensures Run(p, s0, StageActions(s0, o)) == Some(Staged(s0, o))
      {
        StagingIsARun(p, s0, o);
      }
      var reused := false;
      if HasBinary(tree) {
        if marker { reused := true; }
      }
      if !reused {
        if o.markerRemoved { marker := false; }
        tree := Removed(tree, o.treeRemoved, true);
        if !o.made { return false; }
        if tree.Absent? { tree := Partial(false); }
        if !o.extracted {
          tree := Absent;
          return false;
        }
        tree := Whole(ships);
      }
      if !HasBinary(tree) { return false; }
      if !o.chmodWorks { return false; }
      if o.markerWritten { marker := true; }
      return true;
    }

    /** The clean-up of confirmAppliedUpdate, OpCancelStagedSwap and RepairJukaHub: tree first, marker second. */
    method CleanUp(p: Setting, who: CleanUp, treeRemoved: bool, markerRemoved: bool)
      requires who == Confirm ==> installed
      requires p.markerRemovalWorks ==> markerRemoved
      modifies this
      ensures Run(p, old(Now()), [BeginCleanUp(who), RemovedTree(treeRemoved, true), RemoveMarker(markerRemoved)]) == Some(Now())
      ensures treeRemoved ==> tree == Absent
      ensures marker <==> old(marker) && !markerRemoved
      ensures installed == old(installed)
    {
      RunThree(p, Now(), BeginCleanUp(who), RemovedTree(treeRemoved, true), RemoveMarker(markerRemoved));
      tree := Removed(tree, treeRemoved, true);
      if markerRemoved { marker := false; }
    }
  }
}
