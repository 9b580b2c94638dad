/**
 Staging Android packages in a RAM directory (player/androidpak.go). A launch's
 clean-up runs some time after its game exits; a generation counter per directory
 keeps it from deleting what a later launch of the same profile staged.
 One lock covers every operation, so each is atomic.
 */
module PakStages {

  /** `gens` counts the stages written to each directory; `stages` maps an existing directory to the stage in it. */
  datatype State = State(gens: map<string, nat>, stages: map<string, nat>)

  /** Stage covers stageAndroidPakGen, succeeding or not; Release is the clean-up, late or immediate. */
  datatype Op = Stage(id: string, ok: bool) | Release(dir: string, gen: nat)

  const START := State(map[], map[])

  function DirOf(id: string): string { "pak-" + id }

  function Gen(s: State, dir: string): nat { if dir in s.gens then s.gens[dir] else 0 }

  function Apply(s: State, op: Op): State {
    match op
    case Stage(id, ok) =>
      var dir, gen := DirOf(id), Gen(s, DirOf(id)) + 1;
      State(s.gens[dir := gen], if ok then s.stages[dir := gen] else s.stages - {dir})
    case Release(dir, gen) =>
      if dir == "" || Gen(s, dir) != gen then s else s.(stages := s.stages - {dir})
  }

  function After(ops: seq<Op>): State {
    if ops == [] then START else Apply(After(ops[..|ops| - 1]), ops[|ops| - 1])
  }

  ghost predicate Inv(s: State) {
    forall d :: d in s.stages ==> d in s.gens && s.stages[d] == s.gens[d] && s.gens[d] > 0
  }

  lemma {:induction false} EveryHistory(ops: seq<Op>)
    ensures Inv(After(ops))
  {
    if ops != [] { EveryHistory(ops[..|ops| - 1]); }
  }

  /** A clean-up deletes a directory's stage only when that stage is the one its own launch wrote. */
  lemma ReleaseOnlyOwnStage(ops: seq<Op>, dir: string, gen: nat, d: string)
    requires d in After(ops).stages
    ensures d in Apply(After(ops), Release(dir, gen)).stages <==> !(d == dir && d != "" && After(ops).stages[d] == gen)
  {
    EveryHistory(ops);
  }

  /** How often a directory was staged. */
  function Stagings(ops: seq<Op>, d: string): nat {
    if ops == [] then 0
    else Stagings(ops[..|ops| - 1], d) + if ops[|ops| - 1].Stage? && DirOf(ops[|ops| - 1].id) == d then 1 else 0
  }

  /** The generation of a directory counts its stagings, failed ones included and clean-ups not. */
  lemma {:induction false} GenCounts(ops: seq<Op>, d: string)
    ensures Gen(After(ops), d) == Stagings(ops, d)
  {
    if ops != [] { GenCounts(ops[..|ops| - 1], d); }
  }

  /** Every profile has a directory of its own. */
  lemma DirsApart(a: string, b: string)
    ensures DirOf(a) == DirOf(b) <==> a == b
    ensures |DirOf(a)| == 4 + |a| && DirOf(a)[..4] == "pak-" && DirOf(a)[4..] == a
  {
    assert DirOf(a)[4..] == a && DirOf(b)[4..] == b;
  }

  // ----- launches, read off the history -----

  /** Operation k is a successful launch; HandleGen is what it was given for its clean-up. */
  predicate Launch(ops: seq<Op>, k: nat) { k < |ops| && ops[k].Stage? && ops[k].ok }

  function HandleGen(ops: seq<Op>, k: nat): nat
    requires Launch(ops, k)
  {
    Gen(After(ops[..k]), DirOf(ops[k].id)) + 1
  }

  lemma AfterStep(ops: seq<Op>, i: nat)
    requires i < |ops|
    ensures After(ops[..i + 1]) == Apply(After(ops[..i]), ops[i])
  {
    assert ops[..i + 1][..i] == ops[..i];
  }

  lemma {:induction false} GensGrow(ops: seq<Op>, i: nat, j: nat, d: string)
    requires i <= j <= |ops|
    ensures Gen(After(ops[..i]), d) <= Gen(After(ops[..j]), d)
    decreases j
  {
    if i < j {
      GensGrow(ops, i, j - 1, d);
      AfterStep(ops, j - 1);
    }
  }

  /** Releasing an earlier launch of a profile, at any later time, leaves a later launch's stage in place. */
  lemma LaterLaunchSurvives(ops: seq<Op>, k: nat, m: nat)
    requires k < m && Launch(ops, k) && Launch(ops, m) && ops[k].id == ops[m].id
    requires var d := DirOf(ops[m].id); d in After(ops).stages && After(ops).stages[d] == HandleGen(ops, m)
    ensures Apply(After(ops), Release(DirOf(ops[k].id), HandleGen(ops, k))).stages == After(ops).stages
  {
    var d := DirOf(ops[m].id);
    AfterStep(ops, k);
    GensGrow(ops, k + 1, m, d);
    EveryHistory(ops);
  }

  /** Launch k's stage has been released, or overwritten, by the end of the history. */
  predicate Released(ops: seq<Op>, k: nat)
    requires Launch(ops, k)
  {
    Release(DirOf(ops[k].id), HandleGen(ops, k)) in ops[k + 1..]
  }

  /** A launch is the same launch in the longer history, and only the last operation can be new after it. */
  lemma SameLaunch(ops: seq<Op>, k: nat)
    requires k < |ops| - 1 && Launch(ops[..|ops| - 1], k)
    ensures Launch(ops, k) && HandleGen(ops, k) == HandleGen(ops[..|ops| - 1], k)
    ensures ops[k + 1..] == ops[..|ops| - 1][k + 1..] + [ops[|ops| - 1]]
  {
    assert ops[..|ops| - 1][..k] == ops[..k];
  }

  lemma {:induction false} WriterOf(ops: seq<Op>, d: string) returns (k: nat)
    requires d in After(ops).stages
    ensures Launch(ops, k) && DirOf(ops[k].id) == d && HandleGen(ops, k) == After(ops).stages[d]
    ensures Release(d, HandleGen(ops, k)) !in ops[k + 1..]
    ensures forall j :: k < j < |ops| && ops[j].Stage? ==> DirOf(ops[j].id) != d
  {
    var n := |ops| - 1;
    var front, op := ops[..n], ops[n];
    assert ops[..n] == front;
    EveryHistory(front);
    if op.Stage? && DirOf(op.id) == d {
      k := n;
      assert ops[n + 1..] == [];
    } else {
      k := WriterOf(front, d);
      SameLaunch(ops, k);
    }
  }

  /** A stage stays while nobody restages its directory or releases it. */
  lemma {:induction false} Persists(ops: seq<Op>, k: nat)
    requires Launch(ops, k) && !Released(ops, k)
    requires forall j :: k < j < |ops| && ops[j].Stage? ==> DirOf(ops[j].id) != DirOf(ops[k].id)
    ensures var d := DirOf(ops[k].id);
            d in After(ops).stages && After(ops).stages[d] == HandleGen(ops, k) == Gen(After(ops), d)
    decreases |ops|
  {
    var n := |ops| - 1;
    if k < n {
      var front := ops[..n];
      assert front[..k] == ops[..k];
      assert ops[k + 1..] == front[k + 1..] + [ops[n]];
      Persists(front, k);
    }
  }

  /**
   A stage directory exists exactly while its last staging was a successful launch
   that has not been released.
   */
  lemma StageRemainsIff(ops: seq<Op>, d: string)
    ensures d in After(ops).stages <==>
            exists k: nat :: Launch(ops, k) && DirOf(ops[k].id) == d && !Released(ops, k)
                        && forall j :: k < j < |ops| && ops[j].Stage? ==> DirOf(ops[j].id) != d
  {
    if d in After(ops).stages {
      var k := WriterOf(ops, d);
    }
    if k: nat :| Launch(ops, k) && DirOf(ops[k].id) == d && !Released(ops, k)
                 && forall j :: k < j < |ops| && ops[j].Stage? ==> DirOf(ops[j].id) != d {
      Persists(ops, k);
    }
  }

  /** Once every successful launch has released its stage, no stage directory remains. */
  lemma NothingLeaks(ops: seq<Op>)
    requires forall k: nat :: Launch(ops, k) ==> Released(ops, k)
    ensures After(ops).stages == map[]
  {
    if d :| d in After(ops).stages {
      var k := WriterOf(ops, d);
    }
  }

  // ----- the extraction's size budget -----

  newtype int64 = x: int | -0x8000_0000_0000_0000 <= x < 0x8000_0000_0000_0000
  newtype uint64 = x: int | 0 <= x < 0x1_0000_0000_0000_0000

  const MAX_ENTRIES := 32768
  const MAX_BYTES: int64 := 512 * 1048576

  /** An archive member; `wanted` when it belongs to the runtime subset of the chosen ABI. */
  datatype Member = Member(wanted: bool, safe: bool, isDir: bool, declared: uint64, writes: bool)

  function DeclaredBytes(size: uint64): (r: int64)
    ensures r as int == if size as int < 0x8000_0000_0000_0000 then size as int else 0x7FFF_FFFF_FFFF_FFFF
  {
    if size as int >= 0x8000_0000_0000_0000 then 0x7FFF_FFFF_FFFF_FFFF else size as int64
  }

  /** The exact sum, in unbounded integers, of the sizes the archive declares for what is staged. */
  function Declared(members: seq<Member>): nat {
    if members == [] then 0
    else
      var m := members[|members| - 1];
      Declared(members[..|members| - 1]) + if m.wanted && !m.isDir then m.declared as int else 0
  }

  lemma {:induction false} DeclaredGrows(members: seq<Member>, k: nat)
    requires k <= |members|
    ensures Declared(members[..k]) <= Declared(members)
  {
    if k < |members| {
      DeclaredGrows(members[..|members| - 1], k);
      assert members[..|members| - 1][..k] == members[..k];
    } else {
      assert members[..k] == members;
    }
  }

  /** Only the files of the chosen runtime count, each with the size it declares. */
  lemma DeclaredAdds(members: seq<Member>, m: Member)
    ensures Declared([]) == 0
    ensures m.wanted && !m.isDir ==> Declared(members + [m]) == Declared(members) + m.declared as int
    ensures !m.wanted || m.isDir ==> Declared(members + [m]) == Declared(members)
  {
    assert (members + [m])[..|members|] == members;
  }

  /** Nothing in the archive but its sizes can make extraction fail. */
  predicate Extractable(m: Member) { m.wanted ==> m.safe && (m.isDir || m.writes) }

  /**
   stageAndroidPakInto's loop. No int64 sum wraps, whatever the headers claim, and an
   otherwise sound archive is staged exactly when its true total is within the budget.
   */
  method StageInto(members: seq<Member>, cleared: bool) returns (ok: bool, total: int64)
    ensures ok ==> total as int == Declared(members) <= 536_870_912
    ensures cleared && |members| <= 32_768 && (forall i :: 0 <= i < |members| ==> Extractable(members[i]))
            ==> (ok <==> Declared(members) <= 536_870_912)
    ensures ok ==> cleared && |members| <= 32_768 && forall i :: 0 <= i < |members| ==> Extractable(members[i])
  {
    total := 0;
    if !cleared { return false, 0; }
    if |members| > MAX_ENTRIES { return false, 0; }
    var i := 0;
    while i < |members|
      invariant 0 <= i <= |members|
      invariant 0 <= total <= MAX_BYTES
      invariant total as int == Declared(members[..i])
      invariant forall j :: 0 <= j < i ==> Extractable(members[j])
    {
      assert members[..i + 1][..i] == members[..i];
      DeclaredGrows(members, i + 1);
      var m := members[i];
      if m.wanted {
        if !m.safe { return false, 0; }
        if !m.isDir {
          var size := DeclaredBytes(m.declared);
          if size < 0 || total > MAX_BYTES || size > MAX_BYTES - total { return false, 0; }
          total := total + size;
          if !m.writes { return false, 0; }
        }
      }
      i := i + 1;
    }
    assert members[..i] == members;
    return true, total;
  }

  // ----- the lock-protected registry -----

  class Registry {
    var gen: map<string, nat>
    var dirs: map<string, nat>

    constructor ()
      ensures Now() == START
    {
      gen, dirs := map[], map[];
    }

    function Now(): State reads this { State(gen, dirs) }

    /** The generation returned to a failed launch is 0, and its directory is gone. */
    method StageAndroidPakGen(id: string, members: seq<Member>, cleared: bool) returns (ok: bool, g: nat)
      modifies this
      ensures Now() == Apply(old(Now()), Stage(id, ok))
      ensures g == if ok then Gen(old(Now()), DirOf(id)) + 1 else 0
      ensures ok ==> Declared(members) <= MAX_BYTES as int
    {
      var dir := DirOf(id);
      gen := gen[dir := (if dir in gen then gen[dir] else 0) + 1];
      g := gen[dir];
      var total;
      ok, total := StageInto(members, cleared);
      if !ok {
        dirs := dirs - {dir};
        return false, 0;
      }
      dirs := dirs[dir := g];
    }

    method StageRelease(dir: string, g: nat)
      modifies this
      ensures Now() == Apply(old(Now()), Release(dir, g))
    {
      if dir == "" { return; }
      if (if dir in gen then gen[dir] else 0) != g { return; }
      dirs := dirs - {dir};
    }
  }
}
