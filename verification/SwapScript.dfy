/**
 The POSIX half of the apply-update helper (player/autoupdate.go): which staged
 files are installed and in what order, the shell script written for them, and
 what the disk, with its files and folders, looks like whenever that script is cut
 short, fails, or is run again.
 */
module SwapScript {
  import opened Prelude

  /** A cleaned path relative to the executable directory, one string per component. */
  type RelPath = seq<string>
  type Content = string

  datatype Path =
    | Staged(rel: RelPath)
    | Installed(rel: RelPath)
    | Journal

  datatype Node = File(content: Content) | Folder

  type Disk = map<Path, Node>

  const STAMP: RelPath := ["release-info.json"]

  /** The launcher's notes lie in the executable directory, among the installed files. */
  const PENDING: RelPath := [".restart-pending"]
  const SWAPPED: RelPath := [".update-swapped"]
  const FAILED: RelPath := [".update-failed"]

  const MAX_FILES := 128

  // ----- choosing the files -----

  datatype Kind = Dir | Regular | OtherFile | Unreadable

  /** One callback of the directory walk; `rel` is relative to the staged root. */
  datatype Entry = Entry(rel: RelPath, kind: Kind, walkError: bool)

  datatype ListError = WalkFailed | UnexpectedPath | NothingStaged | TooManyFiles
  datatype Listing = Files(names: seq<RelPath>) | Refused(error: ListError)

  function Last(rel: RelPath): string
    requires rel != []
  {
    rel[|rel| - 1]
  }

  predicate HasPrefix(s: string, prefix: string) {
    |s| >= |prefix| && s[..|prefix|] == prefix
  }

  /** Helper tools under required/ are left as they are, in any letter case. */
  predicate IsPreserved(rel: RelPath) {
    rel != [] && Lower(rel[0]) == "required"
  }

  /** The walk reports this entry as an error of the whole listing. */
  function EntryError(e: Entry): Option<ListError> {
    if e.walkError then Some(WalkFailed)
    else if e.kind.Dir? || (e.rel != [] && HasPrefix(Last(e.rel), "apply-update")) then None
    else if e.kind.Unreadable? then Some(WalkFailed)
    else if e.kind.OtherFile? then None
    else if e.rel == [] || HasPrefix(e.rel[0], "..") then Some(UnexpectedPath)
    else None
  }

  predicate Installs(e: Entry) {
    && EntryError(e).None? && e.kind.Regular? && e.rel != []
    && !HasPrefix(Last(e.rel), "apply-update")
    && !IsPreserved(e.rel)
  }

  /** The names to install, in walk order. */
  function Selected(entries: seq<Entry>): seq<RelPath> {
    if entries == [] then []
    else
      var e := entries[|entries| - 1];
      Selected(entries[..|entries| - 1]) + if Installs(e) then [e.rel] else []
  }

  function FirstError(entries: seq<Entry>): Option<ListError> {
    if entries == [] then None
    else if EntryError(entries[0]).Some? then EntryError(entries[0])
    else FirstError(entries[1..])
  }

  function Only(names: seq<RelPath>, stamp: bool): seq<RelPath> {
    if names == [] then []
    else
      var last := names[|names| - 1];
      Only(names[..|names| - 1], stamp) + if (last == STAMP) == stamp then [last] else []
  }

  /** The stable sort that moves release-info.json behind everything else. */
  function StampLast(names: seq<RelPath>): seq<RelPath> {
    Only(names, false) + Only(names, true)
  }

  /** The source's `less` of sort.SliceStable. */
  predicate Before(a: RelPath, b: RelPath) { a != STAMP && b == STAMP }

  ghost predicate InOrder(names: seq<RelPath>) {
    forall i, j :: 0 <= i < j < |names| ==> !Before(names[j], names[i])
  }

  lemma {:induction false} OnlyElements(names: seq<RelPath>, stamp: bool)
    ensures forall n :: n in Only(names, stamp) <==> n in names && ((n == STAMP) == stamp)
  {
    if names != [] {
      var front := names[..|names| - 1];
      assert names == front + [names[|names| - 1]];
      OnlyElements(front, stamp);
    }
  }

  lemma {:induction false} OnlyConcat(a: seq<RelPath>, b: seq<RelPath>, stamp: bool)
    ensures Only(a + b, stamp) == Only(a, stamp) + Only(b, stamp)
  {
    if b == [] {
      assert a + b == a;
    } else {
      assert (a + b)[..|a + b| - 1] == a + b[..|b| - 1];
      OnlyConcat(a, b[..|b| - 1], stamp);
    }
  }

  lemma {:induction false} OnlyOfUniform(names: seq<RelPath>, all: bool, stamp: bool)
    requires forall n :: n in names ==> ((n == STAMP) == all)
    ensures Only(names, stamp) == if all == stamp then names else []
  {
    if names != [] {
      var front := names[..|names| - 1];
      assert forall n :: n in front ==> n in names;
      assert names[|names| - 1] in names;
      OnlyOfUniform(front, all, stamp);
      assert names == front + [names[|names| - 1]];
    }
  }

  lemma StampLastInOrder(names: seq<RelPath>)
    ensures InOrder(StampLast(names))
  {
    OnlyElements(names, false);
    OnlyElements(names, true);
    var plain, stamps := Only(names, false), Only(names, true);
    forall i, j | 0 <= i < j < |plain + stamps|
      ensures !Before((plain + stamps)[j], (plain + stamps)[i])
    {
      if j < |plain| {
        assert plain[i] in plain;
      } else {
        assert stamps[j - |plain|] in stamps;
      }
    }
  }

  lemma StampLastKeepsOrder(names: seq<RelPath>, stamp: bool)
    ensures Only(StampLast(names), stamp) == Only(names, stamp)
  {
    var plain, stamps := Only(names, false), Only(names, true);
    OnlyElements(names, false);
    OnlyElements(names, true);
    OnlyConcat(plain, stamps, stamp);
    OnlyOfUniform(plain, false, stamp);
    OnlyOfUniform(stamps, true, stamp);
  }

  lemma StampLastLength(names: seq<RelPath>)
    ensures |StampLast(names)| == |names|
  {
    SplitMultiset(names);
    assert |multiset(StampLast(names))| == |StampLast(names)|;
  }

  /** StampLast is ordered and keeps the relative order inside both classes. */
  lemma StampLastIsStableSort(names: seq<RelPath>)
    ensures InOrder(StampLast(names))
    ensures forall stamp :: Only(StampLast(names), stamp) == Only(names, stamp)
    ensures multiset(StampLast(names)) == multiset(names)
  {
    StampLastInOrder(names);
    forall stamp ensures Only(StampLast(names), stamp) == Only(names, stamp) { StampLastKeepsOrder(names, stamp); }
    SplitMultiset(names);
  }

  lemma {:induction false} SplitMultiset(names: seq<RelPath>)
    ensures multiset(StampLast(names)) == multiset(names)
  {
    if names != [] {
      var front, last := names[..|names| - 1], names[|names| - 1];
      assert names == front + [last];
      SplitMultiset(front);
    }
  }

  /** ... and it is the only list with those two properties, so it is what any stable sort returns. */
  lemma {:induction false} StableSortIsUnique(names: seq<RelPath>, r: seq<RelPath>)
    requires InOrder(r)
    requires Only(r, false) == Only(names, false) && Only(r, true) == Only(names, true)
    ensures r == StampLast(names)
  {
    OrderedSplits(r);
  }

  lemma {:induction false} OrderedSplits(r: seq<RelPath>)
    requires InOrder(r)
    ensures r == Only(r, false) + Only(r, true)
  {
    if r != [] {
      var front, last := r[..|r| - 1], r[|r| - 1];
      OrderedSplits(front);
      if last != STAMP {
        forall n | n in front ensures n != STAMP {
          var i :| 0 <= i < |front| && front[i] == n;
          assert !Before(r[|r| - 1], r[i]);
        }
        OnlyOfUniform(front, false, true);
      }
    }
  }

  lemma {:induction false} SelectedElements(entries: seq<Entry>)
    ensures forall n :: n in Selected(entries) <==> exists e :: e in entries && Installs(e) && e.rel == n
  {
    if entries != [] {
      var front, last := entries[..|entries| - 1], entries[|entries| - 1];
      assert entries == front + [last];
      SelectedElements(front);
      forall n ensures n in Selected(entries) <==> exists e :: e in entries && Installs(e) && e.rel == n {
        if n in Selected(front) {
          var e :| e in front && Installs(e) && e.rel == n;
          assert e in entries;
        }
      }
    }
  }

  lemma {:induction false} FirstErrorSnoc(entries: seq<Entry>, k: nat)
    requires k < |entries|
    requires FirstError(entries[..k]).None?
    ensures EntryError(entries[k]).Some? ==> FirstError(entries) == EntryError(entries[k])
    ensures EntryError(entries[k]).None? ==> FirstError(entries[..k + 1]).None?
  {
    if k > 0 {
      assert entries[..k][1..] == entries[1..][..k - 1];
      assert entries[..k + 1][1..] == entries[1..][..k];
      FirstErrorSnoc(entries[1..], k - 1);
    } else {
      assert entries[..1][1..] == [];
    }
  }

  lemma {:induction false} NoErrorAt(entries: seq<Entry>, k: nat)
    requires FirstError(entries).None? && k < |entries|
    ensures EntryError(entries[k]).None?
  {
    if k > 0 { NoErrorAt(entries[1..], k - 1); }
  }

  lemma {:induction false} SomeErrorAt(entries: seq<Entry>) returns (k: nat)
    requires FirstError(entries).Some?
    ensures k < |entries| && EntryError(entries[k]) == FirstError(entries)
    ensures forall j :: 0 <= j < k ==> EntryError(entries[j]).None?
  {
    if EntryError(entries[0]).Some? { k := 0; } else {
      var j := SomeErrorAt(entries[1..]);
      k := j + 1;
      assert forall i :: 1 <= i < k ==> entries[i] == entries[1..][i - 1];
    }
  }

  /** A regular file at any depth, wherever the walk met it, that is neither a swap helper nor a tool under required/. */
  predicate BelongsTo(entries: seq<Entry>, rel: RelPath) {
    && rel != [] && Entry(rel, Regular, false) in entries
    && !("apply-update" <= Last(rel)) && Lower(rel[0]) != "required"
  }

  /** The walk goes wrong at this entry. */
  predicate Fatal(e: Entry) {
    || e.walkError
    || (e.kind.Unreadable? && !(e.rel != [] && "apply-update" <= Last(e.rel)))
    || (e.kind.Regular? && (e.rel == [] || (".." <= e.rel[0] && !("apply-update" <= Last(e.rel)))))
  }

  /** It goes wrong because the entry lies outside the staged tree. */
  predicate Outside(e: Entry) { Fatal(e) && !e.walkError && e.kind.Regular? }

  lemma FatalIsError(e: Entry)
    ensures EntryError(e).Some? <==> Fatal(e)
    ensures EntryError(e) == Some(UnexpectedPath) <==> Outside(e)
  {}

  /** The k-th entry is the first at which the walk goes wrong. */
  ghost predicate FirstFatal(entries: seq<Entry>, k: int) {
    0 <= k < |entries| && Fatal(entries[k]) && forall j :: 0 <= j < k ==> !Fatal(entries[j])
  }

  lemma FirstErrorIs(entries: seq<Entry>)
    requires FirstError(entries).Some?
    ensures exists k :: FirstFatal(entries, k)
              && FirstError(entries).value == if Outside(entries[k]) then UnexpectedPath else WalkFailed
  {
    var k := SomeErrorAt(entries);
    forall j | 0 <= j <= k { FatalIsError(entries[j]); }
    assert FirstFatal(entries, k);
  }

  lemma SelectedBelongs(entries: seq<Entry>, rel: RelPath)
    requires FirstError(entries).None?
    ensures rel in Selected(entries) <==> BelongsTo(entries, rel)
  {
    SelectedElements(entries);
    if BelongsTo(entries, rel) {
      var k :| 0 <= k < |entries| && entries[k] == Entry(rel, Regular, false);
      NoErrorAt(entries, k);
      assert Installs(entries[k]);
    }
  }

  /** Files that are not the stamp are installed in the order the walk met them. */
  ghost predicate InWalkOrder(entries: seq<Entry>, names: seq<RelPath>) {
    forall i, j :: 0 <= i < j < |names| && names[j] != STAMP ==>
      exists p, q :: 0 <= p < q < |entries| && entries[p].rel == names[i] && entries[q].rel == names[j]
  }

  /** More than n entries belong to the release. */
  ghost predicate MoreThan(entries: seq<Entry>, n: nat) {
    exists at: seq<nat> :: |at| > n && Picks(entries, at)
  }

  ghost predicate Picks(entries: seq<Entry>, at: seq<nat>) {
    && (forall i, j :: 0 <= i < j < |at| ==> at[i] < at[j])
    && forall i :: 0 <= i < |at| ==> at[i] < |entries| && BelongsTo(entries, entries[at[i]].rel)
  }

  lemma ManySelected(entries: seq<Entry>, n: nat)
    requires FirstError(entries).None? && |Selected(entries)| > n
    ensures MoreThan(entries, n)
  {
    var at := SelectedWhere(entries);
    forall i | 0 <= i < |at| ensures BelongsTo(entries, entries[at[i]].rel) {
      assert entries[at[i]].rel == Selected(entries)[i];
      SelectedBelongs(entries, entries[at[i]].rel);
    }
    assert Picks(entries, at);
  }

  lemma {:induction false} SelectedWhere(entries: seq<Entry>) returns (at: seq<nat>)
    ensures |at| == |Selected(entries)| && forall i, j :: 0 <= i < j < |at| ==> at[i] < at[j]
    ensures forall i :: 0 <= i < |at| ==> at[i] < |entries| && entries[at[i]].rel == Selected(entries)[i]
  {
    if entries == [] {
      at := [];
    } else {
      var n := |entries| - 1;
      var front := entries[..n];
      var before := SelectedWhere(front);
      forall i | 0 <= i < |before| ensures entries[before[i]].rel == Selected(front)[i] {
        assert front[before[i]] == entries[before[i]];
      }
      if Installs(entries[n]) {
        assert Selected(entries) == Selected(front) + [entries[n].rel];
        at := before + [n];
      } else {
        assert Selected(entries) == Selected(front);
        at := before;
      }
    }
  }

  lemma {:induction false} OnlyWhere(names: seq<RelPath>, stamp: bool) returns (at: seq<nat>)
    ensures |at| == |Only(names, stamp)| && forall i, j :: 0 <= i < j < |at| ==> at[i] < at[j]
    ensures forall i :: 0 <= i < |at| ==> at[i] < |names| && names[at[i]] == Only(names, stamp)[i]
  {
    if names == [] {
      at := [];
    } else {
      var n := |names| - 1;
      var front := names[..n];
      var before := OnlyWhere(front, stamp);
      forall i | 0 <= i < |before| ensures names[before[i]] == Only(front, stamp)[i] {
        assert front[before[i]] == names[before[i]];
      }
      if (names[n] == STAMP) == stamp {
        assert Only(names, stamp) == Only(front, stamp) + [names[n]];
        at := before + [n];
      } else {
        assert Only(names, stamp) == Only(front, stamp);
        at := before;
      }
    }
  }

  lemma ListedInWalkOrder(entries: seq<Entry>)
    ensures InWalkOrder(entries, StampLast(Selected(entries)))
  {
    var chosen := Selected(entries);
    var plain := Only(chosen, false);
    OnlyElements(chosen, true);
    var at := SelectedWhere(entries);
    var pick := OnlyWhere(chosen, false);
    forall i, j | 0 <= i < j < |StampLast(chosen)| && StampLast(chosen)[j] != STAMP
      ensures exists p, q :: 0 <= p < q < |entries|
                && entries[p].rel == StampLast(chosen)[i] && entries[q].rel == StampLast(chosen)[j]
    {
      if j >= |plain| { assert Only(chosen, true)[j - |plain|] in Only(chosen, true); }
      assert entries[at[pick[i]]].rel == plain[i] && entries[at[pick[j]]].rel == plain[j];
    }
  }

  /** The stamp, when it is listed, is the last file to be installed. */
  lemma StampEndsList(names: seq<RelPath>)
    ensures STAMP in StampLast(names) ==> StampLast(names)[|StampLast(names)| - 1] == ["release-info.json"]
  {
    var stamps := Only(names, true);
    OnlyElements(names, false);
    OnlyElements(names, true);
    if STAMP in StampLast(names) { assert STAMP in stamps && stamps[|stamps| - 1] in stamps; }
  }

  /** stagedInstallFiles: the walk, the size checks and the final sort. */
  method StagedInstallFiles(entries: seq<Entry>) returns (r: Listing)
    ensures FirstError(entries).Some? ==> r == Refused(FirstError(entries).value)
    ensures FirstError(entries).None? ==>
              var chosen := Selected(entries);
              r == if chosen == [] then Refused(NothingStaged)
                   else if |chosen| > MAX_FILES then Refused(TooManyFiles)
                   else Files(StampLast(chosen))
    ensures r.Files? ==> forall rel :: rel in r.names <==> BelongsTo(entries, rel)
    ensures r.Files? ==> InWalkOrder(entries, r.names) && 0 < |r.names| <= 128
    ensures r == Refused(NothingStaged) ==> forall rel :: !BelongsTo(entries, rel)
    ensures r == Refused(TooManyFiles) ==> MoreThan(entries, 128)
    ensures r.Files? ==> forall e :: e in entries ==> !Fatal(e)
    ensures r.Refused? && r.error in {WalkFailed, UnexpectedPath} <==> exists e :: e in entries && Fatal(e)
    ensures r.Refused? && r.error in {WalkFailed, UnexpectedPath} ==>
              exists k :: FirstFatal(entries, k) && r.error == if Outside(entries[k]) then UnexpectedPath else WalkFailed
    ensures r.Files? && ["release-info.json"] in r.names ==> r.names[|r.names| - 1] == ["release-info.json"]
  {
    var files: seq<RelPath> := [];
    var i := 0;
    while i < |entries|
      invariant 0 <= i <= |entries|
      invariant files == Selected(entries[..i])
      invariant FirstError(entries[..i]).None?
    {
      FirstErrorSnoc(entries, i);
      assert entries[..i + 1][..i] == entries[..i];
      var e := entries[i];
      FatalIsError(e);
      if EntryError(e).Some? {
        FirstErrorIs(entries);
        return Refused(EntryError(e).value);
      }
      if Installs(e) { files := files + [e.rel]; }
      i := i + 1;
    }
    assert entries[..i] == entries;
    forall e | e in entries ensures !Fatal(e) {
      var k :| 0 <= k < |entries| && entries[k] == e;
      NoErrorAt(entries, k);
      FatalIsError(e);
    }
    forall rel ensures rel in files <==> BelongsTo(entries, rel) { SelectedBelongs(entries, rel); }
    if files == [] { return Refused(NothingStaged); }
    if |files| > MAX_FILES {
      ManySelected(entries, MAX_FILES);
      return Refused(TooManyFiles);
    }
    OnlyElements(files, false);
    OnlyElements(files, true);
    ListedInWalkOrder(entries);
    StampLastLength(files);
    StampEndsList(files);
    return Files(StampLast(files));
  }

  // ----- the script -----

  function TempOf(rel: RelPath): RelPath
    requires rel != []
  {
    rel[..|rel| - 1] + [rel[|rel| - 1] + ".new"]
  }

  datatype Command =
    | Copy(name: RelPath)      // cp -f staged dest.new
    | Move(name: RelPath)      // mv -f dest.new dest
    | Chmod | RemoveJournal
    | HandOff                  // verdict for a waiting launcher, which then restarts the app
    | ClearVerdicts | Relaunch

  const TAIL: seq<Command> := [Chmod, RemoveJournal, HandOff, ClearVerdicts, Relaunch]

  function FileCommands(names: seq<RelPath>): (cs: seq<Command>)
    ensures |cs| == 2 * |names|
    ensures forall k :: 0 <= k < |names| ==> cs[2 * k] == Copy(names[k]) && cs[2 * k + 1] == Move(names[k])
  {
    if names == [] then []
    else FileCommands(names[..|names| - 1]) + [Copy(names[|names| - 1]), Move(names[|names| - 1])]
  }

  function Script(names: seq<RelPath>): seq<Command> { FileCommands(names) + TAIL }

  /** writeSwapScriptFor: the loop that writes two lines a file, then the fixed tail. */
  method WriteSwapScript(names: seq<RelPath>) returns (script: seq<Command>)
    ensures script == Script(names)
  {
    script := [];
    var i := 0;
    while i < |names|
      invariant 0 <= i <= |names|
      invariant script == FileCommands(names[..i])
    {
      assert names[..i + 1][..i] == names[..i];
      script := script + [Copy(names[i]), Move(names[i])];
      i := i + 1;
    }
    assert names[..i] == names;
    script := script + TAIL;
  }

  lemma CommandAt(names: seq<RelPath>, i: nat)
    requires i < |names|
    ensures |Script(names)| > 2 * i + 1 && Script(names)[2 * i] == Copy(names[i]) && Script(names)[2 * i + 1] == Move(names[i])
  {
    assert FileCommands(names)[2 * i] == Copy(names[i]) && FileCommands(names)[2 * i + 1] == Move(names[i]);
  }

  /** Two lines for each file in order, then the tail: the journal goes before the hand-off and the relaunch comes last. */
  lemma ScriptIs(names: seq<RelPath>, k: nat)
    ensures |Script(names)| == 2 * |names| + 5
    ensures k < |names| ==> Script(names)[2 * k] == Copy(names[k]) && Script(names)[2 * k + 1] == Move(names[k])
    ensures Script(names)[2 * |names|..] == [Chmod, RemoveJournal, HandOff, ClearVerdicts, Relaunch]
  {
    if k < |names| { CommandAt(names, k); }
  }

  // ----- running it on a disk that can stop at any point -----

  function At(disk: Disk, p: Path): Option<Node> { if p in disk then Some(disk[p]) else None }

  predicate IsFile(disk: Disk, p: Path) { p in disk && disk[p].File? }

  predicate IsFolder(disk: Disk, rel: RelPath) { At(disk, Installed(rel)) == Some(Folder) }

  function Parent(rel: RelPath): RelPath
    requires rel != []
  {
    rel[..|rel| - 1]
  }

  /** Where cp and mv put what is called `base` when told `target`: inside it when it is a folder. */
  function Target(disk: Disk, target: RelPath, base: string): RelPath {
    if IsFolder(disk, target) then target + [base] else target
  }

  function CopyTarget(disk: Disk, name: RelPath): RelPath
    requires name != []
  {
    Target(disk, TempOf(name), Last(name))
  }

  function MoveTarget(disk: Disk, name: RelPath): RelPath
    requires name != []
  {
    Target(disk, name, Last(TempOf(name)))
  }

  /** cp makes no folder, and puts no file in place of one. */
  predicate CanCopy(disk: Disk, name: RelPath)
    requires name != []
  {
    IsFolder(disk, Parent(name)) && !IsFolder(disk, CopyTarget(disk, name))
  }

  predicate Under(rel: RelPath, p: Path) { p.Installed? && rel <= p.rel }

  /** Nothing is there, or an empty folder. */
  ghost predicate Vacant(disk: Disk, rel: RelPath) {
    forall p :: p in disk && Under(rel, p) ==> p == Installed(rel) && disk[p].Folder?
  }

  /** What a path holds after the folder src was renamed to dst. */
  function Origin(disk: Disk, src: RelPath, dst: RelPath, p: Path): Option<Node> {
    if Under(dst, p) then At(disk, Installed(src + p.rel[|dst|..]))
    else if Under(src, p) then None
    else At(disk, p)
  }

  function Relocated(disk: Disk, src: RelPath, dst: RelPath): Disk {
    var moved := set p | p in disk.Keys && Under(src, p) :: Installed(dst + p.rel[|src|..]);
    map p | p in disk.Keys + moved && Origin(disk, src, dst, p).Some? :: Origin(disk, src, dst, p).value
  }

  lemma RelocatedAt(disk: Disk, src: RelPath, dst: RelPath, p: Path)
    ensures At(Relocated(disk, src, dst), p) == Origin(disk, src, dst, p)
  {
    if Under(dst, p) && Origin(disk, src, dst, p).Some? {
      var q := Installed(src + p.rel[|dst|..]);
      assert q in disk && Under(src, q) && q.rel[|src|..] == p.rel[|dst|..];
      assert dst + q.rel[|src|..] == p.rel;
    }
  }

  /** Renaming a folder moves everything in it to the same place below the new name, and nothing else. */
  lemma RenameMoves(disk: Disk, src: RelPath, dst: RelPath, rest: RelPath, p: Path)
    requires !(src <= dst) && !(dst <= src)
    ensures At(Relocated(disk, src, dst), Installed(dst + rest)) == At(disk, Installed(src + rest))
    ensures At(Relocated(disk, src, dst), Installed(src + rest)) == None
    ensures !Under(src, p) && !Under(dst, p) ==> At(Relocated(disk, src, dst), p) == At(disk, p)
  {
    RelocatedAt(disk, src, dst, Installed(dst + rest));
    RelocatedAt(disk, src, dst, Installed(src + rest));
    RelocatedAt(disk, src, dst, p);
    if dst <= src + rest { PrefixesCompare(dst, src, src + rest); }
  }

  lemma PrefixesCompare(a: RelPath, b: RelPath, c: RelPath)
    requires a <= c && b <= c
    ensures a <= b || b <= a
  {
    if |a| <= |b| { assert a == c[..|a|] == b[..|a|]; } else { assert b == c[..|b|] == a[..|b|]; }
  }

  /** The temporary of dir/x is dir/x.new; a folder of the target's name takes the file inside, under its source's name. */
  lemma TargetsAre(disk: Disk, dir: RelPath, x: string)
    ensures CopyTarget(disk, dir + [x])
            == if IsFolder(disk, dir + [x + ".new"]) then dir + [x + ".new", x] else dir + [x + ".new"]
    ensures MoveTarget(disk, dir + [x]) == if IsFolder(disk, dir + [x]) then dir + [x, x + ".new"] else dir + [x]
  {
    assert (dir + [x])[..|dir|] == dir;
    assert dir + [x + ".new"] + [x] == dir + [x + ".new", x];
    assert dir + [x] + [x + ".new"] == dir + [x, x + ".new"];
  }

  datatype Status = Running | Exited(code: nat)

  datatype Machine = Machine(disk: Disk, pc: nat, status: Status)

  const EMPTY: Node := File("")

  /** `: > note`, which no folder of that name allows. */
  function Noted(disk: Disk, note: RelPath): Disk {
    if IsFolder(disk, note) then disk else disk[Installed(note) := EMPTY]
  }

  /** rm -f, which leaves folders alone. */
  function Removed(disk: Disk, note: RelPath): Disk {
    if IsFolder(disk, note) then disk else disk - {Installed(note)}
  }

  ghost predicate Fails(m: Machine, n: Machine, code: nat) {
    n.pc == m.pc && n.status == Exited(code) && (n.disk == m.disk || n.disk == Noted(m.disk, FAILED))
  }

  /** A copy grows its target piece by piece. */
  ghost predicate CopyEffect(name: RelPath, m: Machine, n: Machine)
    requires name != []
  {
    var to := Installed(CopyTarget(m.disk, name));
    && IsFile(m.disk, Staged(name)) && CanCopy(m.disk, name)
    && (|| (IsFile(n.disk, to) && n == m.(disk := m.disk[to := n.disk[to]]))
        || n == m.(disk := m.disk[to := m.disk[Staged(name)]], pc := m.pc + 1))
  }

  /** A move renames its temporary, be it a file or a folder. */
  ghost predicate MoveEffect(name: RelPath, m: Machine, n: Machine)
    requires name != []
  {
    var temp, to := TempOf(name), MoveTarget(m.disk, name);
    && n == m.(disk := n.disk, pc := m.pc + 1)
    && (|| (&& IsFile(m.disk, Installed(temp)) && !IsFolder(m.disk, to)
            && n.disk == (m.disk - {Installed(temp)})[Installed(to) := m.disk[Installed(temp)]])
        || (IsFolder(m.disk, temp) && Vacant(m.disk, to) && n.disk == Relocated(m.disk, temp, to)))
  }

  /** One observable change a command can make. */
  ghost predicate Effect(c: Command, m: Machine, n: Machine) {
    match c
    case Copy(name) => name != [] && (CopyEffect(name, m, n) || Fails(m, n, 5))
    case Move(name) => name != [] && (MoveEffect(name, m, n) || Fails(m, n, 6))
    case Chmod => n == m.(pc := m.pc + 1)
    case RemoveJournal => n == m.(pc := m.pc + 1) || n == m.(disk := m.disk - {Journal}, pc := m.pc + 1)
    case HandOff =>
      || n == m.(pc := m.pc + 1)   // no launcher is waiting
      || (IsFile(m.disk, Installed(PENDING)) && n == m.(disk := Noted(m.disk, SWAPPED)))
      || (IsFile(m.disk, Installed(PENDING)) && n == m.(status := Exited(0)))
    case ClearVerdicts =>
      n == m.(pc := m.pc + 1) || n == m.(disk := Removed(Removed(m.disk, PENDING), FAILED), pc := m.pc + 1)
    case Relaunch => n == m.(status := Exited(0))
  }

  /** A step of the script, or a fresh run of it after a crash or an exit. */
  ghost predicate Next(script: seq<Command>, m: Machine, n: Machine) {
    || (m.status.Running? && m.pc < |script| && Effect(script[m.pc], m, n))
    || n == m.(pc := 0, status := Running)
  }

  ghost predicate Trace(script: seq<Command>, ms: seq<Machine>) {
    |ms| > 0 && forall i :: 0 <= i < |ms| - 1 ==> Next(script, ms[i], ms[i + 1])
  }

  ghost predicate Distinct(names: seq<RelPath>) {
    forall i, j :: 0 <= i < j < |names| ==> names[i] != names[j]
  }

  ghost predicate Names(names: seq<RelPath>) {
    Distinct(names) && forall k :: 0 <= k < |names| ==> names[k] != []
  }

  /**
   The installed folders: a tree below the executable directory. No file to install is one
   of them, for the journal refuses to replace a folder; nor is the pending note.
   */
  ghost predicate Layout(names: seq<RelPath>, folders: set<RelPath>) {
    && [] in folders && (forall rel :: rel in folders && rel != [] ==> Parent(rel) in folders)
    && PENDING !in folders && forall k :: 0 <= k < |names| ==> names[k] !in folders
  }

  ghost predicate HasFolders(disk: Disk, folders: set<RelPath>) {
    forall rel :: IsFolder(disk, rel) <==> rel in folders
  }

  /** The disk when the helper is first started. */
  ghost predicate Prepared(names: seq<RelPath>, folders: set<RelPath>, disk: Disk) {
    && HasFolders(disk, folders) && (forall rel :: Installed(rel) in disk && rel != [] ==> Parent(rel) in folders)
    && IsFile(disk, Journal) && !IsFile(disk, Installed(SWAPPED))
    && forall k :: 0 <= k < |names| ==> IsFile(disk, Staged(names[k]))
  }

  /** A history of the script from its first start; the last machine is where it was looked at. */
  ghost predicate FromStart(names: seq<RelPath>, folders: set<RelPath>, ms: seq<Machine>) {
    Trace(Script(names), ms) && Prepared(names, folders, ms[0].disk) && ms[0].pc == 0 && ms[0].status == Running
  }

  ghost predicate Replaced(names: seq<RelPath>, disk0: Disk, disk: Disk, k: nat)
    requires k < |names|
  {
    At(disk, Installed(names[k])) == At(disk0, Staged(names[k]))
  }

  ghost predicate AllReplaced(names: seq<RelPath>, disk0: Disk, disk: Disk) {
    forall k :: 0 <= k < |names| ==> Replaced(names, disk0, disk, k)
  }

  /** Every destination is complete: all of the old file or all of the new one. */
  ghost predicate OldOrNew(names: seq<RelPath>, disk0: Disk, disk: Disk) {
    forall k :: 0 <= k < |names| ==>
      Replaced(names, disk0, disk, k) || At(disk, Installed(names[k])) == At(disk0, Installed(names[k]))
  }

  /** A file that shows its new contents was replaced after all the files before it. */
  ghost predicate ReplacedInOrder(names: seq<RelPath>, disk0: Disk, disk: Disk) {
    forall k, j :: 0 <= j < k < |names| && Replaced(names, disk0, disk, k)
                   && At(disk0, Installed(names[k])) != At(disk0, Staged(names[k]))
                   ==> Replaced(names, disk0, disk, j)
  }

  predicate Note(rel: RelPath) { rel == PENDING || rel == SWAPPED || rel == FAILED }

  // ----- when it is safe -----

  /** A copy of this name gets through: into its folder, or into the folder that stands where its temporary should. */
  predicate Copyable(name: RelPath, folders: set<RelPath>) {
    name != [] && Parent(name) in folders && !(TempOf(name) in folders && TempOf(name) + [Last(name)] in folders)
  }

  /** The number of leading names whose copies get through; the script never gets further than the next one. */
  ghost function Reached(names: seq<RelPath>, folders: set<RelPath>): (r: nat)
    ensures r <= |names| && (r < |names| ==> !Copyable(names[r], folders))
    ensures forall k :: 0 <= k < r ==> Copyable(names[k], folders)
  {
    if names == [] || !Copyable(names[0], folders) then 0 else 1 + Reached(names[1..], folders)
  }

  /** The temporary of names[i] is a path of its own: neither another file of the release nor a folder. */
  ghost predicate OwnTemp(names: seq<RelPath>, folders: set<RelPath>, i: nat)
    requires i < |names|
  {
    names[i] != [] && TempOf(names[i]) !in names && TempOf(names[i]) !in folders
  }

  /** The names the script gets to have temporaries of their own, and it writes no note over a file of the release. */
  ghost predicate Apart(names: seq<RelPath>, folders: set<RelPath>) {
    var r := Reached(names, folders);
    && (forall i :: 0 <= i < r ==> OwnTemp(names, folders, i))
    && FAILED !in names && SWAPPED !in names[..r] && (r == |names| ==> PENDING !in names)
  }

  /** The files, temporaries, journal and notes themselves. */
  ghost predicate Named(names: seq<RelPath>, p: Path) {
    || p == Journal || (p.Installed? && Note(p.rel))
    || exists k :: 0 <= k < |names| && names[k] != [] && (p == Installed(names[k]) || p == Installed(TempOf(names[k])))
  }

  ghost predicate Progress(names: seq<RelPath>, folders: set<RelPath>, disk0: Disk, m: Machine)
    requires Names(names)
  {
    var r := Reached(names, folders);
    && (r < |names| ==> m.status != Exited(0) && Journal in m.disk && !IsFile(m.disk, Installed(SWAPPED)))
    && (m.status.Running? && r < |names| ==> m.pc <= 2 * r)
    && (m.status.Running? ==> forall k :: 0 <= k < |names| && 2 * k + 1 < m.pc ==> Replaced(names, disk0, m.disk, k))
    && (m.status.Running? ==> forall k :: 0 <= k < |names| && 2 * k + 1 == m.pc ==>
          At(m.disk, Installed(TempOf(names[k]))) == At(disk0, Staged(names[k])))
  }

  ghost predicate Consistent(names: seq<RelPath>, folders: set<RelPath>, disk0: Disk, m: Machine)
    requires Names(names)
  {
    && HasFolders(m.disk, folders)
    && (forall p :: !Named(names, p) ==> At(m.disk, p) == At(disk0, p))
    && (forall k :: Reached(names, folders) <= k < |names| ==>
          At(m.disk, Installed(names[k])) == At(disk0, Installed(names[k])))
    && OldOrNew(names, disk0, m.disk)
    && ReplacedInOrder(names, disk0, m.disk)
    && Progress(names, folders, disk0, m)
    && (Journal !in m.disk || IsFile(m.disk, Installed(SWAPPED)) || m.status == Exited(0) ==> AllReplaced(names, disk0, m.disk))
  }

  /** A temporary is never a note. */
  lemma TempIsNoNote(rel: RelPath)
    requires rel != []
    ensures !Note(TempOf(rel))
  {
    var last := rel[|rel| - 1] + ".new";
    assert TempOf(rel)[|rel| - 1] == last && last[|last| - 1] == 'w';
    assert PENDING[0][15] == 'g' && SWAPPED[0][14] == 'd' && FAILED[0][13] == 'd';
  }

  lemma NotesDiffer()
    ensures PENDING != SWAPPED && PENDING != FAILED && SWAPPED != FAILED
  {
    assert PENDING[0][1] == 'r' && SWAPPED[0][8] == 's' && FAILED[0][8] == 'f';
  }

  lemma SourceUntouched(names: seq<RelPath>, folders: set<RelPath>, disk0: Disk, m: Machine, k: nat)
    requires Names(names) && Consistent(names, folders, disk0, m) && k < |names|
    ensures At(m.disk, Staged(names[k])) == At(disk0, Staged(names[k]))
  {
    assert !Named(names, Staged(names[k]));
  }

  predicate SameKind(before: Disk, after: Disk, rel: RelPath) { IsFolder(before, rel) <==> IsFolder(after, rel) }

  /** Files that change where no folder is leave the folders as they are. */
  lemma FoldersKept(before: Disk, after: Disk, folders: set<RelPath>)
    requires HasFolders(before, folders)
    requires forall rel :: SameKind(before, after, rel)
    ensures HasFolders(after, folders)
  {
    forall rel ensures IsFolder(after, rel) <==> rel in folders {
      assert SameKind(before, after, rel);
      assert IsFolder(before, rel) <==> rel in folders;
    }
  }

  /** Writing a temporary, a verdict or nothing at all leaves every destination alone. */
  lemma DestinationsKept(names: seq<RelPath>, disk0: Disk, before: Disk, after: Disk)
    requires Names(names)
    requires forall k :: 0 <= k < |names| ==> At(after, Installed(names[k])) == At(before, Installed(names[k]))
    ensures forall k :: 0 <= k < |names| ==> (Replaced(names, disk0, after, k) <==> Replaced(names, disk0, before, k))
    ensures OldOrNew(names, disk0, before) ==> OldOrNew(names, disk0, after)
    ensures ReplacedInOrder(names, disk0, before) ==> ReplacedInOrder(names, disk0, after)
    ensures AllReplaced(names, disk0, before) <==> AllReplaced(names, disk0, after)
  {
    forall k | 0 <= k < |names|
      ensures Replaced(names, disk0, after, k) <==> Replaced(names, disk0, before, k)
    {
      assert At(after, Installed(names[k])) == At(before, Installed(names[k]));
    }
  }

  /** A copy step changes its temporary or the failure note, and finishes only with a whole copy. */
  ghost predicate Copied(name: RelPath, m: Machine, n: Machine)
    requires name != []
  {
    var temp := Installed(TempOf(name));
    && (forall p :: p != temp && p != Installed(FAILED) ==> At(n.disk, p) == At(m.disk, p))
    && !IsFolder(n.disk, TempOf(name)) && SameKind(m.disk, n.disk, FAILED)
    && n.status != Exited(0)
    && (n.status.Running? ==>
          n.pc == m.pc || (n.pc == m.pc + 1 && At(n.disk, temp) == At(m.disk, Staged(name))))
  }

  lemma CopyCopies(name: RelPath, m: Machine, n: Machine)
    requires m.status.Running? && name != [] && !IsFolder(m.disk, TempOf(name)) && Effect(Copy(name), m, n)
    ensures Copied(name, m, n)
  {
    TempIsNoNote(name);
  }

  /** A step that fails changes nothing but the failure note. */
  ghost predicate Failed(m: Machine, n: Machine) {
    && (forall p :: p != Installed(FAILED) ==> At(n.disk, p) == At(m.disk, p))
    && SameKind(m.disk, n.disk, FAILED)
    && n.status.Exited? && n.status.code != 0
  }

  lemma FailedConsistent(names: seq<RelPath>, folders: set<RelPath>, disk0: Disk, m: Machine, n: Machine)
    requires Names(names) && FAILED !in names && Consistent(names, folders, disk0, m) && Failed(m, n)
    ensures Consistent(names, folders, disk0, n)
  {
    FoldersKept(m.disk, n.disk, folders);
    NotesDiffer();
    assert Named(names, Installed(FAILED));
    forall k | 0 <= k < |names| ensures At(n.disk, Installed(names[k])) == At(m.disk, Installed(names[k])) {
      assert names[k] in names;
    }
    DestinationsKept(names, disk0, m.disk, n.disk);
    assert At(n.disk, Installed(SWAPPED)) == At(m.disk, Installed(SWAPPED)) && At(n.disk, Journal) == At(m.disk, Journal);
  }

  /** Beyond the names it reaches the script only fails. */
  lemma BlockedFails(names: seq<RelPath>, folders: set<RelPath>, m: Machine, n: Machine)
    requires Names(names) && HasFolders(m.disk, folders) && Reached(names, folders) < |names|
    requires m.status.Running? && Effect(Copy(names[Reached(names, folders)]), m, n)
    ensures Failed(m, n)
  {
    var name := names[Reached(names, folders)];
    assert IsFolder(m.disk, Parent(name)) <==> Parent(name) in folders;
    assert IsFolder(m.disk, TempOf(name)) <==> TempOf(name) in folders;
    assert IsFolder(m.disk, TempOf(name) + [Last(name)]) <==> TempOf(name) + [Last(name)] in folders;
    assert !CanCopy(m.disk, name);
  }

  lemma CopyConsistent(names: seq<RelPath>, folders: set<RelPath>, disk0: Disk, m: Machine, n: Machine, i: nat)
    requires Names(names) && Apart(names, folders) && Consistent(names, folders, disk0, m)
    requires i < Reached(names, folders) && m.status.Running? && m.pc == 2 * i && Copied(names[i], m, n)
    ensures Consistent(names, folders, disk0, n)
  {
    SourceUntouched(names, folders, disk0, m, i);
    var temp := Installed(TempOf(names[i]));
    assert OwnTemp(names, folders, i) && Named(names, temp) && Named(names, Installed(FAILED));
    NotesDiffer();
    TempIsNoNote(names[i]);
    assert !IsFolder(m.disk, TempOf(names[i]));
    FoldersKept(m.disk, n.disk, folders);
    forall k | 0 <= k < |names|
      ensures At(n.disk, Installed(names[k])) == At(m.disk, Installed(names[k]))
    {
      assert names[k] in names;
    }
    DestinationsKept(names, disk0, m.disk, n.disk);
    assert At(n.disk, Journal) == At(m.disk, Journal);
    assert At(n.disk, Installed(SWAPPED)) == At(m.disk, Installed(SWAPPED));
    forall k | 0 <= k < |names| && n.status.Running?
      ensures 2 * k + 1 < n.pc ==> 2 * k + 1 < m.pc
      ensures 2 * k + 1 == n.pc ==> k == i && At(n.disk, temp) == At(disk0, Staged(names[i]))
    {}
  }

  /** A move step that gets through puts its temporary in place of its destination. */
  ghost predicate MovedFile(name: RelPath, m: Machine, n: Machine)
    requires name != []
  {
    var temp, dest := Installed(TempOf(name)), Installed(name);
    && n.pc == m.pc + 1 && n.status == m.status && IsFile(m.disk, temp) && temp !in n.disk
    && At(n.disk, dest) == At(m.disk, temp)
    && forall p :: p != temp && p != dest ==> At(n.disk, p) == At(m.disk, p)
  }

  lemma TempIsLonger(name: RelPath)
    requires name != []
    ensures TempOf(name) != name && |TempOf(name)| == |name| && Parent(TempOf(name)) == Parent(name)
  {
    assert |TempOf(name)[|name| - 1]| == |name[|name| - 1]| + 4;
  }

  lemma MoveMoves(name: RelPath, m: Machine, n: Machine)
    requires m.status.Running? && name != [] && Effect(Move(name), m, n)
    requires !IsFolder(m.disk, TempOf(name)) && !IsFolder(m.disk, name)
    ensures MovedFile(name, m, n) || Failed(m, n)
  {
    TempIsLonger(name);
  }

  lemma MovedFolders(name: RelPath, m: Machine, n: Machine, folders: set<RelPath>)
    requires name != [] && MovedFile(name, m, n) && HasFolders(m.disk, folders) && !IsFolder(m.disk, name)
    ensures HasFolders(n.disk, folders)
  {
    FoldersKept(m.disk, n.disk, folders);
  }

  lemma MoveConsistent(names: seq<RelPath>, folders: set<RelPath>, disk0: Disk, m: Machine, n: Machine, i: nat)
    requires Names(names) && Layout(names, folders) && Apart(names, folders) && Consistent(names, folders, disk0, m)
    requires i < Reached(names, folders) && m.status.Running? && m.pc == 2 * i + 1 && MovedFile(names[i], m, n)
    ensures Consistent(names, folders, disk0, n)
  {
    var temp, dest := Installed(TempOf(names[i])), Installed(names[i]);
    assert OwnTemp(names, folders, i) && Named(names, temp) && Named(names, dest);
    assert names[i] in names[..Reached(names, folders)];
    TempIsNoNote(names[i]);
    MovedFolders(names[i], m, n, folders);
    assert At(n.disk, Journal) == At(m.disk, Journal) && At(n.disk, Installed(SWAPPED)) == At(m.disk, Installed(SWAPPED));
    MovedInOrder(names, folders, disk0, m, n, i);
    MoveProgress(names, folders, disk0, m, n, i);
  }

  lemma MoveProgress(names: seq<RelPath>, folders: set<RelPath>, disk0: Disk, m: Machine, n: Machine, i: nat)
    requires Names(names) && Progress(names, folders, disk0, m) && i < Reached(names, folders)
    requires m.status.Running? && m.pc == 2 * i + 1 && n.pc == m.pc + 1 && n.status == m.status
    requires At(n.disk, Journal) == At(m.disk, Journal) && At(n.disk, Installed(SWAPPED)) == At(m.disk, Installed(SWAPPED))
    requires forall k :: 0 <= k <= i ==> Replaced(names, disk0, n.disk, k)
    ensures Progress(names, folders, disk0, n)
  {}

  lemma OthersStay(names: seq<RelPath>, folders: set<RelPath>, m: Machine, n: Machine, i: nat, k: nat)
    requires Names(names) && i < |names| && k < |names| && k != i && OwnTemp(names, folders, i) && MovedFile(names[i], m, n)
    ensures At(n.disk, Installed(names[k])) == At(m.disk, Installed(names[k]))
  {
    assert names[k] in names;
    assert names[k] != names[i] by { if k < i { assert names[k] != names[i]; } else { assert names[i] != names[k]; } }
  }

  lemma MovedInOrder(names: seq<RelPath>, folders: set<RelPath>, disk0: Disk, m: Machine, n: Machine, i: nat)
    requires Names(names) && Consistent(names, folders, disk0, m)
    requires i < Reached(names, folders) && OwnTemp(names, folders, i)
    requires m.status.Running? && m.pc == 2 * i + 1 && MovedFile(names[i], m, n)
    ensures OldOrNew(names, disk0, n.disk) && ReplacedInOrder(names, disk0, n.disk)
    ensures AllReplaced(names, disk0, m.disk) ==> AllReplaced(names, disk0, n.disk)
    ensures forall k :: 0 <= k <= i ==> Replaced(names, disk0, n.disk, k)
    ensures forall k :: i < k < |names| ==> At(n.disk, Installed(names[k])) == At(m.disk, Installed(names[k]))
  {
    assert Replaced(names, disk0, n.disk, i);
    forall k | 0 <= k < |names| && k != i
      ensures At(n.disk, Installed(names[k])) == At(m.disk, Installed(names[k]))
      ensures Replaced(names, disk0, n.disk, k) <==> Replaced(names, disk0, m.disk, k)
    {
      OthersStay(names, folders, m, n, i, k);
    }
    assert forall k :: 0 <= k < i ==> 2 * k + 1 < m.pc;
  }

  /** The fixed tail is reached only with all names behind it, and writes nothing but notes. */
  lemma TailConsistent(names: seq<RelPath>, folders: set<RelPath>, disk0: Disk, m: Machine, n: Machine, c: Command)
    requires Names(names) && Apart(names, folders) && Consistent(names, folders, disk0, m)
    requires m.status.Running? && m.pc >= 2 * |names| && c in TAIL && Effect(c, m, n)
    ensures Consistent(names, folders, disk0, n)
  {
    TailKeeps(m, n, c);
    FoldersKept(m.disk, n.disk, folders);
    assert names[..|names|] == names;
    forall k | 0 <= k < |names|
      ensures 2 * k + 1 < m.pc && At(n.disk, Installed(names[k])) == At(m.disk, Installed(names[k]))
    {
      assert names[k] in names && !Note(names[k]);
    }
    DestinationsKept(names, disk0, m.disk, n.disk);
  }

  lemma TailKeeps(m: Machine, n: Machine, c: Command)
    requires c in TAIL && Effect(c, m, n)
    ensures forall p :: p != Journal && !(p.Installed? && Note(p.rel)) ==> At(n.disk, p) == At(m.disk, p)
    ensures forall rel :: SameKind(m.disk, n.disk, rel)
    ensures n.pc >= m.pc
  {}

  lemma FileStepConsistent(names: seq<RelPath>, folders: set<RelPath>, disk0: Disk, m: Machine, n: Machine, i: nat)
    requires Names(names) && Layout(names, folders) && Apart(names, folders) && Consistent(names, folders, disk0, m)
    requires i < |names| && m.status.Running?
    requires (m.pc == 2 * i && Effect(Copy(names[i]), m, n)) || (m.pc == 2 * i + 1 && Effect(Move(names[i]), m, n))
    ensures Consistent(names, folders, disk0, n)
  {
    if i >= Reached(names, folders) {
      assert i == Reached(names, folders) && m.pc == 2 * i;
      BlockedFails(names, folders, m, n);
      FailedConsistent(names, folders, disk0, m, n);
    } else {
      assert OwnTemp(names, folders, i) && !IsFolder(m.disk, TempOf(names[i])) && !IsFolder(m.disk, names[i]);
      if m.pc == 2 * i {
        CopyCopies(names[i], m, n);
        CopyConsistent(names, folders, disk0, m, n, i);
      } else {
        MoveMoves(names[i], m, n);
        if MovedFile(names[i], m, n) { MoveConsistent(names, folders, disk0, m, n, i); }
        else { FailedConsistent(names, folders, disk0, m, n); }
      }
    }
  }

  lemma FileCase(names: seq<RelPath>, folders: set<RelPath>, disk0: Disk, m: Machine, n: Machine, i: nat)
    requires Names(names) && Layout(names, folders) && Apart(names, folders) && Consistent(names, folders, disk0, m)
    requires i < |names| && m.status.Running? && 2 * i <= m.pc <= 2 * i + 1
    requires m.pc < |Script(names)| && Effect(Script(names)[m.pc], m, n)
    ensures Consistent(names, folders, disk0, n)
  {
    CommandAt(names, i);
    FileStepConsistent(names, folders, disk0, m, n, i);
  }

  lemma NextConsistent(names: seq<RelPath>, folders: set<RelPath>, disk0: Disk, m: Machine, n: Machine)
    requires Names(names) && Layout(names, folders) && Apart(names, folders)
    requires Consistent(names, folders, disk0, m) && Next(Script(names), m, n)
    ensures Consistent(names, folders, disk0, n)
  {
    if n != m.(pc := 0, status := Running) {
      if m.pc < 2 * |names| {
        FileCase(names, folders, disk0, m, n, m.pc / 2);
      } else {
        assert Script(names)[m.pc] == TAIL[m.pc - 2 * |names|];
        TailConsistent(names, folders, disk0, m, n, Script(names)[m.pc]);
      }
    }
  }

  lemma {:induction false} TraceConsistent(names: seq<RelPath>, folders: set<RelPath>, ms: seq<Machine>)
    requires Names(names) && Layout(names, folders) && Apart(names, folders)
    requires FromStart(names, folders, ms)
    ensures Consistent(names, folders, ms[0].disk, ms[|ms| - 1])
    decreases |ms|
  {
    if |ms| > 1 {
      var front := ms[..|ms| - 1];
      TraceConsistent(names, folders, front);
      assert Next(Script(names), ms[|ms| - 2], ms[|ms| - 1]);
      NextConsistent(names, folders, ms[0].disk, front[|front| - 1], ms[|ms| - 1]);
    }
  }

  /** The release ships a stamp and the installed one now reads as the new release, not as before. */
  ghost predicate StampIsNew(names: seq<RelPath>, disk0: Disk, disk: Disk) {
    && STAMP in names
    && At(disk, Installed(STAMP)) == At(disk0, Staged(STAMP)) != At(disk0, Installed(STAMP))
  }

  /** What the guarantee says of one disk: every destination whole, and no sign of success before all are new. */
  ghost predicate Kept(names: seq<RelPath>, disk0: Disk, m: Machine) {
    && OldOrNew(names, disk0, m.disk)
    && (Journal !in m.disk || IsFile(m.disk, Installed(SWAPPED)) || m.status == Exited(0) ==> AllReplaced(names, disk0, m.disk))
  }

  /**
   Wherever a run of the script stops, and however often it is started again:
   every destination is whole, the stamp is new only if everything else is, and a
   missing journal, a success verdict or a clean exit means all files are in place.
   */
  lemma CrashConsistent(names: seq<RelPath>, folders: set<RelPath>, ms: seq<Machine>)
    requires Names(names) && Layout(names, folders) && Apart(StampLast(names), folders)
    requires FromStart(StampLast(names), folders, ms)
    ensures var disk0, m := ms[0].disk, ms[|ms| - 1];
            Kept(names, disk0, m) && (StampIsNew(names, disk0, m.disk) ==> AllReplaced(names, disk0, m.disk))
  {
    var sorted := StampLast(names);
    var disk0, m := ms[0].disk, ms[|ms| - 1];
    StampLastIsStableSort(names);
    SameElements(names, sorted);
    SortedStaysDistinct(names, folders);
    TraceConsistent(sorted, folders, ms);
    SameVerdicts(names, sorted, disk0, m.disk);
    if StampIsNew(names, disk0, m.disk) { NewStampMeansAll(sorted, disk0, m.disk); }
  }

  lemma SameVerdicts(names: seq<RelPath>, sorted: seq<RelPath>, disk0: Disk, disk: Disk)
    requires forall n :: n in names <==> n in sorted
    ensures OldOrNew(sorted, disk0, disk) ==> OldOrNew(names, disk0, disk)
    ensures AllReplaced(sorted, disk0, disk) ==> AllReplaced(names, disk0, disk)
    ensures StampIsNew(names, disk0, disk) ==> StampIsNew(sorted, disk0, disk)
  {
    forall k | 0 <= k < |names|
      ensures OldOrNew(sorted, disk0, disk) ==>
                Replaced(names, disk0, disk, k) || At(disk, Installed(names[k])) == At(disk0, Installed(names[k]))
      ensures AllReplaced(sorted, disk0, disk) ==> Replaced(names, disk0, disk, k)
    {
      assert names[k] in sorted;
      var i :| 0 <= i < |sorted| && sorted[i] == names[k];
      assert Replaced(sorted, disk0, disk, i) <==> Replaced(names, disk0, disk, k);
    }
  }

  lemma NewStampMeansAll(sorted: seq<RelPath>, disk0: Disk, disk: Disk)
    requires Distinct(sorted) && InOrder(sorted) && ReplacedInOrder(sorted, disk0, disk)
    requires StampIsNew(sorted, disk0, disk)
    ensures AllReplaced(sorted, disk0, disk)
  {
    var s :| 0 <= s < |sorted| && sorted[s] == STAMP;
    assert Replaced(sorted, disk0, disk, s);
    StampIsLast(sorted, s);
  }

  lemma StampIsLast(sorted: seq<RelPath>, s: nat)
    requires Distinct(sorted) && InOrder(sorted) && s < |sorted| && sorted[s] == STAMP
    ensures s == |sorted| - 1
  {
    var last := |sorted| - 1;
    assert s < last ==> Before(sorted[last], sorted[s]);
  }

  lemma SameElements(a: seq<RelPath>, b: seq<RelPath>)
    requires multiset(a) == multiset(b)
    ensures forall n :: n in a <==> n in b
  {
    forall n ensures n in a <==> n in b {
      assert n in a <==> n in multiset(a);
      assert n in b <==> n in multiset(b);
    }
  }

  lemma {:induction false} OnlyDistinct(names: seq<RelPath>, stamp: bool)
    requires Distinct(names)
    ensures Distinct(Only(names, stamp))
  {
    if names != [] {
      var front, last := names[..|names| - 1], names[|names| - 1];
      OnlyDistinct(front, stamp);
      OnlyElements(front, stamp);
      forall i | 0 <= i < |Only(front, stamp)| ensures Only(front, stamp)[i] != last {
        assert Only(front, stamp)[i] in front;
        var j :| 0 <= j < |front| && front[j] == Only(front, stamp)[i];
        assert names[j] != names[|names| - 1];
      }
    }
  }

  lemma SortedStaysDistinct(names: seq<RelPath>, folders: set<RelPath>)
    requires Names(names) && Layout(names, folders)
    ensures Names(StampLast(names)) && Layout(StampLast(names), folders)
  {
    var sorted := StampLast(names);
    OnlyDistinct(names, false);
    OnlyDistinct(names, true);
    OnlyElements(names, false);
    OnlyElements(names, true);
    var plain, stamps := Only(names, false), Only(names, true);
    forall i, j | 0 <= i < j < |sorted| ensures sorted[i] != sorted[j] {
      if i < |plain| <= j {
        assert plain[i] in plain && stamps[j - |plain|] in stamps;
      }
    }
    StampLastIsStableSort(names);
    SameElements(names, sorted);
    forall i | 0 <= i < |sorted| ensures sorted[i] != [] && sorted[i] !in folders {
      assert sorted[i] in names;
    }
  }

  lemma TempNotPreserved(rel: RelPath)
    requires rel != [] && !IsPreserved(rel)
    ensures !IsPreserved(TempOf(rel))
  {
    if |rel| == 1 {
      var first := rel[0] + ".new";
      assert TempOf(rel)[0] == first;
      assert Lower(first)[|first| - 1] == 'w';
      assert "required"[|"required"| - 1] == 'd';
    } else {
      assert TempOf(rel)[0] == rel[0];
    }
  }

  // ----- what the script never writes, whatever the names and the folders are -----

  /** At or below a file of the release or its temporary, or the journal or a note. */
  ghost predicate Touched(names: seq<RelPath>, p: Path) {
    || p == Journal || (p.Installed? && Note(p.rel))
    || exists k :: 0 <= k < |names| && names[k] != [] && (Under(names[k], p) || Under(TempOf(names[k]), p))
  }

  lemma FileStepWritesOnly(names: seq<RelPath>, m: Machine, n: Machine, i: nat, p: Path)
    requires i < |names| && (Effect(Copy(names[i]), m, n) || Effect(Move(names[i]), m, n))
    requires !Touched(names, p)
    ensures At(n.disk, p) == At(m.disk, p)
  {
    var name := names[i];
    assert !Under(name, p) && !Under(TempOf(name), p) && p != Installed(FAILED);
    assert Under(TempOf(name), Installed(CopyTarget(m.disk, name))) && Under(name, Installed(MoveTarget(m.disk, name)));
    if Effect(Move(name), m, n) && IsFolder(m.disk, TempOf(name)) {
      RelocatedAt(m.disk, TempOf(name), MoveTarget(m.disk, name), p);
    }
  }

  lemma StepWritesOnlyRelease(names: seq<RelPath>, m: Machine, n: Machine, p: Path)
    requires Next(Script(names), m, n) && !Touched(names, p)
    ensures At(n.disk, p) == At(m.disk, p)
  {
    if n != m.(pc := 0, status := Running) {
      if m.pc < 2 * |names| {
        CommandAt(names, m.pc / 2);
        FileStepWritesOnly(names, m, n, m.pc / 2, p);
      } else {
        assert Script(names)[m.pc] == TAIL[m.pc - 2 * |names|];
        TailKeeps(m, n, Script(names)[m.pc]);
      }
    }
  }

  /**
   No run of a script, whatever its names and whatever is installed, changes a path that is
   neither at nor below a name of the release or its temporary, nor the journal or a note.
   */
  lemma {:induction false} WritesOnlyRelease(names: seq<RelPath>, ms: seq<Machine>, p: Path)
    requires Trace(Script(names), ms) && !Touched(names, p)
    ensures At(ms[|ms| - 1].disk, p) == At(ms[0].disk, p)
    decreases |ms|
  {
    if |ms| > 1 {
      var n := |ms| - 1;
      assert Next(Script(names), ms[n - 1], ms[n]);
      StepWritesOnlyRelease(names, ms[n - 1], ms[n], p);
      WritesOnlyRelease(names, ms[..n], p);
    }
  }

  lemma CommandKinds(names: seq<RelPath>, pc: nat)
    requires pc < |Script(names)|
    ensures Script(names)[pc].Copy? <==> pc < 2 * |names| && pc % 2 == 0
    ensures Script(names)[pc].Move? <==> pc < 2 * |names| && pc % 2 == 1
    ensures Script(names)[pc] in {HandOff, Relaunch} ==> pc >= 2 * |names| + 2
  {
    ScriptIs(names, pc / 2);
    if pc >= 2 * |names| { assert Script(names)[pc] == Script(names)[2 * |names|..][pc - 2 * |names|]; }
  }

  /** Where the helper may stop of itself, and with what code. */
  ghost predicate StoppedWell(n: nat, m: Machine) {
    match m.status
    case Running => true
    case Exited(code) =>
      || (code == 5 && m.pc < 2 * n && m.pc % 2 == 0)
      || (code == 6 && m.pc < 2 * n && m.pc % 2 == 1)
      || (code == 0 && m.pc >= 2 * n + 2)
  }

  /**
   The helper exits with 5 while it is copying and with 6 while it is renaming, and
   cleanly only after the line that removes the journal, whatever came before.
   */
  lemma {:induction false} ExitsTell(names: seq<RelPath>, folders: set<RelPath>, ms: seq<Machine>)
    requires FromStart(names, folders, ms)
    ensures StoppedWell(|names|, ms[|ms| - 1])
  {
    if |ms| > 1 {
      var front := ms[..|ms| - 1];
      var m, n := ms[|ms| - 2], ms[|ms| - 1];
      assert Trace(Script(names), front) && FromStart(names, folders, front);
      ExitsTell(names, folders, front);
      assert Next(Script(names), ms[|ms| - 2], ms[|ms| - 2 + 1]);
      if m.status.Running? && m.pc < |Script(names)| { CommandKinds(names, m.pc); }
    }
  }

  /** Where the guarantee holds, only the files, the temporaries, the journal and the notes themselves change. */
  lemma WritesOnlyItsFiles(names: seq<RelPath>, folders: set<RelPath>, ms: seq<Machine>, p: Path)
    requires Names(names) && Layout(names, folders) && Apart(names, folders)
    requires FromStart(names, folders, ms) && !Named(names, p)
    ensures At(ms[|ms| - 1].disk, p) == At(ms[0].disk, p)
  {
    TraceConsistent(names, folders, ms);
  }

  lemma NotAbovePreserved(rel: RelPath, p: RelPath)
    requires rel != [] && !IsPreserved(rel) && IsPreserved(p)
    ensures !(rel <= p)
  {}

  /** Helper tools under required/ are never written, for any list that leaves them out. */
  lemma PreservedToolsUntouched(names: seq<RelPath>, ms: seq<Machine>, p: RelPath)
    requires forall k :: 0 <= k < |names| ==> names[k] != [] && Lower(names[k][0]) != "required"
    requires Trace(Script(names), ms) && p != [] && Lower(p[0]) == "required"
    ensures At(ms[|ms| - 1].disk, Installed(p)) == At(ms[0].disk, Installed(p))
  {
    forall k | 0 <= k < |names| ensures !(TempOf(names[k]) <= p) && !(names[k] <= p) {
      TempNotPreserved(names[k]);
      NotAbovePreserved(names[k], p);
      NotAbovePreserved(TempOf(names[k]), p);
    }
    NotesNotPreserved();
    WritesOnlyRelease(names, ms, Installed(p));
  }

  lemma NotesNotPreserved()
    ensures !IsPreserved(PENDING) && !IsPreserved(SWAPPED) && !IsPreserved(FAILED)
  {
    assert "required"[0] == 'r';
    assert Lower(PENDING[0])[0] == LowerChar(PENDING[0][0]) == '.';
    assert Lower(SWAPPED[0])[0] == LowerChar(SWAPPED[0][0]) == '.';
    assert Lower(FAILED[0])[0] == LowerChar(FAILED[0][0]) == '.';
  }

  // ----- undisturbed runs -----

  ghost predicate Shaped(disk: Disk, folders: set<RelPath>) {
    forall rel :: Installed(rel) in disk && rel != [] ==> Parent(rel) in folders
  }

  /** The folders, the staged files and a pending note are as they were. */
  ghost predicate Orderly(folders: set<RelPath>, disk0: Disk, base: Disk, disk: Disk) {
    && HasFolders(disk, folders) && (Shaped(base, folders) ==> Shaped(disk, folders))
    && (forall rel :: At(disk, Staged(rel)) == At(disk0, Staged(rel)))
    && (IsFile(base, Installed(PENDING)) ==> IsFile(disk, Installed(PENDING)))
  }

  /** Undisturbed since the disk was `base`: what is behind is replaced, what is ahead is as it was. */
  ghost predicate Smooth(names: seq<RelPath>, folders: set<RelPath>, disk0: Disk, base: Disk, m: Machine) {
    && m.status.Running? && Orderly(folders, disk0, base, m.disk)
    && (forall k :: 0 <= k < |names| && 2 * k + 1 < m.pc ==> Replaced(names, disk0, m.disk, k))
    && (forall k :: 0 <= k < |names| && m.pc <= 2 * k + 1 ==>
          At(m.disk, Installed(names[k])) == At(base, Installed(names[k])))
    && (forall k :: 0 <= k < |names| && m.pc == 2 * k + 1 ==>
          names[k] != [] && At(m.disk, Installed(TempOf(names[k]))) == At(disk0, Staged(names[k])))
  }

  lemma OrderlyWrite(folders: set<RelPath>, disk0: Disk, base: Disk, disk: Disk, rel: RelPath, c: Content)
    requires Orderly(folders, disk0, base, disk) && rel != [] && rel !in folders && Parent(rel) in folders
    ensures Orderly(folders, disk0, base, disk[Installed(rel) := File(c)])
  {
    FoldersKept(disk, disk[Installed(rel) := File(c)], folders);
  }

  lemma OrderlyRemoval(folders: set<RelPath>, disk0: Disk, base: Disk, disk: Disk, rel: RelPath)
    requires Orderly(folders, disk0, base, disk) && rel !in folders && rel != PENDING
    ensures Orderly(folders, disk0, base, disk - {Installed(rel)})
  {
    FoldersKept(disk, disk - {Installed(rel)}, folders);
  }

  /** The copy and the move of this name can go through undisturbed. */
  ghost predicate Clear(names: seq<RelPath>, folders: set<RelPath>, i: nat)
    requires i < |names|
  {
    Copyable(names[i], folders) && OwnTemp(names, folders, i)
  }

  lemma SmoothCopy(names: seq<RelPath>, folders: set<RelPath>, disk0: Disk, base: Disk, m: Machine, i: nat) returns (n: Machine)
    requires Names(names) && Layout(names, folders) && i < |names| && Clear(names, folders, i)
    requires IsFile(disk0, Staged(names[i])) && m.pc == 2 * i && Smooth(names, folders, disk0, base, m)
    ensures Effect(Copy(names[i]), m, n) && n.pc == m.pc + 1 && Smooth(names, folders, disk0, base, n)
  {
    var temp := TempOf(names[i]);
    assert At(m.disk, Staged(names[i])) == At(disk0, Staged(names[i]));
    TempIsLonger(names[i]);
    n := FileCopy(names, folders, m, i);
    OrderlyWrite(folders, disk0, base, m.disk, temp, m.disk[Staged(names[i])].content);
    forall k | 0 <= k < |names| ensures At(n.disk, Installed(names[k])) == At(m.disk, Installed(names[k])) {
      assert names[k] in names;
    }
    SmoothFiles(names, folders, disk0, base, m, n, i);
  }

  /** A finished copy leaves the files as they were. */
  lemma SmoothFiles(names: seq<RelPath>, folders: set<RelPath>, disk0: Disk, base: Disk, m: Machine, n: Machine, i: nat)
    requires i < |names| && names[i] != [] && m.pc == 2 * i && n.pc == 2 * i + 1 && n.status.Running?
    requires Smooth(names, folders, disk0, base, m) && Orderly(folders, disk0, base, n.disk)
    requires forall k :: 0 <= k < |names| ==> At(n.disk, Installed(names[k])) == At(m.disk, Installed(names[k]))
    requires At(n.disk, Installed(TempOf(names[i]))) == At(disk0, Staged(names[i]))
    ensures Smooth(names, folders, disk0, base, n)
  {
    forall k | 0 <= k < i ensures Replaced(names, disk0, n.disk, k) {
      assert Replaced(names, disk0, m.disk, k);
    }
  }

  lemma SmoothMove(names: seq<RelPath>, folders: set<RelPath>, disk0: Disk, base: Disk, m: Machine, i: nat) returns (n: Machine)
    requires Names(names) && Layout(names, folders) && i < |names| && Clear(names, folders, i)
    requires IsFile(disk0, Staged(names[i])) && m.pc == 2 * i + 1 && Smooth(names, folders, disk0, base, m)
    ensures Effect(Move(names[i]), m, n) && n.pc == m.pc + 1 && Smooth(names, folders, disk0, base, n)
  {
    n := FileMove(names[i], m);
    OrderlyMove(folders, disk0, base, m, n, names[i]);
    SmoothMoved(names, folders, disk0, base, m, n, i);
  }

  /** The successful move of a temporary that is a file. */
  lemma FileMove(name: RelPath, m: Machine) returns (n: Machine)
    requires name != [] && IsFile(m.disk, Installed(TempOf(name))) && !IsFolder(m.disk, name)
    ensures MoveEffect(name, m, n) && MovedFile(name, m, n)
    ensures n.disk == (m.disk - {Installed(TempOf(name))})[Installed(name) := m.disk[Installed(TempOf(name))]]
  {
    TempIsLonger(name);
    var temp := Installed(TempOf(name));
    n := m.(disk := (m.disk - {temp})[Installed(name) := m.disk[temp]], pc := m.pc + 1);
  }

  lemma OrderlyMove(folders: set<RelPath>, disk0: Disk, base: Disk, m: Machine, n: Machine, name: RelPath)
    requires name != [] && Orderly(folders, disk0, base, m.disk) && IsFile(m.disk, Installed(TempOf(name)))
    requires name !in folders && TempOf(name) !in folders && Parent(name) in folders
    requires n.disk == (m.disk - {Installed(TempOf(name))})[Installed(name) := m.disk[Installed(TempOf(name))]]
    ensures Orderly(folders, disk0, base, n.disk)
  {
    TempIsNoNote(name);
    OrderlyRemoval(folders, disk0, base, m.disk, TempOf(name));
    OrderlyWrite(folders, disk0, base, m.disk - {Installed(TempOf(name))}, name, m.disk[Installed(TempOf(name))].content);
  }

  lemma SmoothMoved(names: seq<RelPath>, folders: set<RelPath>, disk0: Disk, base: Disk, m: Machine, n: Machine, i: nat)
    requires Names(names) && i < |names| && OwnTemp(names, folders, i) && MovedFile(names[i], m, n)
    requires m.pc == 2 * i + 1 && Smooth(names, folders, disk0, base, m) && Orderly(folders, disk0, base, n.disk)
    ensures Smooth(names, folders, disk0, base, n)
  {
    forall k | 0 <= k < |names| && k != i ensures At(n.disk, Installed(names[k])) == At(m.disk, Installed(names[k])) {
      OthersStay(names, folders, m, n, i, k);
    }
    forall k | 0 <= k < |names| && 2 * k + 1 < n.pc ensures Replaced(names, disk0, n.disk, k) {
      if k < i { assert Replaced(names, disk0, m.disk, k); }
    }
  }

  lemma SmoothStep(names: seq<RelPath>, folders: set<RelPath>, disk0: Disk, base: Disk, m: Machine) returns (n: Machine)
    requires Names(names) && Layout(names, folders) && m.pc < 2 * |names| && Clear(names, folders, m.pc / 2)
    requires IsFile(disk0, Staged(names[m.pc / 2])) && Smooth(names, folders, disk0, base, m)
    ensures Next(Script(names), m, n) && n.pc == m.pc + 1 && Smooth(names, folders, disk0, base, n)
  {
    var i := m.pc / 2;
    CommandAt(names, i);
    if m.pc == 2 * i {
      n := SmoothCopy(names, folders, disk0, base, m, i);
    } else {
      n := SmoothMove(names, folders, disk0, base, m, i);
    }
  }

  /** The undisturbed run of the first c commands of the file section, from a fresh start at m. */
  lemma {:induction false} SmoothRun(names: seq<RelPath>, folders: set<RelPath>, disk0: Disk, m: Machine, c: nat)
    returns (ms: seq<Machine>)
    requires Names(names) && Layout(names, folders) && c <= 2 * |names|
    requires forall i :: 0 <= i < |names| && 2 * i < c ==> Clear(names, folders, i) && IsFile(disk0, Staged(names[i]))
    requires m.pc == 0 && Smooth(names, folders, disk0, m.disk, m)
    ensures Trace(Script(names), ms) && ms[0] == m
    ensures ms[|ms| - 1].pc == c && Smooth(names, folders, disk0, m.disk, ms[|ms| - 1])
  {
    if c == 0 {
      ms := [m];
    } else {
      var front := SmoothRun(names, folders, disk0, m, c - 1);
      assert 2 * ((c - 1) / 2) < c;
      var n := SmoothStep(names, folders, disk0, m.disk, front[|front| - 1]);
      ms := front + [n];
    }
  }

  lemma JoinTraces(script: seq<Command>, a: seq<Machine>, b: seq<Machine>)
    requires Trace(script, a) && Trace(script, b) && Next(script, a[|a| - 1], b[0])
    ensures Trace(script, a + b)
  {
    var all := a + b;
    forall i | 0 <= i < |all| - 1 ensures Next(script, all[i], all[i + 1]) {
      if i < |a| - 1 { assert all[i] == a[i] && all[i + 1] == a[i + 1]; }
      else if i >= |a| { assert all[i] == b[i - |a|] && all[i + 1] == b[i + 1 - |a|]; }
    }
  }

  lemma TailCommands(names: seq<RelPath>)
    ensures var script, n := Script(names), 2 * |names|;
            && |script| == n + 5 && script[n] == Chmod && script[n + 1] == RemoveJournal && script[n + 2] == HandOff
            && script[n + 3] == ClearVerdicts && script[n + 4] == Relaunch
  {}

  /** The rest of an undisturbed run: the journal goes, nobody is waiting, and the new build is started. */
  lemma TailRun(names: seq<RelPath>, a: Machine) returns (ms: seq<Machine>)
    requires a.status.Running? && a.pc == 2 * |names|
    ensures Trace(Script(names), ms) && ms[0] == a
    ensures ms[|ms| - 1] == Machine(a.disk - {Journal}, a.pc + 4, Exited(0))
  {
    TailCommands(names);
    var b := a.(pc := a.pc + 1);
    var c := b.(disk := b.disk - {Journal}, pc := b.pc + 1);
    var d := c.(pc := c.pc + 1);
    var e := d.(pc := d.pc + 1);
    ms := [a, b, c, d, e, e.(status := Exited(0))];
  }

  // ----- when starting again can finish the job -----

  /** Every file has its folder, and no folder stands where a temporary should. */
  ghost predicate Roomy(names: seq<RelPath>, folders: set<RelPath>) {
    forall k :: 0 <= k < |names| ==> names[k] != [] && Parent(names[k]) in folders && TempOf(names[k]) !in folders
  }

  /** No name is another one's temporary or a note. */
  ghost predicate PlainNames(names: seq<RelPath>) {
    forall k :: 0 <= k < |names| ==> names[k] != [] && TempOf(names[k]) !in names && !Note(names[k])
  }

  ghost predicate Done(names: seq<RelPath>, disk0: Disk, m: Machine) {
    m.status == Exited(0) && AllReplaced(names, disk0, m.disk) && Journal !in m.disk
  }

  /** Whatever happened so far, the helper can still finish. */
  ghost predicate AlwaysCompletable(names: seq<RelPath>, folders: set<RelPath>) {
    forall ms: seq<Machine> :: FromStart(names, folders, ms) ==> Completable(names, folders, ms)
  }

  ghost predicate Completable(names: seq<RelPath>, folders: set<RelPath>, ms: seq<Machine>)
    requires |ms| > 0
  {
    exists more: seq<Machine> :: FromStart(names, folders, ms + more) && Done(names, ms[0].disk, (ms + more)[|ms + more| - 1])
  }

  lemma RoomyIsApart(names: seq<RelPath>, folders: set<RelPath>)
    requires Names(names) && Roomy(names, folders) && PlainNames(names)
    ensures Reached(names, folders) == |names| && Apart(names, folders)
    ensures forall i :: 0 <= i < |names| ==> Clear(names, folders, i)
  {
    assert names[..|names|] == names;
  }

  /** However a run was cut short, starting the helper again can finish the job, given room. */
  lemma RerunCompletes(names: seq<RelPath>, folders: set<RelPath>, ms: seq<Machine>) returns (more: seq<Machine>)
    requires Names(names) && Layout(names, folders) && PlainNames(names) && Roomy(names, folders)
    requires FromStart(names, folders, ms)
    ensures FromStart(names, folders, ms + more) && |more| > 0 && Done(names, ms[0].disk, more[|more| - 1])
  {
    RoomyIsApart(names, folders);
    var disk0, m := ms[0].disk, ms[|ms| - 1];
    var again := m.(pc := 0, status := Running);
    SmoothAgain(names, folders, ms, again);
    var swap := SmoothRun(names, folders, disk0, again, 2 * |names|);
    var tail := TailRun(names, swap[|swap| - 1]);
    more := swap + tail[1..];
    TailOf(Script(names), swap, tail);
    DoneAtLast(names, disk0, swap[|swap| - 1], tail[|tail| - 1]);
    JoinTraces(Script(names), ms, more);
  }

  lemma DoneAtLast(names: seq<RelPath>, disk0: Disk, a: Machine, end: Machine)
    requires forall k :: 0 <= k < |names| ==> Replaced(names, disk0, a.disk, k)
    requires end == Machine(a.disk - {Journal}, end.pc, Exited(0))
    ensures Done(names, disk0, end)
  {
    forall k | 0 <= k < |names| ensures Replaced(names, disk0, end.disk, k) { assert Replaced(names, disk0, a.disk, k); }
  }

  lemma SmoothAgain(names: seq<RelPath>, folders: set<RelPath>, ms: seq<Machine>, again: Machine)
    requires Names(names) && Layout(names, folders) && Apart(names, folders) && FromStart(names, folders, ms)
    requires again == ms[|ms| - 1].(pc := 0, status := Running)
    ensures Smooth(names, folders, ms[0].disk, again.disk, again)
  {
    TraceConsistent(names, folders, ms);
    forall rel ensures At(again.disk, Staged(rel)) == At(ms[0].disk, Staged(rel)) { assert !Named(names, Staged(rel)); }
  }

  lemma TailOf(script: seq<Command>, swap: seq<Machine>, tail: seq<Machine>)
    requires Trace(script, swap) && Trace(script, tail) && |tail| > 1 && swap[|swap| - 1] == tail[0]
    ensures Trace(script, swap + tail[1..])
  {
    var rest := tail[1..];
    forall i | 0 <= i < |rest| - 1 ensures Next(script, rest[i], rest[i + 1]) {
      assert rest[i] == tail[i + 1] && rest[i + 1] == tail[i + 2];
    }
    assert Next(script, tail[0], tail[1]);
    JoinTraces(script, swap, rest);
  }

  /** The first name without room keeps the script from its end for ever. */
  ghost predicate Stuck(names: seq<RelPath>, folders: set<RelPath>, b: nat, m: Machine)
    requires b < |names| && names[b] != []
  {
    && HasFolders(m.disk, folders) && m.status != Exited(0) && (m.status.Running? ==> m.pc <= 2 * b + 1)
    && (Parent(names[b]) !in folders && m.status.Running? ==> m.pc <= 2 * b)
    && (TempOf(names[b]) in folders ==> IsFile(m.disk, Installed(names[b])))
  }

  ghost predicate FirstCramped(names: seq<RelPath>, folders: set<RelPath>, b: nat) {
    && b < |names| && names[b] != [] && (Parent(names[b]) !in folders || TempOf(names[b]) in folders)
    && forall a :: 0 <= a < b ==> names[a] != [] && TempOf(names[a]) !in folders
  }

  lemma StuckCopy(names: seq<RelPath>, folders: set<RelPath>, b: nat, m: Machine, n: Machine, i: nat)
    requires Names(names) && Layout(names, folders) && PlainNames(names) && FirstCramped(names, folders, b)
    requires i <= b && Stuck(names, folders, b, m) && m.status.Running? && m.pc == 2 * i && Effect(Copy(names[i]), m, n)
    ensures Stuck(names, folders, b, n)
  {
    assert names[b] in names && names[i] in names;
    assert IsFolder(m.disk, Parent(names[i])) <==> Parent(names[i]) in folders;
    TempIsLonger(names[i]);
    TempIsNoNote(names[i]);
    FoldersKept(m.disk, n.disk, folders);
  }

  lemma StuckBefore(names: seq<RelPath>, folders: set<RelPath>, b: nat, m: Machine, n: Machine, i: nat)
    requires Names(names) && Layout(names, folders) && PlainNames(names) && FirstCramped(names, folders, b)
    requires i < b && Stuck(names, folders, b, m) && m.status.Running? && m.pc == 2 * i + 1 && Effect(Move(names[i]), m, n)
    ensures Stuck(names, folders, b, n)
  {
    assert names[b] in names && names[i] != names[b];
    assert !IsFolder(m.disk, names[i]) && !IsFolder(m.disk, TempOf(names[i]));
    MoveMoves(names[i], m, n);
    if MovedFile(names[i], m, n) { MovedFolders(names[i], m, n, folders); } else { FoldersKept(m.disk, n.disk, folders); }
    assert Installed(names[b]) != Installed(TempOf(names[i])) && Installed(names[b]) != Installed(FAILED);
    assert At(n.disk, Installed(names[b])) == At(m.disk, Installed(names[b]));
  }

  /** A folder cannot be renamed to a file. */
  lemma StuckThere(names: seq<RelPath>, folders: set<RelPath>, b: nat, m: Machine, n: Machine)
    requires Names(names) && Layout(names, folders) && PlainNames(names) && FirstCramped(names, folders, b)
    requires Stuck(names, folders, b, m) && m.status.Running? && m.pc == 2 * b + 1 && Effect(Move(names[b]), m, n)
    ensures Stuck(names, folders, b, n)
  {
    assert IsFolder(m.disk, TempOf(names[b])) && !IsFolder(m.disk, names[b]);
    assert Under(names[b], Installed(names[b])) && !Vacant(m.disk, names[b]);
    assert !MoveEffect(names[b], m, n);
    FoldersKept(m.disk, n.disk, folders);
  }

  lemma StuckCase(names: seq<RelPath>, folders: set<RelPath>, b: nat, m: Machine, n: Machine, i: nat)
    requires Names(names) && Layout(names, folders) && PlainNames(names) && FirstCramped(names, folders, b)
    requires Stuck(names, folders, b, m) && m.status.Running? && i <= b && 2 * i <= m.pc <= 2 * i + 1
    requires m.pc < |Script(names)| && Effect(Script(names)[m.pc], m, n)
    ensures Stuck(names, folders, b, n)
  {
    CommandAt(names, i);
    StuckStep(names, folders, b, m, n, i);
  }

  lemma StuckStep(names: seq<RelPath>, folders: set<RelPath>, b: nat, m: Machine, n: Machine, i: nat)
    requires Names(names) && Layout(names, folders) && PlainNames(names) && FirstCramped(names, folders, b)
    requires Stuck(names, folders, b, m) && m.status.Running? && i <= b
    requires (m.pc == 2 * i && Effect(Copy(names[i]), m, n)) || (m.pc == 2 * i + 1 && Effect(Move(names[i]), m, n))
    ensures Stuck(names, folders, b, n)
  {
    if m.pc == 2 * i { StuckCopy(names, folders, b, m, n, i); }
    else if i < b { StuckBefore(names, folders, b, m, n, i); }
    else { StuckThere(names, folders, b, m, n); }
  }

  lemma StuckNext(names: seq<RelPath>, folders: set<RelPath>, b: nat, m: Machine, n: Machine)
    requires Names(names) && Layout(names, folders) && PlainNames(names) && FirstCramped(names, folders, b)
    requires Stuck(names, folders, b, m) && Next(Script(names), m, n)
    ensures Stuck(names, folders, b, n)
  {
    if n != m.(pc := 0, status := Running) { StuckCase(names, folders, b, m, n, m.pc / 2); }
  }

  lemma {:induction false} StuckForEver(names: seq<RelPath>, folders: set<RelPath>, b: nat, ms: seq<Machine>)
    requires Names(names) && Layout(names, folders) && PlainNames(names) && FirstCramped(names, folders, b)
    requires Trace(Script(names), ms) && Stuck(names, folders, b, ms[0])
    ensures Stuck(names, folders, b, ms[|ms| - 1])
    decreases |ms|
  {
    if |ms| > 1 {
      var n := |ms| - 1;
      var front := ms[..n];
      StuckForEver(names, folders, b, front);
      assert front[n - 1] == ms[n - 1] && Next(Script(names), ms[n - 1], ms[n]);
      StuckNext(names, folders, b, front[n - 1], ms[n]);
    }
  }

  lemma {:induction false} FindCramped(names: seq<RelPath>, folders: set<RelPath>, n: nat) returns (b: nat)
    requires n <= |names| && PlainNames(names)
    requires exists k :: 0 <= k < n && (Parent(names[k]) !in folders || TempOf(names[k]) in folders)
    ensures FirstCramped(names, folders, b) && b < n
  {
    if k :| 0 <= k < n - 1 && (Parent(names[k]) !in folders || TempOf(names[k]) in folders) {
      b := FindCramped(names, folders, n - 1);
    } else {
      b := n - 1;
    }
  }

  lemma NoRoomNeverDone(names: seq<RelPath>, folders: set<RelPath>, b: nat)
    requires Names(names) && Layout(names, folders) && PlainNames(names) && FirstCramped(names, folders, b)
    ensures !AlwaysCompletable(names, folders)
  {
    var was: map<RelPath, Content> := if Parent(names[b]) in folders then map[names[b] := "old"] else map[];
    if TempOf(names[b]) in folders { TempParent(names, folders, b); }
    FirstDiskLooksUp(names, folders, was);
    var m := FirstMachine(names, folders, was);
    assert FromStart(names, folders, [m]);
    if Completable(names, folders, [m]) {
      var more: seq<Machine> :| FromStart(names, folders, [m] + more)
                                && Done(names, [m][0].disk, ([m] + more)[|[m] + more| - 1]);
      StuckForEver(names, folders, b, [m] + more);
    }
  }

  /** Where a temporary is a folder, its name has a folder to be in. */
  lemma TempParent(names: seq<RelPath>, folders: set<RelPath>, b: nat)
    requires Layout(names, folders) && b < |names| && names[b] != [] && TempOf(names[b]) in folders
    ensures Parent(names[b]) in folders
  {
    TempIsLonger(names[b]);
  }

  /**
   For distinct names that are neither one another's temporaries nor notes: from every history
   the helper can still finish exactly when every file's folder is installed, for the script
   makes none, and no folder stands where a temporary should.
   */
  lemma CompletableIff(names: seq<RelPath>, folders: set<RelPath>)
    requires Names(names) && Layout(names, folders) && PlainNames(names)
    ensures AlwaysCompletable(names, folders) <==> Roomy(names, folders)
  {
    if Roomy(names, folders) {
      forall ms: seq<Machine> | FromStart(names, folders, ms) ensures Completable(names, folders, ms) {
        var more := RerunCompletes(names, folders, ms);
        assert (ms + more)[|ms + more| - 1] == more[|more| - 1];
      }
    } else {
      var b := FindCramped(names, folders, |names|);
      NoRoomNeverDone(names, folders, b);
    }
  }

  /** A file in a new folder never arrives: every copy fails, and the journal stays. */
  lemma NewFolderNeverInstalled(ms: seq<Machine>)
    requires FromStart([["assets", "n"]], {[]}, ms)
    ensures var m := ms[|ms| - 1];
            m.status != Exited(0) && Journal in m.disk && Installed(["assets", "n"]) !in m.disk
  {
    var names, folders: set<RelPath> := [["assets", "n"]], {[]};
    assert Parent(names[0]) == ["assets"];
    assert Reached(names, folders) == 0;
    assert PENDING != ["assets", "n"];
    TraceConsistent(names, folders, ms);
    assert Installed(names[0]) !in ms[0].disk;
  }

  // ----- where it is not safe the guarantee is lost -----

  function Marked(k: nat): Content { seq(k + 1, _ => 'x') }

  ghost function FolderNodes(folders: set<RelPath>): Disk { map rel | rel in folders :: Installed(rel) := Folder }

  ghost function FileNodes(was: map<RelPath, Content>): Disk { map rel | rel in was :: Installed(rel) := File(was[rel]) }

  lemma FolderNodesAt(folders: set<RelPath>, p: Path)
    ensures At(FolderNodes(folders), p) == if p.Installed? && p.rel in folders then Some(Folder) else None
  {}

  lemma FileNodesAt(was: map<RelPath, Content>, p: Path)
    ensures At(FileNodes(was), p) == if p.Installed? && p.rel in was then Some(File(was[p.rel])) else None
  {}

  lemma OldDiskAt(folders: set<RelPath>, was: map<RelPath, Content>, p: Path)
    requires OldFiles(folders, was)
    ensures At((FolderNodes(folders) + FileNodes(was))[Journal := EMPTY], p) ==
            match p
            case Journal => Some(EMPTY)
            case Staged(_) => None
            case Installed(rel) => if rel in folders then Some(Folder) else if rel in was then Some(File(was[rel])) else None
  {
    FolderNodesAt(folders, p);
    FileNodesAt(was, p);
  }

  /** Every staged file has its own contents; installed are the folders and some old files. */
  ghost function FirstDisk(names: seq<RelPath>, folders: set<RelPath>, was: map<RelPath, Content>): Disk {
    if names == [] then (FolderNodes(folders) + FileNodes(was))[Journal := EMPTY]
    else FirstDisk(names[..|names| - 1], folders, was)[Staged(names[|names| - 1]) := File(Marked(|names| - 1))]
  }

  ghost predicate OldFiles(folders: set<RelPath>, was: map<RelPath, Content>) {
    forall rel :: rel in was ==> rel != [] && rel !in folders && Parent(rel) in folders && rel != SWAPPED
  }

  lemma {:induction false} FirstDiskAt(names: seq<RelPath>, folders: set<RelPath>, was: map<RelPath, Content>)
    requires Distinct(names) && OldFiles(folders, was)
    ensures var disk := FirstDisk(names, folders, was);
            && At(disk, Journal) == Some(EMPTY)
            && (forall k :: 0 <= k < |names| ==> At(disk, Staged(names[k])) == Some(File(Marked(k))))
            && forall rel :: At(disk, Installed(rel)) ==
                 if rel in folders then Some(Folder) else if rel in was then Some(File(was[rel])) else None
  {
    if names == [] {
      OldDiskAt(folders, was, Journal);
      forall rel ensures At(FirstDisk(names, folders, was), Installed(rel)) ==
                 if rel in folders then Some(Folder) else if rel in was then Some(File(was[rel])) else None {
        OldDiskAt(folders, was, Installed(rel));
      }
    } else {
      var front := names[..|names| - 1];
      FirstDiskAt(front, folders, was);
      forall k | 0 <= k < |names| - 1 ensures names[k] != names[|names| - 1] && names[k] == front[k] {}
    }
  }

  ghost predicate FirstContents(names: seq<RelPath>, was: map<RelPath, Content>, disk: Disk) {
    && (forall k :: 0 <= k < |names| ==> At(disk, Staged(names[k])) == Some(File(Marked(k))))
    && (forall k :: 0 <= k < |names| ==>
         At(disk, Installed(names[k])) == if names[k] in was then Some(File(was[names[k]])) else None)
    && (IsFile(disk, Installed(PENDING)) <==> PENDING in was)
  }

  lemma FirstDiskLooksUp(names: seq<RelPath>, folders: set<RelPath>, was: map<RelPath, Content>)
    requires Names(names) && Layout(names, folders) && OldFiles(folders, was)
    ensures var disk := FirstDisk(names, folders, was);
            && Prepared(names, folders, disk) && Shaped(disk, folders)
            && Smooth(names, folders, disk, disk, FirstMachine(names, folders, was))
            && FirstContents(names, was, disk)
  {
    FirstDiskAt(names, folders, was);
    var disk := FirstDisk(names, folders, was);
    forall rel | Installed(rel) in disk && rel != [] ensures Parent(rel) in folders {
      assert At(disk, Installed(rel)).Some?;
    }
    forall rel ensures IsFolder(disk, rel) <==> rel in folders {}
    assert At(disk, Installed(SWAPPED)) == if SWAPPED in folders then Some(Folder) else None;
    forall k | 0 <= k < |names| ensures IsFile(disk, Staged(names[k])) {
      assert At(disk, Staged(names[k])) == Some(File(Marked(k)));
    }
  }

  ghost function FirstMachine(names: seq<RelPath>, folders: set<RelPath>, was: map<RelPath, Content>): Machine {
    Machine(FirstDisk(names, folders, was), 0, Running)
  }

  ghost predicate AlwaysKept(names: seq<RelPath>, folders: set<RelPath>) {
    forall ms: seq<Machine> :: FromStart(names, folders, ms) ==> Kept(names, ms[0].disk, ms[|ms| - 1])
  }

  /** A destination that holds none of its two contents refutes the guarantee. */
  lemma Broken(names: seq<RelPath>, folders: set<RelPath>, ms: seq<Machine>, k: nat)
    requires FromStart(names, folders, ms) && k < |names|
    requires var c := At(ms[|ms| - 1].disk, Installed(names[k]));
             c != At(ms[0].disk, Staged(names[k])) && c != At(ms[0].disk, Installed(names[k]))
    ensures !AlwaysKept(names, folders)
  {
    assert !Replaced(names, ms[0].disk, ms[|ms| - 1].disk, k);
  }

  lemma Extended(names: seq<RelPath>, folders: set<RelPath>, ms: seq<Machine>, n: Machine)
    requires FromStart(names, folders, ms) && Next(Script(names), ms[|ms| - 1], n)
    ensures FromStart(names, folders, ms + [n])
  {
    var all := ms + [n];
    forall i | 0 <= i < |all| - 1 ensures Next(Script(names), all[i], all[i + 1]) {
      if i < |ms| - 1 { assert all[i] == ms[i] && all[i + 1] == ms[i + 1]; }
    }
  }

  /** The undisturbed run from the first disk to the c-th command. */
  lemma FirstRun(names: seq<RelPath>, folders: set<RelPath>, was: map<RelPath, Content>, c: nat) returns (ms: seq<Machine>)
    requires Names(names) && Layout(names, folders) && OldFiles(folders, was) && c <= 2 * |names|
    requires forall i :: 0 <= i < |names| && 2 * i < c ==> Clear(names, folders, i)
    ensures FromStart(names, folders, ms) && ms[0] == FirstMachine(names, folders, was)
    ensures ms[|ms| - 1].pc == c && Smooth(names, folders, ms[0].disk, ms[0].disk, ms[|ms| - 1]) && Shaped(ms[0].disk, folders)
    ensures FirstContents(names, was, ms[0].disk)
  {
    FirstDiskLooksUp(names, folders, was);
    ms := SmoothRun(names, folders, FirstDisk(names, folders, was), FirstMachine(names, folders, was), c);
  }

  /** A name that is another one's temporary is overwritten by that one's copy. */
  lemma TempNameBreaks(names: seq<RelPath>, folders: set<RelPath>, i: nat, j: nat)
    requires Names(names) && Layout(names, folders) && i < |names| && j < |names| && TempOf(names[i]) == names[j]
    requires Copyable(names[i], folders) && forall a :: 0 <= a < i ==> Clear(names, folders, a)
    ensures !AlwaysKept(names, folders)
  {
    TempIsLonger(names[i]);
    var ms := FirstRun(names, folders, map[], 2 * i);
    var m := ms[|ms| - 1];
    StagedStays(names, folders, ms[0].disk, m, i);
    var n := FileCopy(names, folders, m, i);
    Extended(names, folders, ms, n);
    assert At(n.disk, Installed(names[j])) == Some(File(Marked(i)));
    WrongContents(names, folders, ms + [n], i, j);
  }

  lemma StagedStays(names: seq<RelPath>, folders: set<RelPath>, disk0: Disk, m: Machine, i: nat)
    requires i < |names| && Smooth(names, folders, disk0, disk0, m) && FirstContents(names, map[], disk0)
    ensures At(m.disk, Staged(names[i])) == Some(File(Marked(i)))
    ensures m.pc <= 2 * i + 1 ==> At(m.disk, Installed(names[i])) == None
  {}

  lemma WrongContents(names: seq<RelPath>, folders: set<RelPath>, ms: seq<Machine>, i: nat, j: nat)
    requires FromStart(names, folders, ms) && FirstContents(names, map[], ms[0].disk)
    requires i != j && j < |names| && At(ms[|ms| - 1].disk, Installed(names[j])) == Some(File(Marked(i)))
    ensures !AlwaysKept(names, folders)
  {
    assert |Marked(i)| != |Marked(j)|;
    Broken(names, folders, ms, j);
  }

  /** The successful copy to a temporary that is no folder. */
  lemma FileCopy(names: seq<RelPath>, folders: set<RelPath>, m: Machine, i: nat) returns (n: Machine)
    requires i < |names| && Copyable(names[i], folders) && TempOf(names[i]) !in folders && HasFolders(m.disk, folders)
    requires m.status.Running? && m.pc == 2 * i && IsFile(m.disk, Staged(names[i]))
    ensures Effect(Copy(names[i]), m, n) && Next(Script(names), m, n)
    ensures n == m.(disk := m.disk[Installed(TempOf(names[i])) := m.disk[Staged(names[i])]], pc := m.pc + 1)
  {
    CommandAt(names, i);
    assert IsFolder(m.disk, Parent(names[i])) && !IsFolder(m.disk, TempOf(names[i]));
    n := m.(disk := m.disk[Installed(TempOf(names[i])) := m.disk[Staged(names[i])]], pc := m.pc + 1);
    assert CopyEffect(names[i], m, n);
  }

  lemma {:induction false} FoldersAbove(names: seq<RelPath>, folders: set<RelPath>, a: RelPath, b: RelPath)
    requires Layout(names, folders) && b in folders && a <= b
    ensures a in folders
    decreases |b|
  {
    if a != b { FoldersAbove(names, folders, a, Parent(b)); }
  }

  /** Nothing is installed below a path that is not installed. */
  lemma NothingBelow(names: seq<RelPath>, folders: set<RelPath>, disk: Disk, rel: RelPath)
    requires Layout(names, folders) && Shaped(disk, folders) && rel !in folders && Installed(rel) !in disk
    ensures Vacant(disk, rel)
  {
    forall p | p in disk && Under(rel, p) ensures p == Installed(rel) {
      if p.rel != rel {
        assert rel <= Parent(p.rel);
        FoldersAbove(names, folders, rel, Parent(p.rel));
      }
    }
  }

  /** The copy goes into the folder that stands where the temporary should, and then that folder is renamed. */
  lemma SwallowedCopy(names: seq<RelPath>, folders: set<RelPath>, m: Machine, i: nat) returns (a: Machine, b: Machine)
    requires Names(names) && Layout(names, folders) && i < |names| && Copyable(names[i], folders)
    requires TempOf(names[i]) in folders && HasFolders(m.disk, folders) && Shaped(m.disk, folders)
    requires m.status.Running? && m.pc == 2 * i && IsFile(m.disk, Staged(names[i])) && Installed(names[i]) !in m.disk
    ensures a == m.(disk := m.disk[Installed(TempOf(names[i]) + [Last(names[i])]) := m.disk[Staged(names[i])]], pc := m.pc + 1)
    ensures Next(Script(names), m, a) && Next(Script(names), a, b)
    ensures b.pc == m.pc + 2 && b.status.Running? && At(b.disk, Installed(names[i])) == Some(Folder)
    ensures forall p :: !Under(names[i], p) && !Under(TempOf(names[i]), p) ==> At(b.disk, p) == At(m.disk, p)
  {
    var temp, inner := TempOf(names[i]), TempOf(names[i]) + [Last(names[i])];
    TempIsLonger(names[i]);
    CommandAt(names, i);
    assert IsFolder(m.disk, temp) && IsFolder(m.disk, Parent(names[i])) && !IsFolder(m.disk, inner);
    a := m.(disk := m.disk[Installed(inner) := m.disk[Staged(names[i])]], pc := m.pc + 1);
    assert CopyEffect(names[i], m, a);
    assert Shaped(a.disk, folders) by { assert Parent(inner) == temp; }
    NothingBelow(names, folders, a.disk, names[i]);
    b := a.(disk := Relocated(a.disk, temp, names[i]), pc := a.pc + 1);
    assert MoveEffect(names[i], a, b);
    forall p ensures At(b.disk, p) == Origin(a.disk, temp, names[i], p) { RelocatedAt(a.disk, temp, names[i], p); }
    assert names[i][|names[i]|..] == [] && temp + [] == temp;
  }

  lemma FolderTempBreaks(names: seq<RelPath>, folders: set<RelPath>, i: nat)
    requires Names(names) && Layout(names, folders) && i < |names| && TempOf(names[i]) in folders
    requires Copyable(names[i], folders) && forall a :: 0 <= a < i ==> Clear(names, folders, a)
    ensures !AlwaysKept(names, folders)
  {
    var ms := FirstRun(names, folders, map[], 2 * i);
    var m := ms[|ms| - 1];
    StagedStays(names, folders, ms[0].disk, m, i);
    var a, b := SwallowedCopy(names, folders, m, i);
    Extended(names, folders, ms, a);
    Extended(names, folders, ms + [a], b);
    FolderInstead(names, folders, ms + [a] + [b], i);
  }

  lemma FolderInstead(names: seq<RelPath>, folders: set<RelPath>, ms: seq<Machine>, i: nat)
    requires FromStart(names, folders, ms) && FirstContents(names, map[], ms[0].disk)
    requires i < |names| && At(ms[|ms| - 1].disk, Installed(names[i])) == Some(Folder)
    ensures !AlwaysKept(names, folders)
  {
    Broken(names, folders, ms, i);
  }

  /** A staged failure note is emptied by the first copy that fails. */
  lemma FailureNoteBreaks(names: seq<RelPath>, folders: set<RelPath>, k: nat)
    requires Names(names) && Layout(names, folders) && k < |names| && names[k] == FAILED
    ensures !AlwaysKept(names, folders)
  {
    FirstDiskLooksUp(names, folders, map[]);
    var m := FirstMachine(names, folders, map[]);
    CommandAt(names, 0);
    assert !IsFolder(m.disk, FAILED);
    var n := m.(disk := m.disk[Installed(FAILED) := EMPTY], status := Exited(5));
    assert Fails(m, n, 5);
    Extended(names, folders, [m], n);
    assert |Marked(k)| > 0;
    Broken(names, folders, [m] + [n], k);
  }

  lemma PendingIsOld(names: seq<RelPath>, folders: set<RelPath>)
    requires Layout(names, folders)
    ensures OldFiles(folders, map[PENDING := "old"])
  {
    NotesDiffer();
    assert Parent(PENDING) == [];
  }

  /** The undisturbed run up to the launcher's turn. */
  lemma UpToHandOff(names: seq<RelPath>, folders: set<RelPath>) returns (ms: seq<Machine>)
    requires Names(names) && Layout(names, folders) && forall i :: 0 <= i < |names| ==> Clear(names, folders, i)
    ensures FromStart(names, folders, ms) && FirstContents(names, map[PENDING := "old"], ms[0].disk)
    ensures var m := ms[|ms| - 1];
            && m.status.Running? && m.pc == 2 * |names| + 2 && IsFile(m.disk, Installed(PENDING)) && HasFolders(m.disk, folders)
            && Script(names)[m.pc] == HandOff && Script(names)[m.pc + 1] == ClearVerdicts
  {
    PendingIsOld(names, folders);
    TailCommands(names);
    var swap := FirstRun(names, folders, map[PENDING := "old"], 2 * |names|);
    var a := swap[|swap| - 1];
    var b := a.(pc := a.pc + 1);
    var c := b.(pc := b.pc + 1);
    Extended(names, folders, swap, b);
    Extended(names, folders, swap + [b], c);
    ms := swap + [b] + [c];
  }

  /** A staged pending note is removed again at the end, or the old one was. */
  lemma PendingNoteBreaks(names: seq<RelPath>, folders: set<RelPath>, k: nat)
    requires Names(names) && Layout(names, folders) && k < |names| && names[k] == PENDING
    requires forall i :: 0 <= i < |names| ==> Clear(names, folders, i)
    ensures !AlwaysKept(names, folders)
  {
    var ms := UpToHandOff(names, folders);
    var m := ms[|ms| - 1];
    assert !IsFolder(m.disk, PENDING);
    var n := m.(pc := m.pc + 1);
    var end := n.(disk := Removed(Removed(n.disk, PENDING), FAILED), pc := n.pc + 1);
    Extended(names, folders, ms, n);
    Extended(names, folders, ms + [n], end);
    assert At(end.disk, Installed(PENDING)) == None;
    Broken(names, folders, ms + [n] + [end], k);
  }

  /** A staged success note is there before the files behind it, or is emptied by the verdict itself. */
  lemma SuccessNoteBreaks(names: seq<RelPath>, folders: set<RelPath>, k: nat)
    requires Names(names) && Layout(names, folders) && k < |names| && names[k] == SWAPPED
    requires forall i :: 0 <= i <= k ==> Clear(names, folders, i)
    ensures !AlwaysKept(names, folders)
  {
    if k + 1 < |names| {
      var ms := FirstRun(names, folders, map[], 2 * k + 2);
      var m := ms[|ms| - 1];
      TooEarly(names, folders, ms[0].disk, m, k);
      assert !Kept(names, ms[0].disk, m);
    } else {
      LastNoteBreaks(names, folders, k);
    }
  }

  /** With the success note installed and a file to come, not all is new. */
  lemma TooEarly(names: seq<RelPath>, folders: set<RelPath>, disk0: Disk, m: Machine, k: nat)
    requires k + 1 < |names| && names[k] == SWAPPED && m.pc == 2 * k + 2
    requires Smooth(names, folders, disk0, disk0, m) && FirstContents(names, map[], disk0)
    ensures IsFile(m.disk, Installed(SWAPPED)) && !AllReplaced(names, disk0, m.disk)
  {
    assert Replaced(names, disk0, m.disk, k);
    assert At(m.disk, Installed(names[k + 1])) == At(disk0, Installed(names[k + 1])) == None;
    assert !Replaced(names, disk0, m.disk, k + 1);
  }

  lemma LastNoteBreaks(names: seq<RelPath>, folders: set<RelPath>, k: nat)
    requires Names(names) && Layout(names, folders) && k < |names| && names[k] == SWAPPED
    requires forall i :: 0 <= i < |names| ==> Clear(names, folders, i)
    ensures !AlwaysKept(names, folders)
  {
    NotesDiffer();
    var ms := UpToHandOff(names, folders);
    var m := ms[|ms| - 1];
    assert !IsFolder(m.disk, SWAPPED);
    var n := m.(disk := m.disk[Installed(SWAPPED) := EMPTY]);
    Extended(names, folders, ms, n);
    assert |Marked(k)| > 0;
    Broken(names, folders, ms + [n], k);
  }

  lemma {:induction false} FirstUnclear(names: seq<RelPath>, folders: set<RelPath>, n: nat) returns (i: nat)
    requires n <= |names| && exists k :: 0 <= k < n && !Clear(names, folders, k)
    ensures i < n && !Clear(names, folders, i) && forall a :: 0 <= a < i ==> Clear(names, folders, a)
  {
    if k :| 0 <= k < n - 1 && !Clear(names, folders, k) { i := FirstUnclear(names, folders, n - 1); } else { i := n - 1; }
  }

  lemma TempsBreak(names: seq<RelPath>, folders: set<RelPath>)
    requires Names(names) && Layout(names, folders)
    requires exists k :: 0 <= k < Reached(names, folders) && !OwnTemp(names, folders, k)
    ensures !AlwaysKept(names, folders)
  {
    var k :| 0 <= k < Reached(names, folders) && !OwnTemp(names, folders, k);
    assert !Clear(names, folders, k);
    var i := FirstUnclear(names, folders, Reached(names, folders));
    if TempOf(names[i]) in folders {
      FolderTempBreaks(names, folders, i);
    } else {
      var j :| 0 <= j < |names| && names[j] == TempOf(names[i]);
      TempNameBreaks(names, folders, i, j);
    }
  }

  lemma NotesBreak(names: seq<RelPath>, folders: set<RelPath>)
    requires Names(names) && Layout(names, folders) && !Apart(names, folders)
    requires forall i :: 0 <= i < Reached(names, folders) ==> OwnTemp(names, folders, i)
    ensures !AlwaysKept(names, folders)
  {
    var r := Reached(names, folders);
    if FAILED in names {
      var k :| 0 <= k < |names| && names[k] == FAILED;
      FailureNoteBreaks(names, folders, k);
    } else if SWAPPED in names[..r] {
      var k :| 0 <= k < r && names[k] == SWAPPED;
      SuccessNoteBreaks(names, folders, k);
    } else {
      var k :| 0 <= k < |names| && names[k] == PENDING;
      PendingNoteBreaks(names, folders, k);
    }
  }

  /**
   For distinct names and any installed folders, the guarantee holds in every run, whatever the
   files contain, exactly when the names the script gets to have temporaries of their own and
   no note is written over a file of the release. The listing ensures neither.
   */
  lemma CrashConsistentIff(names: seq<RelPath>, folders: set<RelPath>)
    requires Names(names) && Layout(names, folders)
    ensures AlwaysKept(names, folders) <==> Apart(names, folders)
  {
    if Apart(names, folders) {
      forall ms: seq<Machine> | FromStart(names, folders, ms) ensures Kept(names, ms[0].disk, ms[|ms| - 1]) {
        TraceConsistent(names, folders, ms);
      }
    } else if exists k :: 0 <= k < Reached(names, folders) && !OwnTemp(names, folders, k) {
      TempsBreak(names, folders);
    } else {
      NotesBreak(names, folders);
    }
  }

  /** The listing takes a staged file that is named like a note. */
  lemma NotesAreListed(rel: RelPath)
    requires Note(rel)
    ensures Installs(Entry(rel, Regular, false))
  {
    NotesNotPreserved();
    assert PENDING[0][0] == '.' && SWAPPED[0][0] == '.' && FAILED[0][0] == '.';
    assert PENDING[0][1] == 'r' && SWAPPED[0][1] == 'u' && FAILED[0][1] == 'u';
    assert "apply-update"[0] == 'a' && ".."[1] == '.';
  }

  /** A release that ships the success note announces success after its first file. */
  lemma VerdictTooEarly() returns (ms: seq<Machine>)
    ensures FromStart([SWAPPED, ["jukahub"]], {[]}, ms)
    ensures IsFile(ms[|ms| - 1].disk, Installed(SWAPPED))
    ensures !AllReplaced([SWAPPED, ["jukahub"]], ms[0].disk, ms[|ms| - 1].disk)
  {
    var names: seq<RelPath> := [SWAPPED, ["jukahub"]];
    var folders: set<RelPath> := {[]};
    assert SWAPPED[0][0] == '.' && "jukahub"[0] == 'j';
    NoteIsClear(names, folders);
    ms := FirstRun(names, folders, map[], 2);
    TooEarly(names, folders, ms[0].disk, ms[|ms| - 1], 0);
  }

  lemma NoteIsClear(names: seq<RelPath>, folders: set<RelPath>)
    requires names == [SWAPPED, ["jukahub"]] && folders == {[]}
    ensures Names(names) && Layout(names, folders) && Clear(names, folders, 0)
  {
    assert SWAPPED[0][0] == '.' && "jukahub"[0] == 'j';
    TempIsLonger(SWAPPED);
    assert TempOf(SWAPPED)[0][0] == '.';
    assert Parent(SWAPPED) == [];
  }

  /**
   With a folder x.new installed, the copy of x goes into it, the folder is renamed to x, the
   journal goes and success is announced: x is a folder, and x.new/x was written on the way.
   */
  lemma FolderSwallowsCopy() returns (ms: seq<Machine>)
    ensures FromStart([["x"]], {[], ["x.new"]}, ms)
    ensures |ms| > 1 && Installed(["x.new", "x"]) !in ms[0].disk && Installed(["x.new", "x"]) in ms[1].disk
    ensures var m := ms[|ms| - 1];
            Journal !in m.disk && IsFile(m.disk, Installed(SWAPPED)) && At(m.disk, Installed(["x"])) == Some(Folder)
  {
    var names: seq<RelPath> := [["x"]];
    var folders: set<RelPath> := {[], ["x.new"]};
    XNew(names, folders);
    var swallowed := Swallows(names, folders);
    ms := AnnouncedAfter(names, folders, swallowed);
  }

  lemma XNew(names: seq<RelPath>, folders: set<RelPath>)
    requires names == [["x"]] && folders == {[], ["x.new"]}
    ensures Names(names) && Layout(names, folders) && Copyable(names[0], folders) && TempOf(names[0]) == ["x.new"]
    ensures TempOf(names[0]) + [Last(names[0])] == ["x.new", "x"] && !Note(names[0])
    ensures !Under(["x"], Installed(PENDING)) && !Under(["x.new"], Installed(PENDING))
    ensures SWAPPED !in folders && SWAPPED != ["x"] && !(["x.new"] <= SWAPPED)
  {
    assert "x" + ".new" == "x.new" && Parent(["x"]) == [] && Parent(["x.new"]) == [];
    assert |"x"| == 1 && |"x.new"| == 5 && |PENDING[0]| == 16 && |SWAPPED[0]| == 15 && |FAILED[0]| == 14;
  }

  /** The copy into the folder and its renaming, for a single name. */
  lemma Swallows(names: seq<RelPath>, folders: set<RelPath>) returns (ms: seq<Machine>)
    requires Names(names) && Layout(names, folders) && |names| == 1 && Copyable(names[0], folders)
    requires TempOf(names[0]) in folders && names[0] != PENDING && SWAPPED !in folders && SWAPPED != names[0]
    requires !Under(names[0], Installed(PENDING)) && !Under(TempOf(names[0]), Installed(PENDING))
    requires !(names[0] <= SWAPPED) && !(TempOf(names[0]) <= SWAPPED)
    ensures FromStart(names, folders, ms) && |ms| > 1
    ensures var inner := Installed(TempOf(names[0]) + [Last(names[0])]); inner !in ms[0].disk && inner in ms[1].disk
    ensures var m := ms[|ms| - 1];
            && m.status.Running? && m.pc == 2 * |names| && IsFile(m.disk, Installed(PENDING)) && !IsFolder(m.disk, SWAPPED)
            && At(m.disk, Installed(names[0])) == Some(Folder)
  {
    var m := FirstMachine(names, folders, map[PENDING := "old"]);
    SwallowStart(names, folders, m);
    var a, b := SwallowedCopy(names, folders, m, 0);
    SwallowedNotes(names, m, b);
    ThreeMachines(names, folders, m, a, b);
    ms := [m, a, b];
  }

  lemma SwallowedNotes(names: seq<RelPath>, m: Machine, b: Machine)
    requires |names| == 1 && names[0] != [] && IsFile(m.disk, Installed(PENDING)) && !IsFolder(m.disk, SWAPPED)
    requires !Under(names[0], Installed(PENDING)) && !Under(TempOf(names[0]), Installed(PENDING))
    requires !(names[0] <= SWAPPED) && !(TempOf(names[0]) <= SWAPPED)
    requires forall p :: !Under(names[0], p) && !Under(TempOf(names[0]), p) ==> At(b.disk, p) == At(m.disk, p)
    ensures IsFile(b.disk, Installed(PENDING)) && !IsFolder(b.disk, SWAPPED)
  {
    assert At(b.disk, Installed(PENDING)) == At(m.disk, Installed(PENDING));
    assert At(b.disk, Installed(SWAPPED)) == At(m.disk, Installed(SWAPPED));
  }

  lemma ThreeMachines(names: seq<RelPath>, folders: set<RelPath>, m: Machine, a: Machine, b: Machine)
    requires FromStart(names, folders, [m]) && Next(Script(names), m, a) && Next(Script(names), a, b)
    ensures FromStart(names, folders, [m, a, b])
  {
    var ms := [m, a, b];
    forall i | 0 <= i < |ms| - 1 ensures Next(Script(names), ms[i], ms[i + 1]) {}
  }

  lemma SwallowStart(names: seq<RelPath>, folders: set<RelPath>, m: Machine)
    requires Names(names) && Layout(names, folders) && |names| == 1 && Copyable(names[0], folders)
    requires TempOf(names[0]) in folders && names[0] != PENDING && SWAPPED !in folders
    requires !Under(TempOf(names[0]), Installed(PENDING)) && m == FirstMachine(names, folders, map[PENDING := "old"])
    ensures FromStart(names, folders, [m]) && Shaped(m.disk, folders) && HasFolders(m.disk, folders)
    ensures IsFile(m.disk, Staged(names[0])) && Installed(names[0]) !in m.disk
    ensures Installed(TempOf(names[0]) + [Last(names[0])]) !in m.disk
    ensures IsFile(m.disk, Installed(PENDING)) && !IsFolder(m.disk, SWAPPED)
  {
    PendingIsOld(names, folders);
    FirstDiskLooksUp(names, folders, map[PENDING := "old"]);
    FirstDiskAt(names, folders, map[PENDING := "old"]);
    assert At(m.disk, Staged(names[0])) == Some(File(Marked(0))) && At(m.disk, Installed(names[0])) == None;
    var inner := TempOf(names[0]) + [Last(names[0])];
    assert TempOf(names[0]) <= inner && inner != PENDING && inner !in folders;
    assert At(m.disk, Installed(inner)) == None;
  }

  /** A staged file below another one's temporary is lost when that folder is renamed. */
  lemma NestedNameBreaks()
    ensures !AlwaysKept([["x"], ["x.new", "y"]], {[], ["x.new"]})
  {
    var names: seq<RelPath>, folders: set<RelPath> := [["x"], ["x.new", "y"]], {[], ["x.new"]};
    assert "x" + ".new" == "x.new" && Parent(["x"]) == [] && Parent(["x.new"]) == [];
    assert |"x"| == 1 && |"x.new"| == 5 && |PENDING[0]| == 16;
    assert TempOf(names[0]) == ["x.new"] && Copyable(names[0], folders);
    CrashConsistentIff(names, folders);
    assert !OwnTemp(names, folders, 0);
  }

  /** From the end of the file section, with a launcher waiting: the journal goes and the success note is written. */
  lemma AnnouncedAfter(names: seq<RelPath>, folders: set<RelPath>, ms: seq<Machine>) returns (all: seq<Machine>)
    requires FromStart(names, folders, ms)
    requires var m := ms[|ms| - 1]; m.status.Running? && m.pc == 2 * |names| && IsFile(m.disk, Installed(PENDING))
    requires !IsFolder(ms[|ms| - 1].disk, SWAPPED)
    ensures FromStart(names, folders, all) && |all| > |ms| && all[..|ms|] == ms
    ensures all[|all| - 1].disk == (ms[|ms| - 1].disk - {Journal})[Installed(SWAPPED) := EMPTY]
  {
    TailCommands(names);
    var m := ms[|ms| - 1];
    var a := m.(pc := m.pc + 1);
    var b := a.(disk := a.disk - {Journal}, pc := a.pc + 1);
    var c := b.(disk := b.disk[Installed(SWAPPED) := EMPTY]);
    Extended(names, folders, ms, a);
    Extended(names, folders, ms + [a], b);
    Extended(names, folders, ms + [a] + [b], c);
    all := ms + [a] + [b] + [c];
  }
}
