/**
  Restoring a verified archive: every entry replaces its target, each target is snapshotted first,
  and a failing copy or health gate undoes the changes in reverse order.

  The disk maps a path to a regular file or to a symbolic link.  The private staging directory, fresh
  for each restore, is the pair of the extracted bytes and the snapshots.
*/
module BackupRestore {
  import opened Options
  import Text
  import opened Paths
  import opened BackupArchive

  datatype File = File(data: Bytes, mode: nat)

  datatype Node = Regular(file: File) | Link(to: string)

  type Disk = map<string, Node>

  /** One entry to restore: its target, the verified bytes and the recorded permission bits. */
  datatype Item = Item(target: string, data: Bytes, mode: nat)

  /** What was found at a target before it was overwritten. */
  datatype Undo = Undo(target: string, was: Option<File>)

  datatype Outcome =
    | Unmapped                           // an entry names a source that is not configured
    | NotPrepared                        // stopping the services failed
    | Restored
    | Aborted(done: nat)                 // a target could not be inspected or snapshotted
    | RolledBack(written: nat, undone: nat, clean: bool)

  /** How many links the kernel follows. */
  const HOPS := 40

  function Perm(mode: nat): nat {
    mode % 512
  }

  /** The content and permission bits read at a path, following at most `hops` links. */
  function Follow(disk: Disk, path: string, hops: nat): (r: Option<File>)
    ensures r.Some? ==> r.value.mode < 512
    decreases hops
  {
    if path !in disk then None
    else match disk[path]
      case Regular(f) => Some(File(f.data, Perm(f.mode)))
      case Link(to) => if hops == 0 then None else Follow(disk, to, hops - 1)
  }

  function View(disk: Disk, path: string): Option<File> {
    Follow(disk, path, HOPS)
  }

  // ---------------------------------------------------------------- the plan

  function SourceOf(sources: seq<Source>, id: string): (r: Option<Source>)
    ensures r.Some? ==> r.value in sources && r.value.id == id
    ensures r.None? ==> forall source :: source in sources ==> source.id != id
  {
    if sources == [] then None
    else if sources[|sources| - 1].id == id then Some(sources[|sources| - 1])
    else SourceOf(sources[..|sources| - 1], id)
  }

  function Target(source: Source, e: Entry): string {
    if source.database || source.file then source.path else JoinPath(source.path, e.path)
  }

  /** A file is restored where it was collected. */
  lemma RestoredWhereCollected(source: Source, f: Collected)
    requires IsAbs(source.path) && FromSource(source, f) && '\\' !in f.entry.path
    ensures Target(source, f.entry) == f.origin
  {
    if !source.database && !source.file {
      var dir, path, n := source.path, f.entry.path, |Segments(source.path)|;
      RelIsSafe(dir, f.origin);
      SafeRelativeIff(path);
      JoinedSegments(dir, path);
      assert Segments(f.origin) == Segments(f.origin)[..n] + Segments(f.origin)[n..];
      assert Segments(f.origin)[..n] == Segments(dir);
      assert Segments(dir + [SLASH] + path) == Segments(f.origin);
    }
  }

  /** Every safe path of a directory source has a target of its own, below the directory. */
  lemma TargetsDiffer(source: Source, e: Entry, g: Entry)
    requires IsAbs(source.path) && !source.database && !source.file
    requires SafeRelative(e.path) && SafeRelative(g.path) && e.path != g.path
    ensures Target(source, e) != Target(source, g)
    ensures Segments(source.path) <= Segments(Target(source, e))
  {
    SafePathStays(source.path, e.path);
    SafePathStays(source.path, g.path);
    if e.path != "." && g.path != "." {
      SegmentsDiffer(source.path, e.path, g.path);
    }
  }

  lemma SegmentsDiffer(dir: string, a: string, b: string)
    requires a != b
    ensures Segments(dir) + Text.Split(a, SLASH) != Segments(dir) + Text.Split(b, SLASH)
  {
    Text.JoinSplit(a, SLASH);
    Text.JoinSplit(b, SLASH);
    var n := |Segments(dir)|;
    assert (Segments(dir) + Text.Split(a, SLASH))[n..] == Text.Split(a, SLASH);
    assert (Segments(dir) + Text.Split(b, SLASH))[n..] == Text.Split(b, SLASH);
  }

  /** A single file whose source is not marked as one is restored into a directory of its own name, and all
      files of a directory that is marked as a file are restored at the directory's own path. */
  lemma MismarkedMoves(source: Source, f: Collected)
    requires IsAbs(source.path) && '\\' !in f.entry.path && (SingleFile(source, f) || FileBelow(source, f))
    requires SingleFile(source, f) <==> !source.database && !source.file
    ensures Target(source, f.entry) != f.origin
    ensures Segments(Target(source, f.entry))
            == Segments(source.path) + if SingleFile(source, f) then [Base(source.path)] else []
  {
    if !source.database && !source.file {
      BaseIsSafe(source.path);
      SafePathStays(source.path, f.entry.path);
      SegmentsShaped(source.path);
      Text.SplitNone(Base(source.path), SLASH);
    }
  }

  /** So a collected file is restored where it was if and only if its source's marks say whether there was
      a directory. */
  lemma RestoredThereIff(source: Source, f: Collected)
    requires IsAbs(source.path) && f.entry.source == source.id && '\\' !in f.entry.path
    requires SingleFile(source, f) || FileBelow(source, f)
    ensures Target(source, f.entry) == f.origin <==> (SingleFile(source, f) <==> source.database || source.file)
  {
    if SingleFile(source, f) <==> source.database || source.file {
      RestoredWhereCollected(source, f);
    } else {
      MismarkedMoves(source, f);
    }
  }

  function Plan(sources: seq<Source>, entries: seq<Entry>, files: map<string, Bytes>): Option<seq<Item>>
    requires forall e :: e in entries ==> Key(e) in files
  {
    if entries == [] then Some([])
    else
      var last := entries[|entries| - 1];
      var rest := Plan(sources, entries[..|entries| - 1], files);
      var source := SourceOf(sources, last.source);
      if rest.None? || source.None? then None
      else Some(rest.value + [Item(Target(source.value, last), files[Key(last)], last.mode)])
  }

  predicate Configured(sources: seq<Source>, e: Entry) {
    SourceOf(sources, e.source).Some?
  }

  /** There is a plan exactly when every entry's source is configured. */
  lemma {:induction false} PlanExists(sources: seq<Source>, entries: seq<Entry>, files: map<string, Bytes>)
    requires forall e :: e in entries ==> Key(e) in files
    ensures Plan(sources, entries, files).Some? <==> forall e :: e in entries ==> Configured(sources, e)
  {
    if entries != [] {
      var rest, last := entries[..|entries| - 1], entries[|entries| - 1];
      PlanExists(sources, rest, files);
      assert last in entries && forall e :: e in rest ==> e in entries;
      if Plan(sources, rest, files).Some? && Configured(sources, last) {
        forall e | e in entries ensures Configured(sources, e) {
          assert e in rest || e == last;
        }
      }
    }
  }

  // ---------------------------------------------------------------- specification

  /** The disk after the items were written in order. */
  function Installed(disk: Disk, items: seq<Item>): Disk {
    if items == [] then disk
    else
      var last := items[|items| - 1];
      Installed(disk, items[..|items| - 1])[last.target := Regular(File(last.data, Perm(last.mode)))]
  }

  /** What each item found at its target when its turn came. */
  function Before(disk: Disk, items: seq<Item>): (r: seq<Undo>)
    ensures |r| == |items| && forall i :: 0 <= i < |r| ==> r[i].target == items[i].target
  {
    if items == [] then []
    else
      var rest, last := items[..|items| - 1], items[|items| - 1];
      Before(disk, rest) + [Undo(last.target, View(Installed(disk, rest), last.target))]
  }

  /** Every target that exists when its turn comes reads as a regular file. */
  predicate Readable(disk: Disk, items: seq<Item>) {
    items == [] ||
    var rest, last := items[..|items| - 1], items[|items| - 1];
    Readable(disk, rest) && (last.target in Installed(disk, rest) ==> View(Installed(disk, rest), last.target).Some?)
  }

  function UndoOne(disk: Disk, u: Undo): Disk {
    if u.was.Some? then disk[u.target := Regular(u.was.value)] else disk - {u.target}
  }

  /** Undoing the latest change first. */
  function Reverted(disk: Disk, undos: seq<Undo>): Disk
    decreases |undos|
  {
    if undos == [] then disk
    else Reverted(UndoOne(disk, undos[|undos| - 1]), undos[..|undos| - 1])
  }

  function Undone(disk: Disk, items: seq<Item>): Disk {
    Reverted(Installed(disk, items), Before(disk, items))
  }

  function NodeAt(disk: Disk, path: string): Option<Node> {
    if path in disk then Some(disk[path]) else None
  }

  ghost predicate LeftAt(before: Disk, undos: seq<Undo>, now: Disk, path: string) {
    NodeAt(now, path) == NodeAt(before, path)
    || exists u :: u in undos && u.target == path && NodeAt(now, path) == NodeAt(UndoOne(before, u), path)
  }

  /** After some of the undo steps: every path is as it was before them or as one of its own steps leaves it. */
  ghost predicate Leftover(before: Disk, undos: seq<Undo>, now: Disk) {
    forall path :: LeftAt(before, undos, now, path)
  }

  lemma LeftoverStep(before: Disk, undos: seq<Undo>, now: Disk, next: Disk, i: nat)
    requires i < |undos| && Leftover(before, undos, now) && (next == now || next == UndoOne(now, undos[i]))
    ensures Leftover(before, undos, next)
  {
    forall path ensures LeftAt(before, undos, next, path) {
      assert LeftAt(before, undos, now, path);
      if NodeAt(next, path) != NodeAt(now, path) {
        assert undos[i] in undos && NodeAt(next, path) == NodeAt(UndoOne(before, undos[i]), path);
      }
    }
  }

  function LastFor(items: seq<Item>, path: string): Option<Item> {
    if items == [] then None
    else if items[|items| - 1].target == path then Some(items[|items| - 1])
    else LastFor(items[..|items| - 1], path)
  }

  function FirstFor(undos: seq<Undo>, path: string): (r: Option<Undo>)
    ensures r.Some? ==> r.value.target == path
  {
    if undos == [] then None
    else if undos[0].target == path then Some(undos[0])
    else FirstFor(undos[1..], path)
  }

  // ---------------------------------------------------------------- what the steps answer

  /** Whether the services stop, each target can be inspected and snapshotted, each copy succeeds, the health
      gate passes, and each undo step succeeds. */
  datatype Answers = Answers(prepared: bool, inspect: nat -> bool, copy: nat -> bool, healthy: bool, undo: nat -> bool)

  predicate CopiedTo(answers: Answers, n: nat) {
    forall i :: 0 <= i < n ==> answers.inspect(i) && answers.copy(i)
  }

  /** What an undo step would remove is a regular file or gone. */
  predicate Removable(disk: Disk, undos: seq<Undo>) {
    forall i :: 0 <= i < |undos| && undos[i].was.None? && undos[i].target in disk ==> disk[undos[i].target].Regular?
  }

  /** The restore stopped before item `done`: those before it stay written. */
  ghost predicate AbortedAt(was: Disk, items: seq<Item>, answers: Answers, done: nat, disk: Disk) {
    && done < |items| && disk == Installed(was, items[..done]) && CopiedTo(answers, done)
    && (!answers.inspect(done) || !Readable(was, items[..done + 1]))
  }

  /** The restore was rolled back, after a copy that failed or after the health gate: cleanly if every undo
      step succeeds, and never worse than each path as written or as one of its own undo steps leaves it. */
  ghost predicate UndoneBy(was: Disk, items: seq<Item>, answers: Answers, r: Outcome, disk: Disk) {
    && r.RolledBack? && r.written <= r.undone <= |items| && Readable(was, items[..r.undone])
    && CopiedTo(answers, r.written)
    && (if r.written < r.undone then !answers.copy(r.written) else r.written == |items| && !answers.healthy)
    && (r.clean ==> disk == Undone(was, items[..r.undone]))
    && ((forall i :: 0 <= i < r.undone ==> answers.undo(i)) ==> r.clean)
    && Leftover(Installed(was, items[..r.written]), Before(was, items[..r.undone]), disk)
  }

  ghost predicate StoppedAs(was: Disk, items: seq<Item>, answers: Answers, r: Outcome, disk: Disk) {
    if r.Aborted? then AbortedAt(was, items, answers, r.done, disk) else UndoneBy(was, items, answers, r, disk)
  }

  lemma StopsShort(was: Disk, items: seq<Item>, answers: Answers, i: nat)
    requires i < |items| && !(Readable(was, items[..i + 1]) && answers.inspect(i) && answers.copy(i))
    ensures !(Readable(was, items) && CopiedTo(answers, |items|))
  {
    if Readable(was, items) {
      ReadablePrefix(was, items, i + 1);
    }
  }

  lemma RemovableNext(disk: Disk, undos: seq<Undo>, change: Undo, node: Node)
    requires Removable(disk, undos) && (change.was.None? ==> change.target !in disk) && node.Regular?
    ensures Removable(disk, undos + [change]) && Removable(disk[change.target := node], undos + [change])
  {
  }

  lemma {:induction false} ReadablePrefix(disk: Disk, items: seq<Item>, n: nat)
    requires n <= |items| && Readable(disk, items)
    ensures Readable(disk, items[..n])
  {
    if n < |items| {
      ReadablePrefix(disk, items[..|items| - 1], n);
      assert items[..|items| - 1][..n] == items[..n];
    } else {
      assert items[..n] == items;
    }
  }

  // ---------------------------------------------------------------- the engine

  class Restorer {
    var disk: Disk
    var snapshots: map<nat, File>

    constructor (disk: Disk)
      ensures this.disk == disk && snapshots == map[]
    {
      this.disk, this.snapshots := disk, map[];
    }

    /** atomicCopy from staging onto a target: all or nothing, permission bits only. */
    method Install(data: Bytes, target: string, mode: nat, ok: bool)
      modifies this`disk
      ensures disk == if ok then old(disk)[target := Regular(File(data, Perm(mode)))] else old(disk)
    {
      if ok {
        disk := disk[target := Regular(File(data, Perm(mode)))];
      }
    }

    /** Inspect a target and, if it exists, copy what it reads as into staging under the next number. */
    method Prepare(target: string, changed: seq<Undo>, answer: bool) returns (ok: bool, change: Undo)
      requires Saved(changed)
      modifies this`snapshots
      ensures ok <==> answer && (target in disk ==> View(disk, target).Some?)
      ensures ok ==> change == Undo(target, View(disk, target)) && Saved(changed + [change])
    {
      change := Undo(target, View(disk, target));
      ok := answer && (target in disk ==> change.was.Some?);
      if ok && target in disk {
        snapshots := snapshots[|changed| := change.was.value];
      }
    }

    /** removeRegular: nothing to do for a missing file, refuses anything but a regular file. */
    method RemoveRegular(target: string, answer: bool) returns (ok: bool)
      modifies this`disk
      ensures disk == if ok then old(disk) - {target} else old(disk)
      ensures ok <==> target !in old(disk) || (old(disk)[target].Regular? && answer)
    {
      if target !in disk {
        assert disk - {target} == disk;
        return true;
      }
      if !disk[target].Regular? {
        return false;
      }
      ok := answer;
      if ok {
        disk := disk - {target};
      }
    }

    /** The snapshots hold, under its number, what each change found. */
    ghost predicate Saved(undos: seq<Undo>)
      reads this`snapshots
    {
      forall i :: 0 <= i < |undos| && undos[i].was.Some? ==>
        i in snapshots && snapshots[i] == undos[i].was.value && snapshots[i].mode < 512
    }

    /** The rollback closure: newest change first, carrying on after a failure. */
    method Rollback(undos: seq<Undo>, answers: nat -> bool) returns (clean: bool)
      requires Saved(undos)
      modifies this`disk
      ensures clean ==> disk == Reverted(old(disk), undos)
      ensures (forall i :: 0 <= i < |undos| ==> answers(i)) && Removable(old(disk), undos) ==> clean
      ensures Leftover(old(disk), undos, disk)
    {
      clean := true;
      var index := |undos|;
      assert undos[..|undos|] == undos;
      while index > 0
        invariant 0 <= index <= |undos|
        invariant clean ==> Reverted(disk, undos[..index]) == Reverted(old(disk), undos)
        invariant Leftover(old(disk), undos, disk)
        invariant Removable(old(disk), undos) ==> Removable(disk, undos)
        invariant (forall i :: 0 <= i < |undos| ==> answers(i)) && Removable(old(disk), undos) ==> clean
      {
        index := index - 1;
        var item := undos[index];
        assert undos[..index + 1][..index] == undos[..index];
        var ok: bool;
        ghost var before := disk;
        if item.was.Some? {
          ok := answers(index);
          Install(snapshots[index].data, item.target, snapshots[index].mode, ok);
        } else {
          ok := RemoveRegular(item.target, answers(index));
        }
        LeftoverStep(old(disk), undos, before, disk, index);
        clean := clean && ok;
      }
    }

    /** What follows a copy that failed: item `i` was inspected and snapshotted and is not written. */
    method UndoCopy(items: seq<Item>, changed: seq<Undo>, i: nat, answers: Answers, ghost was: Disk)
      returns (r: Outcome)
      requires i < |items| && disk == Installed(was, items[..i]) && changed == Before(was, items[..i + 1])
      requires Saved(changed) && Removable(disk, changed)
      requires Readable(was, items[..i + 1]) && CopiedTo(answers, i) && !answers.copy(i)
      modifies this`disk
      ensures UndoneBy(was, items, answers, r, disk)
    {
      NextItem(was, items, i);
      UndoOverwrites(disk, changed, items[i]);
      var clean := Rollback(changed, answers.undo);
      return RolledBack(i, i + 1, clean);
    }

    /** The copy of one entry that was inspected and snapshotted. */
    method CopyPrepared(items: seq<Item>, i: nat, changed: seq<Undo>, answers: Answers, ghost was: Disk)
      returns (stopped: Option<Outcome>)
      requires i < |items| && disk == Installed(was, items[..i]) && Readable(was, items[..i + 1])
      requires CopiedTo(answers, i) && answers.inspect(i)
      requires changed == Before(was, items[..i + 1]) && Saved(changed) && Removable(disk, changed)
      requires Removable(Installed(was, items[..i + 1]), changed)
      modifies this`disk
      ensures stopped.None? <==> answers.copy(i)
      ensures stopped.None? ==> disk == Installed(was, items[..i + 1]) && Removable(disk, changed)
      ensures stopped.Some? ==> UndoneBy(was, items, answers, stopped.value, disk)
    {
      NextItem(was, items, i);
      Install(items[i].data, items[i].target, items[i].mode, answers.copy(i));
      if !answers.copy(i) {
        var r := UndoCopy(items, changed, i, answers, was);
        return Some(r);
      }
      return None;
    }

    /** Items up to `i` are written, and what they found is in the snapshots. */
    ghost predicate At(was: Disk, items: seq<Item>, answers: Answers, i: nat, changed: seq<Undo>)
      reads this
    {
      && i <= |items| && disk == Installed(was, items[..i]) && Readable(was, items[..i]) && CopiedTo(answers, i)
      && changed == Before(was, items[..i]) && Saved(changed) && Removable(disk, changed)
    }

    /** One manifest entry: None when it was written. */
    method CopyOne(items: seq<Item>, i: nat, before: seq<Undo>, answers: Answers, ghost was: Disk)
      returns (stopped: Option<Outcome>, changed: seq<Undo>)
      requires i < |items| && At(was, items, answers, i, before)
      modifies this
      ensures stopped.None? <==> Readable(was, items[..i + 1]) && answers.inspect(i) && answers.copy(i)
      ensures stopped.None? ==> At(was, items, answers, i + 1, changed)
      ensures stopped.Some? ==> StoppedAs(was, items, answers, stopped.value, disk)
    {
      NextItem(was, items, i);
      var ok, change := Prepare(items[i].target, before, answers.inspect(i));
      changed := before + [change];
      if !ok {
        return Some(Aborted(i)), changed;
      }
      RemovableNext(disk, before, change, Regular(File(items[i].data, Perm(items[i].mode))));
      stopped := CopyPrepared(items, i, changed, answers, was);
    }

    /** The loop over the manifest entries: None when all of them were written. */
    method CopyAll(items: seq<Item>, answers: Answers) returns (stopped: Option<Outcome>, changed: seq<Undo>)
      requires snapshots == map[]
      modifies this
      ensures stopped.None? <==> Readable(old(disk), items) && CopiedTo(answers, |items|)
      ensures stopped.None? ==> At(old(disk), items, answers, |items|, changed)
      ensures stopped.Some? ==> StoppedAs(old(disk), items, answers, stopped.value, disk)
    {
      changed := [];
      for i := 0 to |items|
        invariant At(old(disk), items, answers, i, changed)
      {
        stopped, changed := CopyOne(items, i, changed, answers, old(disk));
        if stopped.Some? {
          StopsShort(old(disk), items, answers, i);
          return;
        }
      }
      assert items[..|items|] == items;
      return None, changed;
    }

    /** The loop over the manifest entries and the health gate after it. */
    method Apply(items: seq<Item>, answers: Answers) returns (r: Outcome)
      requires snapshots == map[]
      modifies this
      ensures r.Restored? || r.Aborted? || r.RolledBack?
      ensures r.Restored? <==> Readable(old(disk), items) && CopiedTo(answers, |items|) && answers.healthy
      ensures r.Restored? ==> disk == Installed(old(disk), items)
      ensures r.Aborted? ==> AbortedAt(old(disk), items, answers, r.done, disk)
      ensures r.RolledBack? ==> UndoneBy(old(disk), items, answers, r, disk)
    {
      var stopped, changed := CopyAll(items, answers);
      if stopped.Some? {
        return stopped.value;
      }
      assert items[..|items|] == items;
      if !answers.healthy {
        var clean := Rollback(changed, answers.undo);
        return RolledBack(|items|, |items|, clean);
      }
      return Restored;
    }

    /** Restore after extraction: nothing is touched unless every entry has a configured source. */
    method Restore(sources: seq<Source>, entries: seq<Entry>, files: map<string, Bytes>, answers: Answers)
      returns (r: Outcome)
      requires snapshots == map[] && forall e :: e in entries ==> Key(e) in files
      modifies this
      ensures r.Unmapped? <==> exists e :: e in entries && !Configured(sources, e)
      ensures !r.Unmapped? ==> Plan(sources, entries, files).Some?
      ensures r.Unmapped? || r.NotPrepared? ==> disk == old(disk)
      ensures r.NotPrepared? ==> !answers.prepared
      ensures r.Restored? <==> (Plan(sources, entries, files).Some? && answers.prepared
                                && Readable(old(disk), Plan(sources, entries, files).value)
                                && CopiedTo(answers, |Plan(sources, entries, files).value|) && answers.healthy)
      ensures r.Restored? ==> disk == Installed(old(disk), Plan(sources, entries, files).value)
      ensures r.Aborted? ==> AbortedAt(old(disk), Plan(sources, entries, files).value, answers, r.done, disk)
      ensures r.RolledBack? ==> UndoneBy(old(disk), Plan(sources, entries, files).value, answers, r, disk)
    {
      var plan := Plan(sources, entries, files);
      PlanExists(sources, entries, files);
      if plan.None? {
        return Unmapped;
      }
      if !answers.prepared {
        return NotPrepared;
      }
      r := Apply(plan.value, answers);
    }
  }

  lemma NextItem(disk: Disk, items: seq<Item>, i: nat)
    requires i < |items|
    ensures var now, next, item := items[..i], items[..i + 1], items[i];
            && Installed(disk, next) == Installed(disk, now)[item.target := Regular(File(item.data, Perm(item.mode)))]
            && Before(disk, next) == Before(disk, now) + [Undo(item.target, View(Installed(disk, now), item.target))]
            && (Readable(disk, next) <==>
                  (Readable(disk, now)
                   && (item.target in Installed(disk, now) ==> View(Installed(disk, now), item.target).Some?)))
  {
    assert items[..i + 1][..i] == items[..i];
  }

  /** Undoing an item gives the same disk whether or not it had been written. */
  lemma UndoOverwrites(disk: Disk, undos: seq<Undo>, item: Item)
    requires undos != [] && undos[|undos| - 1].target == item.target
    ensures Reverted(disk, undos) == Reverted(disk[item.target := Regular(File(item.data, Perm(item.mode)))], undos)
  {
    var written := disk[item.target := Regular(File(item.data, Perm(item.mode)))];
    assert UndoOne(disk, undos[|undos| - 1]) == UndoOne(written, undos[|undos| - 1]);
  }

  // ---------------------------------------------------------------- what a restore gives

  /** A restored target holds the content and mode of the last entry mapped to it; every other path
      is the node it was. */
  lemma {:induction false} InstalledIsLast(disk: Disk, items: seq<Item>, path: string)
    ensures var last := LastFor(items, path);
            if last.Some? then path in Installed(disk, items)
                               && Installed(disk, items)[path] == Regular(File(last.value.data, Perm(last.value.mode)))
            else (path in Installed(disk, items) <==> path in disk)
                 && (path in disk ==> Installed(disk, items)[path] == disk[path])
  {
    if items != [] {
      InstalledIsLast(disk, items[..|items| - 1], path);
    }
  }

  // ---------------------------------------------------------------- what a rollback gives

  lemma {:induction false} FirstForPrefix(undos: seq<Undo>, path: string)
    requires undos != []
    ensures var rest := FirstFor(undos[..|undos| - 1], path);
            FirstFor(undos, path) ==
            if rest.Some? then rest else if undos[|undos| - 1].target == path then Some(undos[|undos| - 1]) else None
  {
    if |undos| > 1 && undos[0].target != path {
      assert undos[1..][..|undos| - 2] == undos[..|undos| - 1][1..];
      FirstForPrefix(undos[1..], path);
    }
  }

  /** Undoing newest first leaves at each path what its first change found there. */
  lemma {:induction false} RevertedIsFirst(disk: Disk, undos: seq<Undo>, path: string)
    ensures var first, r := FirstFor(undos, path), Reverted(disk, undos);
            if first.None? then (path in r <==> path in disk) && (path in disk ==> r[path] == disk[path])
            else if first.value.was.None? then path !in r
            else path in r && r[path] == Regular(first.value.was.value)
    decreases |undos|
  {
    if undos != [] {
      FirstForPrefix(undos, path);
      RevertedIsFirst(UndoOne(disk, undos[|undos| - 1]), undos[..|undos| - 1], path);
    }
  }

  /** Targets that are regular files or missing can all be restored. */
  lemma {:induction false} PlainIsReadable(disk: Disk, items: seq<Item>)
    requires forall i :: 0 <= i < |items| && items[i].target in disk ==> disk[items[i].target].Regular?
    ensures Readable(disk, items)
  {
    if items != [] {
      var rest, target := items[..|items| - 1], items[|items| - 1].target;
      PlainIsReadable(disk, rest);
      InstalledIsLast(disk, rest, target);
      NoLink(Installed(disk, rest), target, HOPS);
    }
  }

  predicate IsFirst(items: seq<Item>, i: nat, path: string) {
    i < |items| && items[i].target == path && LastFor(items[..i], path).None?
  }

  lemma FirstUnique(items: seq<Item>, i: nat, k: nat, path: string)
    requires IsFirst(items, i, path) && IsFirst(items, k, path)
    ensures i == k
  {
    if i < k {
      LastForSome(items[..k], i);
    } else if k < i {
      LastForSome(items[..i], k);
    }
  }

  /** The first item for a path, and what it found there. */
  lemma {:induction false} FirstFound(disk: Disk, items: seq<Item>, path: string) returns (i: nat)
    requires LastFor(items, path).Some?
    ensures IsFirst(items, i, path)
    ensures FirstFor(Before(disk, items), path) == Some(Undo(path, View(Installed(disk, items[..i]), path)))
  {
    var rest := items[..|items| - 1];
    assert Before(disk, items)[..|items| - 1] == Before(disk, rest);
    FirstForPrefix(Before(disk, items), path);
    if LastFor(rest, path).Some? {
      i := FirstFound(disk, rest, path);
      assert rest[..i] == items[..i];
    } else {
      i := |items| - 1;
      NothingFound(disk, rest, path);
    }
  }

  lemma {:induction false} NothingFound(disk: Disk, items: seq<Item>, path: string)
    requires LastFor(items, path).None?
    ensures FirstFor(Before(disk, items), path).None?
  {
    if items != [] {
      assert Before(disk, items)[..|items| - 1] == Before(disk, items[..|items| - 1]);
      FirstForPrefix(Before(disk, items), path);
      NothingFound(disk, items[..|items| - 1], path);
    }
  }

  /** The item that reading `path` meets first, on the way through the links of the original disk. */
  function Met(disk: Disk, items: seq<Item>, path: string, hops: nat): Option<Item>
    decreases hops
  {
    if LastFor(items, path).Some? then LastFor(items, path)
    else if path in disk && disk[path].Link? && hops > 0 then Met(disk, items, disk[path].to, hops - 1)
    else None
  }

  function Content(item: Item): File {
    File(item.data, Perm(item.mode))
  }

  /** What a path reads as after the items were written. */
  lemma {:induction false} FollowInstalled(disk: Disk, items: seq<Item>, path: string, hops: nat)
    ensures var met := Met(disk, items, path, hops);
            Follow(Installed(disk, items), path, hops)
            == if met.Some? then Some(Content(met.value)) else Follow(disk, path, hops)
    decreases hops
  {
    InstalledIsLast(disk, items, path);
    if LastFor(items, path).None? && path in disk && disk[path].Link? && hops > 0 {
      FollowInstalled(disk, items, disk[path].to, hops - 1);
    }
  }

  /** A link that is restored, while on its way an earlier item wrote something else than it read as. */
  predicate Aliased(disk: Disk, items: seq<Item>, i: nat)
    requires i < |items|
  {
    var target := items[i].target;
    LastFor(items[..i], target).None? && target in disk && disk[target].Link? &&
    var met := Met(disk, items[..i], target, HOPS);
    met.Some? && View(disk, target) != Some(Content(met.value))
  }

  /** Following at most `hops` links ends at a file or at a missing path. */
  predicate Ends(disk: Disk, path: string, hops: nat)
    decreases hops
  {
    path in disk && disk[path].Link? ==> hops > 0 && Ends(disk, disk[path].to, hops - 1)
  }

  lemma {:induction false} FollowMore(disk: Disk, path: string, hops: nat, more: nat)
    requires Ends(disk, path, hops) && hops <= more
    ensures Follow(disk, path, more) == Follow(disk, path, hops)
    decreases hops
  {
    if path in disk && disk[path].Link? {
      FollowMore(disk, disk[path].to, hops - 1, more - 1);
    }
  }

  lemma ViewWhenReached(disk: Disk, items: seq<Item>, i: nat)
    requires i < |items| && LastFor(items[..i], items[i].target).None?
    ensures View(Installed(disk, items[..i]), items[i].target) == View(disk, items[i].target)
            <==> !Aliased(disk, items, i)
  {
    FollowInstalled(disk, items[..i], items[i].target, HOPS);
  }

  /** What the undone disk holds at a path. */
  lemma UndoneAt(disk: Disk, items: seq<Item>, path: string) returns (i: nat)
    ensures LastFor(items, path).None? ==> NodeAt(Undone(disk, items), path) == NodeAt(disk, path)
    ensures LastFor(items, path).Some? ==>
              IsFirst(items, i, path)
              && var was := View(Installed(disk, items[..i]), path);
                 NodeAt(Undone(disk, items), path) == if was.Some? then Some(Regular(was.value)) else None
  {
    i := 0;
    RevertedIsFirst(Installed(disk, items), Before(disk, items), path);
    InstalledIsLast(disk, items, path);
    if LastFor(items, path).Some? {
      i := FirstFound(disk, items, path);
    } else {
      NothingFound(disk, items, path);
    }
  }

  /** No restored link whose chain ends is aliased. */
  ghost predicate NoneAliased(disk: Disk, items: seq<Item>) {
    forall i :: 0 <= i < |items| && Ends(disk, items[i].target, HOPS) ==> !Aliased(disk, items, i)
  }

  lemma {:induction false} EndsMore(disk: Disk, path: string, hops: nat, more: nat)
    requires Ends(disk, path, hops) && hops <= more
    ensures Ends(disk, path, more)
    decreases hops
  {
    if path in disk && disk[path].Link? {
      EndsMore(disk, disk[path].to, hops - 1, more - 1);
    }
  }

  /** A target holds again what it read as. */
  lemma TargetUndone(disk: Disk, items: seq<Item>, path: string)
    requires LastFor(items, path).Some? && NoneAliased(disk, items) && Ends(disk, path, HOPS)
    ensures NodeAt(Undone(disk, items), path)
            == if View(disk, path).Some? then Some(Regular(View(disk, path).value)) else None
  {
    var i := UndoneAt(disk, items, path);
    ViewWhenReached(disk, items, i);
  }

  /** Without aliasing every path reads as before. */
  lemma {:induction false} FollowUndone(disk: Disk, items: seq<Item>, path: string, hops: nat)
    requires Ends(disk, path, hops) && hops <= HOPS && NoneAliased(disk, items)
    ensures Follow(Undone(disk, items), path, hops) == Follow(disk, path, hops)
    decreases hops
  {
    var i := UndoneAt(disk, items, path);
    if LastFor(items, path).Some? {
      EndsMore(disk, path, hops, HOPS);
      TargetUndone(disk, items, path);
      FollowMore(disk, path, hops, HOPS);
    } else if path in disk && disk[path].Link? {
      FollowUndone(disk, items, disk[path].to, hops - 1);
    }
  }

  lemma {:induction false} LastForSome(items: seq<Item>, i: nat)
    requires i < |items|
    ensures LastFor(items, items[i].target).Some?
  {
    if i < |items| - 1 {
      LastForSome(items[..|items| - 1], i);
    }
  }

  /** After a failed restore whose undo steps all succeeded, every file reads as it did before, with
      its permission bits, and absent files are absent again, even when several entries share a
      target -- if and only if no restored link leads to a file that an earlier entry overwrote with
      something else.  A file is a path whose chain of links ends. */
  lemma RollbackRestores(disk: Disk, items: seq<Item>)
    ensures (forall p :: Ends(disk, p, HOPS) ==> View(Undone(disk, items), p) == View(disk, p))
            <==> NoneAliased(disk, items)
  {
    if NoneAliased(disk, items) {
      forall p | Ends(disk, p, HOPS) ensures View(Undone(disk, items), p) == View(disk, p) {
        FollowUndone(disk, items, p, HOPS);
      }
    } else {
      var i :| 0 <= i < |items| && Ends(disk, items[i].target, HOPS) && Aliased(disk, items, i);
      AliasedIsLost(disk, items, i);
    }
  }

  /** Such a link reads as what the earlier entry wrote, whatever else is on the disk. */
  lemma AliasedIsLost(disk: Disk, items: seq<Item>, i: nat)
    requires i < |items| && Aliased(disk, items, i)
    ensures View(Undone(disk, items), items[i].target) != View(disk, items[i].target)
  {
    LastForSome(items, i);
    var k := UndoneAt(disk, items, items[i].target);
    FirstUnique(items, i, k, items[i].target);
    FollowInstalled(disk, items[..i], items[i].target, HOPS);
  }

  /** With no link among the targets a clean rollback restores every file. */
  lemma RollbackWithoutLinks(disk: Disk, items: seq<Item>, path: string)
    requires Ends(disk, path, HOPS)
    requires forall i :: 0 <= i < |items| && items[i].target in disk ==> disk[items[i].target].Regular?
    ensures View(Undone(disk, items), path) == View(disk, path)
  {
    FollowUndone(disk, items, path, HOPS);
  }

  lemma {:induction false} LastForPrefix(items: seq<Item>, n: nat, path: string)
    requires n <= |items| && LastFor(items, path).None?
    ensures LastFor(items[..n], path).None?
    decreases |items|
  {
    if n < |items| {
      LastForPrefix(items[..|items| - 1], n, path);
      assert items[..|items| - 1][..n] == items[..n];
    } else {
      assert items[..n] == items;
    }
  }

  /** A rollback that is not clean: paths that no entry named are untouched; a target has what was written
      last, or what one of its entries had found. */
  lemma UncleanRollback(disk: Disk, items: seq<Item>, written: nat, now: Disk, path: string)
    requires written <= |items| && Leftover(Installed(disk, items[..written]), Before(disk, items), now)
    ensures LastFor(items, path).None? ==> NodeAt(now, path) == NodeAt(disk, path)
    ensures var last := LastFor(items[..written], path);
            || NodeAt(now, path) == (if last.Some? then Some(Regular(Content(last.value))) else NodeAt(disk, path))
            || exists u :: u in Before(disk, items) && u.target == path
                           && NodeAt(now, path) == if u.was.Some? then Some(Regular(u.was.value)) else None
  {
    assert LeftAt(Installed(disk, items[..written]), Before(disk, items), now, path);
    InstalledIsLast(disk, items[..written], path);
    if LastFor(items, path).None? {
      LastForPrefix(items, written, path);
      forall i | 0 <= i < |items| ensures items[i].target != path {
        LastForSome(items, i);
      }
    }
  }

  /** A link to a regular file or to nothing. */
  lemma OneLink(disk: Disk, link: string, hops: nat)
    requires hops > 0 && link in disk && disk[link].Link?
    requires disk[link].to in disk ==> disk[disk[link].to].Regular?
    ensures Ends(disk, link, hops) && Follow(disk, link, hops) == Follow(disk, disk[link].to, hops - 1)
  {
  }

  lemma NoLink(disk: Disk, path: string, hops: nat)
    requires path in disk ==> disk[path].Regular?
    ensures Ends(disk, path, hops)
    ensures Follow(disk, path, hops)
            == if path in disk then Some(File(disk[path].file.data, Perm(disk[path].file.mode))) else None
  {
  }

  lemma OneLinkEnds(file: string, content: File, link: string, to: string, p: string)
    requires file != link && to != link
    ensures Ends(map[file := Regular(content), link := Link(to)], p, HOPS)
  {
    var disk: Disk := map[file := Regular(content), link := Link(to)];
    if p == link {
      OneLink(disk, link, HOPS);
    } else {
      NoLink(disk, p, HOPS);
    }
  }

  /** The items' undos for a file and a link to it. */
  lemma LinkedUndos(disk: Disk, file: string, link: string, before: Bytes, archived: Bytes, mode: nat)
    requires file != link && disk == map[file := Regular(File(before, mode)), link := Link(file)]
    ensures var items := [Item(file, archived, mode), Item(link, archived, mode)];
            && View(disk, link) == Some(File(before, Perm(mode)))
            && Readable(disk, items)
            && Before(disk, items)
               == [Undo(file, Some(File(before, Perm(mode)))), Undo(link, Some(File(archived, Perm(mode))))]
  {
    var items := [Item(file, archived, mode), Item(link, archived, mode)];
    NextItem(disk, items, 0);
    NextItem(disk, items, 1);
    assert items[..0] == [] && items[..2] == items;
    var half := Installed(disk, items[..1]);
    assert half == map[file := Regular(File(archived, Perm(mode))), link := Link(file)];
    NoLink(disk, file, HOPS);
    OneLink(disk, link, HOPS);
    NoLink(disk, file, HOPS - 1);
    OneLink(half, link, HOPS);
    NoLink(half, file, HOPS - 1);
  }

  /** The property fails for an ordinary nginx tree: an enabled site that links to an available one,
      both in the archive, reads as the archived content after the rollback. */
  lemma LinkedSiteIsLost(available: string, enabled: string, before: Bytes, archived: Bytes, mode: nat)
    requires available != enabled && before != archived
    ensures var disk := map[available := Regular(File(before, mode)), enabled := Link(available)];
            var items := [Item(available, archived, mode), Item(enabled, archived, mode)];
            && Ends(disk, enabled, HOPS) && Readable(disk, items)
            && View(disk, enabled) == Some(File(before, Perm(mode)))
            && View(Undone(disk, items), enabled) == Some(File(archived, Perm(mode)))
            && View(Undone(disk, items), available) == Some(File(before, Perm(mode)))
  {
    var disk: Disk := map[available := Regular(File(before, mode)), enabled := Link(available)];
    var items := [Item(available, archived, mode), Item(enabled, archived, mode)];
    OneLinkEnds(available, File(before, mode), enabled, available, enabled);
    LinkedUndos(disk, available, enabled, before, archived, mode);
    var undos := Before(disk, items);
    assert undos[1..] == [undos[1]];
    RevertedIsFirst(Installed(disk, items), undos, enabled);
    RevertedIsFirst(Installed(disk, items), undos, available);
    NoLink(Undone(disk, items), enabled, HOPS);
    NoLink(Undone(disk, items), available, HOPS);
  }

  /** The entries written so far are what their targets read as already. */
  ghost predicate AlreadyThere(disk: Disk, items: seq<Item>) {
    forall p :: Ends(disk, p, HOPS) && LastFor(items, p).Some? ==>
      View(disk, p) == Some(Content(LastFor(items, p).value))
  }

  lemma {:induction false} MetAlreadyThere(disk: Disk, items: seq<Item>, path: string, hops: nat)
    requires AlreadyThere(disk, items) && Ends(disk, path, hops) && hops <= HOPS && Met(disk, items, path, hops).Some?
    ensures Follow(disk, path, hops) == Some(Content(Met(disk, items, path, hops).value))
    decreases hops
  {
    if LastFor(items, path).Some? {
      EndsMore(disk, path, hops, HOPS);
      FollowMore(disk, path, hops, HOPS);
    } else {
      MetAlreadyThere(disk, items, disk[path].to, hops - 1);
    }
  }

  /** An aborted restore is not undone: it leaves every file as it was if and only if everything written
      before it was there already. */
  lemma AbortKeepsFilesIff(disk: Disk, items: seq<Item>, done: nat)
    requires done <= |items|
    ensures (forall p :: Ends(disk, p, HOPS) ==> View(Installed(disk, items[..done]), p) == View(disk, p))
            <==> AlreadyThere(disk, items[..done])
  {
    var written := items[..done];
    if AlreadyThere(disk, written) {
      forall p | Ends(disk, p, HOPS) ensures View(Installed(disk, written), p) == View(disk, p) {
        FollowInstalled(disk, written, p, HOPS);
        if Met(disk, written, p, HOPS).Some? {
          MetAlreadyThere(disk, written, p, HOPS);
        }
      }
    } else {
      var p :| Ends(disk, p, HOPS) && LastFor(written, p).Some?
               && View(disk, p) != Some(Content(LastFor(written, p).value));
      AbortKeepsEarlierEntries(disk, items, done, p);
    }
  }

  /** The entries written before an abort stay written. */
  lemma AbortKeepsEarlierEntries(disk: Disk, items: seq<Item>, done: nat, path: string)
    requires done <= |items| && LastFor(items[..done], path).Some?
    ensures View(Installed(disk, items[..done]), path) == Some(Content(LastFor(items[..done], path).value))
  {
    InstalledIsLast(disk, items[..done], path);
  }

  /** A dangling link after a changed file: the restore can only stop at the link, and the file before it
      has the archived content. */
  lemma DanglingLinkAborts(changed: string, link: string, missing: string, before: Bytes, archived: Bytes, mode: nat)
    requires changed != link && missing != link && missing != changed && before != archived
    ensures var disk := map[changed := Regular(File(before, mode)), link := Link(missing)];
            var items := [Item(changed, archived, mode), Item(link, archived, mode)];
            && Ends(disk, changed, HOPS) && !Readable(disk, items)
            && View(disk, changed) == Some(File(before, Perm(mode)))
            && View(Installed(disk, items[..1]), changed) == Some(File(archived, Perm(mode)))
  {
    var disk: Disk := map[changed := Regular(File(before, mode)), link := Link(missing)];
    var items := [Item(changed, archived, mode), Item(link, archived, mode)];
    NextItem(disk, items, 0);
    NextItem(disk, items, 1);
    assert items[..0] == [] && items[..2] == items;
    var half := Installed(disk, items[..1]);
    OneLinkEnds(changed, File(before, mode), link, missing, changed);
    OneLink(half, link, HOPS);
    NoLink(half, missing, HOPS - 1);
    NoLink(disk, changed, HOPS);
    NoLink(half, changed, HOPS);
  }

  // ---------------------------------------------------------------- round trip

  lemma {:induction false} PlanLength(sources: seq<Source>, entries: seq<Entry>, files: map<string, Bytes>)
    requires (forall e :: e in entries ==> Key(e) in files) && Plan(sources, entries, files).Some?
    ensures |Plan(sources, entries, files).value| == |entries|
  {
    if entries != [] {
      PlanLength(sources, entries[..|entries| - 1], files);
    }
  }

  lemma {:induction false} PlanAt(sources: seq<Source>, entries: seq<Entry>, files: map<string, Bytes>, i: nat)
    requires i < |entries| && (forall e :: e in entries ==> Key(e) in files) && Plan(sources, entries, files).Some?
    ensures var items := Plan(sources, entries, files).value;
            && |items| == |entries|
            && SourceOf(sources, entries[i].source).Some?
            && items[i] == Item(Target(SourceOf(sources, entries[i].source).value, entries[i]),
                                files[Key(entries[i])], entries[i].mode)
  {
    PlanLength(sources, entries, files);
    PlanLength(sources, entries[..|entries| - 1], files);
    if i < |entries| - 1 {
      PlanAt(sources, entries[..|entries| - 1], files, i);
    }
  }

  lemma HeldHasKeys(entries: seq<Entry>, data: seq<Tar>, held: map<string, Bytes>, digest: Digest)
    requires Holds(held, entries, data, digest)
    ensures forall e :: e in entries ==> Key(e) in held
  {
    forall e | e in entries ensures Key(e) in held {
      assert Taken(e, data, held, digest);
    }
  }

  lemma PlanIsCollected(config: Config, collected: seq<Collected>, digest: Digest, held: map<string, Bytes>, i: nat)
    requires i < |collected| && Collectable(collected, digest)
    requires Holds(held, Entries(collected), DataOf(collected), digest)
    requires forall e :: e in Entries(collected) ==> Key(e) in held
    requires Plan(config.sources, Entries(collected), held).Some?
    ensures var items, entry := Plan(config.sources, Entries(collected), held).value, collected[i].entry;
            && |items| == |collected|
            && SourceOf(config.sources, entry.source).Some?
            && items[i] == Item(Target(SourceOf(config.sources, entry.source).value, entry),
                                collected[i].content, entry.mode)
  {
    assert collected[i] in collected && Describes(collected[i], digest);
    PlanAt(config.sources, Entries(collected), held, i);
    ExtractedIsCollected(collected, held, digest, i);
  }

  /** The source found for a collected file is the one it was collected from. */
  lemma FoundSource(config: Config, f: Collected, digest: Digest)
    requires ValidConfig(config) && Gathered(config.sources, f, digest)
    ensures SourceOf(config.sources, f.entry.source).Some?
    ensures FromSource(SourceOf(config.sources, f.entry.source).value, f)
    ensures IsAbs(SourceOf(config.sources, f.entry.source).value.path)
  {
    var source :| source in config.sources && FromSource(source, f);
    SameSource(config.sources, source, SourceOf(config.sources, f.entry.source).value);
  }

  /** The disk after restoring: the last item for a path is what it reads as, other nodes stay. */
  ghost predicate LastWins(before: Disk, items: seq<Item>, after: Disk) {
    forall path ::
      if LastFor(items, path).Some?
      then View(after, path) == Some(File(LastFor(items, path).value.data, Perm(LastFor(items, path).value.mode)))
      else (path in after <==> path in before) && (path in before ==> after[path] == before[path])
  }

  lemma InstalledLastWins(disk: Disk, items: seq<Item>)
    ensures LastWins(disk, items, Installed(disk, items))
  {
    forall path { InstalledIsLast(disk, items, path); }
  }

  /** The items are the collected files, in order, at the places where they were found. */
  ghost predicate ItemsOf(collected: seq<Collected>, items: seq<Item>) {
    |items| == |collected| &&
    forall i :: 0 <= i < |collected| ==>
      items[i] == Item(collected[i].origin, collected[i].content, collected[i].entry.mode)
  }

  lemma PlanReproducesCollected(config: Config, collected: seq<Collected>, digest: Digest, held: map<string, Bytes>)
    requires ValidConfig(config) && Collectable(collected, digest)
    requires forall i :: 0 <= i < |collected| ==> Gathered(config.sources, collected[i], digest)
    requires Holds(held, Entries(collected), DataOf(collected), digest)
    requires forall e :: e in Entries(collected) ==> Key(e) in held
    requires Plan(config.sources, Entries(collected), held).Some?
    ensures ItemsOf(collected, Plan(config.sources, Entries(collected), held).value)
  {
    var items := Plan(config.sources, Entries(collected), held).value;
    PlanLength(config.sources, Entries(collected), held);
    forall i | 0 <= i < |collected|
      ensures items[i] == Item(collected[i].origin, collected[i].content, collected[i].entry.mode) {
      var f := collected[i];
      PlanIsCollected(config, collected, digest, held, i);
      FoundSource(config, f, digest);
      assert Entries(collected)[i] in Entries(collected) && ValidEntry(f.entry);
      RestoredWhereCollected(SourceOf(config.sources, f.entry.source).value, f);
    }
  }

  lemma {:induction false} LastForLatest(items: seq<Item>, i: nat)
    requires i < |items| && forall j :: i < j < |items| ==> items[j].target != items[i].target
    ensures LastFor(items, items[i].target) == Some(items[i])
  {
    if i < |items| - 1 {
      LastForLatest(items[..|items| - 1], i);
    }
  }

  lemma AllConfigured(config: Config, collected: seq<Collected>, digest: Digest)
    requires ValidConfig(config) && forall i :: 0 <= i < |collected| ==> Gathered(config.sources, collected[i], digest)
    ensures forall e :: e in Entries(collected) ==> Configured(config.sources, e)
  {
    forall e | e in Entries(collected) ensures Configured(config.sources, e) {
      var i :| 0 <= i < |collected| && Entries(collected)[i] == e;
      FoundSource(config, collected[i], digest);
    }
  }

  /** Backup then restore (when a written archive is accepted, see WrittenIsAccepted): every collected file is
      back where it was found, with its content and its mode, unless a later one was found at the same place;
      every other path keeps its node. */
  lemma BackupRoundTrip(config: Config, collected: seq<Collected>, digest: Digest, held: map<string, Bytes>, disk: Disk)
    requires ValidConfig(config) && Collectable(collected, digest)
    requires forall i :: 0 <= i < |collected| ==> Gathered(config.sources, collected[i], digest)
    requires Holds(held, Entries(collected), DataOf(collected), digest)
    ensures forall e :: e in Entries(collected) ==> Key(e) in held
    ensures var plan := Plan(config.sources, Entries(collected), held);
            && plan.Some? && ItemsOf(collected, plan.value) && LastWins(disk, plan.value, Installed(disk, plan.value))
            && (forall i :: 0 <= i < |collected| && Latest(collected, i) ==>
                  IsBack(collected[i], Installed(disk, plan.value)))
  {
    HeldHasKeys(Entries(collected), DataOf(collected), held, digest);
    AllConfigured(config, collected, digest);
    PlanExists(config.sources, Entries(collected), held);
    PlanReproducesCollected(config, collected, digest, held);
    var items := Plan(config.sources, Entries(collected), held).value;
    InstalledLastWins(disk, items);
    forall i | 0 <= i < |collected| && Latest(collected, i) ensures IsBack(collected[i], Installed(disk, items)) {
      assert Entries(collected)[i] in Entries(collected) && ValidEntry(collected[i].entry);
      FileIsBack(collected, items, disk, i);
    }
  }

  predicate IsBack(f: Collected, disk: Disk) {
    View(disk, f.origin) == Some(File(f.content, f.entry.mode))
  }

  lemma FileIsBack(collected: seq<Collected>, items: seq<Item>, disk: Disk, i: nat)
    requires ItemsOf(collected, items) && i < |collected| && Latest(collected, i) && collected[i].entry.mode <= MAX_MODE
    ensures IsBack(collected[i], Installed(disk, items))
  {
    LastForLatest(items, i);
    InstalledIsLast(disk, items, collected[i].origin);
  }

  /** No later file was found at the same place. */
  predicate Latest(collected: seq<Collected>, i: nat)
    requires i < |collected|
  {
    forall j :: i < j < |collected| ==> collected[j].origin != collected[i].origin
  }
}
