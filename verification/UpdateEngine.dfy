/**
  The updater: Apply snapshots the three live binaries, replaces them in any order, restarts and
  checks health, and restores the snapshot when a step fails; Rollback restores the snapshot of a
  recorded transaction.  History is append-only.  The lock makes runs serial.

  `atomicCopy` onto a live binary is all or nothing.  `copyFile` into a snapshot directory is not:
  a failing copy may leave a torn file behind.
*/
module UpdateEngine {
  import opened Options

  type Bytes = seq<bv8>
  type Id = string

  datatype Name = CoreBinary | AgentBinary | CliBinary

  type Binaries = map<Name, Bytes>

  /** The fixed order in which snapshots are taken and put back. */
  const NAMES: seq<Name> := [CoreBinary, AgentBinary, CliBinary]

  datatype Status = Failed | RolledBack | Succeeded | RollbackFailed | ManualRollback

  datatype Entry = Entry(id: Id, status: Status, backup: Option<Id>)

  datatype State = State(live: Binaries, backups: map<Id, Binaries>, history: seq<Entry>)

  predicate Complete(b: Binaries) {
    b.Keys == {CoreBinary, AgentBinary, CliBinary}
  }

  predicate IsOrder(order: seq<Name>) {
    |order| == 3 && order[0] != order[1] && order[0] != order[2] && order[1] != order[2]
  }

  lemma OrderCovers(order: seq<Name>)
    requires IsOrder(order)
    ensures forall n: Name :: n in order
  {
    forall n: Name ensures n in order {
      assert n == order[0] || n == order[1] || n == order[2];
    }
  }

  lemma AllNames(b: Binaries)
    requires forall n :: n in NAMES ==> n in b
    ensures Complete(b)
  {
    assert CoreBinary in NAMES && AgentBinary in NAMES && CliBinary in NAMES;
    forall n | n in b ensures n in {CoreBinary, AgentBinary, CliBinary} {
      assert n.CoreBinary? || n.AgentBinary? || n.CliBinary?;
    }
  }

  lemma AllReplaced(live: Binaries, payload: Binaries, order: seq<Name>)
    requires IsOrder(order) && Complete(live) && Complete(payload)
    requires forall k :: 0 <= k < 3 ==> live[order[k]] == payload[order[k]]
    ensures live == payload
  {
    OrderCovers(order);
  }

  /** Everything `part` has, `whole` has too. */
  predicate Within(part: Binaries, whole: Binaries) {
    forall n :: n in part ==> n in whole && part[n] == whole[n]
  }

  /** Each binary is the old one or the new one. */
  predicate Mixed(b: Binaries, before: Binaries, after: Binaries) {
    && b.Keys == before.Keys
    && forall n :: n in b ==> b[n] == before[n] || (n in after && b[n] == after[n])
  }

  // ---------------------------------------------------------------- snapshots

  function SnapshotOf(backups: map<Id, Binaries>, dir: Id): Binaries {
    if dir in backups then backups[dir] else map[]
  }

  function CopiesOf(live: Binaries, names: seq<Name>): Binaries {
    map n | n in names && n in live :: live[n]
  }

  lemma CopiedNext(live: Binaries, order: seq<Name>, i: nat)
    requires i < |order| && order[i] in live
    ensures CopiesOf(live, order[..i + 1]) == CopiesOf(live, order[..i])[order[i] := live[order[i]]]
  {
    assert order[..i + 1] == order[..i] + [order[i]];
  }

  lemma CopiedAll(live: Binaries, order: seq<Name>)
    requires IsOrder(order) && forall k :: 0 <= k < 3 ==> order[k] in live
    ensures Complete(CopiesOf(live, order[..3]))
  {
    OrderCovers(order);
    assert order[..3] == order;
    AllNames(CopiesOf(live, order));
  }

  /** How taking a snapshot ended: `Torn` when copy number `at` failed and left its file with rubbish. */
  datatype Damage = Undamaged | Torn(at: nat, left: Bytes)

  /** The copies up to number `at` were of binaries that are there. */
  predicate CopiedTo(live: Binaries, order: seq<Name>, at: nat) {
    at < |order| && forall k :: 0 <= k <= at ==> order[k] in live
  }

  function TornSnapshot(live: Binaries, order: seq<Name>, at: nat, left: Bytes): Binaries
    requires at < |order|
  {
    CopiesOf(live, order[..at])[order[at] := left]
  }

  /** restore with every copy succeeding: names are put back until the first missing one. */
  function Reinstated(live: Binaries, snapshot: Binaries, names: seq<Name>): Binaries
    decreases |names|
  {
    if names == [] || names[0] !in snapshot then live
    else Reinstated(live[names[0] := snapshot[names[0]]], snapshot, names[1..])
  }

  // ---------------------------------------------------------------- history

  /** The index findHistory returns: the last entry that matches. */
  predicate Wanted(e: Entry, id: Id) {
    (id == "" && e.status.Succeeded?) || e.id == id
  }

  function FindHistory(history: seq<Entry>, id: Id): (r: Option<nat>)
    ensures r.Some? ==> r.value < |history| && Wanted(history[r.value], id)
                        && forall k :: r.value < k < |history| ==> !Wanted(history[k], id)
    ensures r.None? ==> forall k :: 0 <= k < |history| ==> !Wanted(history[k], id)
  {
    if history == [] then None
    else if Wanted(history[|history| - 1], id) then Some(|history| - 1)
    else FindHistory(history[..|history| - 1], id)
  }

  // ---------------------------------------------------------------- what a transaction does

  ghost predicate KeepsBackups(s: State, t: State) {
    forall d :: d in s.backups ==> d in t.backups && t.backups[d] == s.backups[d]
  }

  ghost predicate Appends(s: State, t: State, e: Entry) {
    t.history == s.history || t.history == s.history + [e]
  }

  /** One Apply past the lock with a fresh transaction ID. */
  ghost predicate ApplyStep(s: State, t: State, e: Entry) {
    && e.id !in s.backups && e.id != ""
    && KeepsBackups(s, t) && Appends(s, t, e)
    && (e.status.Failed? || e.status.RolledBack? || e.status.Succeeded?)
    && (e.backup.Some? ==> e.backup == Some(e.id))
    && (e.status.Succeeded? ==> e.backup == Some(e.id) && e.id in t.backups && t.backups[e.id] == s.live)
  }

  /** One Rollback past the lock; `wanted` is what the operator asked for. */
  ghost predicate RollbackStep(s: State, t: State, wanted: Id, e: Entry) {
    && e.id !in s.backups && e.id != ""
    && KeepsBackups(s, t) && Appends(s, t, e)
    && (e.status.RollbackFailed? || e.status.ManualRollback?)
    && (e.status.ManualRollback? ==>
          && FindHistory(s.history, wanted).Some?
          && s.history[FindHistory(s.history, wanted).value].backup == e.backup
          && e.backup.Some? && e.backup.value in s.backups
          && Complete(s.backups[e.backup.value])
          && t.live == s.backups[e.backup.value])
  }

  // ---------------------------------------------------------------- what the steps answer

  datatype AppendReply = Recorded | Unsynced | Unrecorded

  datatype CopyReply = Copied | Missed | Tore(left: Bytes)

  /** The answers to one Apply; the functions give those of the three iterations of a loop. */
  datatype ApplyPlan = ApplyPlan(prepared: bool, released: nat -> bool, copies: nat -> CopyReply,
                                 puts: nat -> bool, stateFile: bool, healthy: bool, restores: nat -> bool,
                                 append: AppendReply)

  datatype RollbackPlan = RollbackPlan(copies: nat -> CopyReply, switches: nat -> bool, healthy: bool,
                                       restores: nat -> bool, append: AppendReply)

  predicate AllThree(answers: nat -> bool) {
    answers(0) && answers(1) && answers(2)
  }

  predicate AllCopied(copies: nat -> CopyReply) {
    copies(0).Copied? && copies(1).Copied? && copies(2).Copied?
  }

  /** One iteration of the snapshot loop with nothing wrong. */
  predicate SnapshotFine(plan: ApplyPlan, live: Binaries, order: seq<Name>, i: nat)
    requires |order| == 3 && i < 3
  {
    plan.released(i) && order[i] in live && plan.copies(i).Copied?
  }

  predicate InstallFine(plan: ApplyPlan, live: Binaries, order: seq<Name>)
    requires |order| == 3
  {
    plan.prepared && (forall i :: 0 <= i < 3 ==> SnapshotFine(plan, live, order, i)) && AllThree(plan.puts)
    && plan.stateFile
  }

  /** The snapshot of the transaction that a rollback goes back to. */
  function FoundBackup(history: seq<Entry>, wanted: Id): Option<Id> {
    var found := FindHistory(history, wanted);
    if found.Some? then history[found.value].backup else None
  }

  predicate RollbackFine(plan: RollbackPlan, live: Binaries, snapshot: Binaries) {
    && AllCopied(plan.copies) && (forall k :: 0 <= k < 3 ==> NAMES[k] in live)
    && Complete(snapshot) && AllThree(plan.switches) && plan.healthy
  }

  // ---------------------------------------------------------------- the engine

  class Engine {
    var live: Binaries
    var backups: map<Id, Binaries>
    var history: seq<Entry>
    var attempts: nat  // appends to the history that were tried

    constructor (live: Binaries)
      ensures this.live == live && backups == map[] && history == [] && attempts == 0
    {
      this.live, backups, history, attempts := live, map[], [], 0;
    }

    ghost function Value(): State
      reads this
    {
      State(live, backups, history)
    }

    /** A line that was written but could not be synced is recorded although the call fails. */
    method AppendHistory(e: Entry, reply: AppendReply) returns (ok: bool)
      modifies this`history, this`attempts
      ensures history == if reply.Unrecorded? then old(history) else old(history) + [e]
      ensures attempts == old(attempts) + 1 && ok == reply.Recorded?
    {
      attempts := attempts + 1;
      if !reply.Unrecorded? {
        history := history + [e];
      }
      ok := reply.Recorded?;
    }

    /** copyFile into a snapshot directory: on failure the one file may be missing, old or torn. */
    method CopyFile(dir: Id, name: Name, content: Bytes, reply: CopyReply) returns (ok: bool)
      requires dir in backups
      modifies this`backups
      ensures ok == reply.Copied?
      ensures backups == match reply
                         case Copied => old(backups)[dir := old(backups)[dir][name := content]]
                         case Missed => old(backups)
                         case Tore(left) => old(backups)[dir := old(backups)[dir][name := left]]
    {
      ok := reply.Copied?;
      match reply {
        case Copied => backups := backups[dir := backups[dir][name := content]];
        case Missed =>
        case Tore(left) => backups := backups[dir := backups[dir][name := left]];
      }
    }

    /** atomicCopy onto a live binary. */
    method Replace(name: Name, content: Bytes, ok: bool)
      modifies this`live
      ensures live == if ok then old(live)[name := content] else old(live)
    {
      if ok {
        live := live[name := content];
      }
    }

    /** First half of install: release copies, live binaries present, snapshot complete. */
    method SnapshotForInstall(dir: Id, order: seq<Name>, plan: ApplyPlan) returns (ok: bool, damage: Damage)
      requires IsOrder(order) && dir in backups && backups[dir] == map[]
      modifies this`backups
      ensures KeepsBackups(old(Value()).(backups := old(backups) - {dir}), Value())
      ensures dir in backups
      ensures ok <==> (forall i :: 0 <= i < 3 ==> SnapshotFine(plan, live, order, i))
      ensures ok ==> damage.Undamaged? && Complete(backups[dir])
      ensures damage.Undamaged? ==> Within(backups[dir], live)
      ensures damage.Torn? ==> CopiedTo(live, order, damage.at)
      ensures damage.Torn? ==> backups[dir] == TornSnapshot(live, order, damage.at, damage.left)
    {
      damage := Undamaged;
      for i := 0 to 3
        invariant dir in backups
        invariant forall d :: d in old(backups) && d != dir ==> d in backups && backups[d] == old(backups)[d]
        invariant backups[dir] == CopiesOf(live, order[..i]) && forall k :: 0 <= k < i ==> order[k] in live
        invariant forall k :: 0 <= k < i ==> SnapshotFine(plan, live, order, k)
      {
        if !plan.released(i) || order[i] !in live {
          assert !SnapshotFine(plan, live, order, i);
          return false, Undamaged;
        }
        ok := CopyFile(dir, order[i], live[order[i]], plan.copies(i));
        if !ok {
          assert !SnapshotFine(plan, live, order, i);
          return false, if plan.copies(i).Tore? then Torn(i, plan.copies(i).left) else Undamaged;
        }
        CopiedNext(live, order, i);
      }
      CopiedAll(live, order);
      return true, Undamaged;
    }

    /** Second half of install: replace the live binaries, then write current.json. */
    method ReplaceAll(payload: Binaries, order: seq<Name>, plan: ApplyPlan) returns (ok: bool)
      requires IsOrder(order) && Complete(payload) && Complete(live)
      modifies this`live
      ensures Mixed(live, old(live), payload)
      ensures ok ==> live == payload
      ensures ok <==> AllThree(plan.puts) && plan.stateFile
    {
      for i := 0 to 3
        invariant Mixed(live, old(live), payload)
        invariant forall k :: 0 <= k < i ==> live[order[k]] == payload[order[k]]
        invariant forall k :: 0 <= k < i ==> plan.puts(k)
      {
        Replace(order[i], payload[order[i]], plan.puts(i));
        if !plan.puts(i) {
          return false;
        }
      }
      AllReplaced(live, payload, order);
      ok := plan.stateFile;
    }

    /** restore: put a snapshot back in the fixed order, stopping at the first missing or failing one. */
    method Reinstate(dir: Id, answers: nat -> bool) returns (ok: bool, failed: bool)
      modifies this`live
      ensures !failed ==> live == Reinstated(old(live), SnapshotOf(backups, dir), NAMES)
      ensures ok ==> !failed && forall n :: n in NAMES ==> n in SnapshotOf(backups, dir)
      ensures ok ==> forall n :: n in NAMES ==> n in live && live[n] == backups[dir][n]
      ensures ok <==> Complete(SnapshotOf(backups, dir)) && AllThree(answers)
      ensures live.Keys >= old(live).Keys
      ensures Mixture(live, old(live), SnapshotOf(backups, dir))
    {
      var snapshot := SnapshotOf(backups, dir);
      for i := 0 to 3
        invariant Reinstated(live, snapshot, NAMES[i..]) == Reinstated(old(live), snapshot, NAMES)
        invariant forall k :: 0 <= k < i ==> NAMES[k] in snapshot && NAMES[k] in live && answers(k)
        invariant forall k :: 0 <= k < i ==> live[NAMES[k]] == snapshot[NAMES[k]]
        invariant live.Keys >= old(live).Keys && Mixture(live, old(live), snapshot)
      {
        assert NAMES[i..][0] == NAMES[i] && NAMES[i..][1..] == NAMES[i + 1..];
        if NAMES[i] !in snapshot {
          return false, false;
        }
        Replace(NAMES[i], snapshot[NAMES[i]], answers(i));
        if !answers(i) {
          return false, true;
        }
      }
      AllNames(snapshot);
      return true, false;
    }

    /** install: a complete snapshot first, then the replacement, in the orders of the two map iterations. */
    method Install(id: Id, payload: Binaries, order1: seq<Name>, order2: seq<Name>, plan: ApplyPlan)
      returns (ok: bool, replaced: bool, damage: Damage)
      requires id !in backups && Complete(payload) && IsOrder(order1) && IsOrder(order2)
      modifies this`live, this`backups
      ensures KeepsBackups(old(Value()), Value())
      ensures ok <==> InstallFine(plan, old(live), order1)
      ensures ok ==> replaced && live == payload
      ensures replaced ==> damage.Undamaged? && id in backups && backups[id] == old(live)
      ensures replaced ==> Complete(old(live)) && Mixed(live, old(live), payload)
      ensures !replaced ==> live == old(live)
      ensures !replaced && damage.Undamaged? ==> Within(SnapshotOf(backups, id), live)
      ensures damage.Torn? ==> !replaced && CopiedTo(live, order1, damage.at) && id in backups
      ensures damage.Torn? ==> backups[id] == TornSnapshot(live, order1, damage.at, damage.left)
    {
      ok, replaced, damage := false, false, Undamaged;
      if plan.prepared {
        backups := backups[id := map[]];
        ok, damage := SnapshotForInstall(id, order1, plan);
        if ok {
          replaced := true;
          AllNames(live);
          assert backups[id] == old(live);
          ok := ReplaceAll(payload, order2, plan);
        }
      }
    }

    /** The inner restore of Apply; `was` is what was live before it. */
    method Recover(id: Id, answers: nat -> bool, ghost was: Binaries, ghost order: seq<Name>, ghost replaced: bool,
                   ghost damage: Damage)
      returns (restored: bool, failed: bool)
      requires IsOrder(order)
      requires replaced ==> damage.Undamaged? && Complete(was) && live.Keys == was.Keys
      requires replaced ==> SnapshotOf(backups, id) == was
      requires !replaced ==> live == was
      requires !replaced && damage.Undamaged? ==> Within(SnapshotOf(backups, id), was)
      requires damage.Torn? ==> CopiedTo(was, order, damage.at)
                                && SnapshotOf(backups, id) == TornSnapshot(was, order, damage.at, damage.left)
      modifies this`live
      ensures damage.Undamaged? && (restored || !replaced) ==> live == was
      ensures replaced && AllThree(answers) ==> restored
      ensures damage.Torn? && !failed ==>
                live == if PutBackFirst(order, damage.at) then was[order[damage.at] := damage.left] else was
      ensures damage.Torn? ==> live == was || live == was[order[damage.at] := damage.left]
      ensures Mixture(live, old(live), SnapshotOf(backups, id))
    {
      restored, failed := Reinstate(id, answers);
      if damage.Torn? {
        TornOutcome(was, order, damage.at, damage.left);
        TornMixture(live, was, order, damage.at, damage.left);
      } else if !replaced {
        MixtureWithin(live, was, SnapshotOf(backups, id));
      } else if restored {
        AllNames(live);
      }
    }

    /** The part of Apply past the lock.  `payload` is the verified release, or None when a check
        before the installation fails.

        `restored` says that the inner restore reported success and `failed` that one of its copies
        failed; `replaced` says that a live binary may have been replaced before the failure. */
    method Apply(id: Id, payload: Option<Binaries>, order1: seq<Name>, order2: seq<Name>, plan: ApplyPlan)
      returns (e: Entry, restored: bool, failed: bool, replaced: bool, damage: Damage)
      requires id !in backups && id != ""
      requires payload.Some? ==> Complete(payload.value)
      requires IsOrder(order1) && IsOrder(order2)
      modifies this
      ensures e.id == id && ApplyStep(old(Value()), Value(), e)
      ensures attempts == old(attempts) + 1
      ensures history == if plan.append.Unrecorded? then old(history) else old(history) + [e]
      ensures e.status.Succeeded? <==> payload.Some? && InstallFine(plan, old(live), order1) && plan.healthy
      ensures e.status.Failed? <==> payload.None?
      ensures e.status.Succeeded? ==> payload.Some? && live == payload.value && damage.Undamaged?
      ensures !e.status.Succeeded? && damage.Undamaged? && (restored || !replaced) ==> live == old(live)
      ensures e.status.RolledBack? && replaced && AllThree(plan.restores) ==> restored
      ensures damage.Torn? ==> CopiedTo(old(live), order1, damage.at)
      ensures damage.Torn? && !failed ==>
                live == if PutBackFirst(order1, damage.at) then old(live)[order1[damage.at] := damage.left]
                        else old(live)
      ensures damage.Torn? ==> live == old(live) || live == old(live)[order1[damage.at] := damage.left]
      ensures damage.Undamaged? && payload.Some? ==> Mixture(live, old(live), payload.value)
    {
      restored, failed, replaced, damage := false, false, false, Undamaged;
      if payload.None? {
        e := Entry(id, Failed, None);
        var recorded := AppendHistory(e, plan.append);
        return;
      }
      var ok;
      ok, replaced, damage := Install(id, payload.value, order1, order2, plan);
      if ok && plan.healthy {
        e := Entry(id, Succeeded, Some(id));
      } else {
        restored, failed := Recover(id, plan.restores, old(live), order1, replaced, damage);
        e := Entry(id, RolledBack, Some(id));
      }
      var recorded := AppendHistory(e, plan.append);
    }

    /** snapshotLive: the safety copy that Rollback takes first. */
    method SnapshotLive(dir: Id, copies: nat -> CopyReply) returns (ok: bool)
      requires dir !in backups
      modifies this`backups
      ensures KeepsBackups(old(Value()), Value()) && backups.Keys == old(backups).Keys + {dir}
      ensures ok <==> AllCopied(copies) && forall k :: 0 <= k < 3 ==> NAMES[k] in live
      ensures ok ==> forall n :: n in NAMES ==> n in live && n in backups[dir] && backups[dir][n] == live[n]
    {
      backups := backups[dir := map[]];
      for i := 0 to 3
        invariant backups.Keys == old(backups).Keys + {dir}
        invariant forall d :: d in old(backups) ==> backups[d] == old(backups)[d]
        invariant forall k :: 0 <= k < i ==> NAMES[k] in live && NAMES[k] in backups[dir] && copies(k).Copied?
        invariant forall k :: 0 <= k < i ==> backups[dir][NAMES[k]] == live[NAMES[k]]
      {
        if NAMES[i] !in live {
          return false;
        }
        ok := CopyFile(dir, NAMES[i], live[NAMES[i]], copies(i));
        if !ok {
          return false;
        }
      }
      return true;
    }

    /** Put the wanted snapshot in place; if it does not come up healthy, put the safety copy back. */
    method Switch(dir: Id, safety: Id, plan: RollbackPlan) returns (ok: bool, recovered: bool)
      requires safety in backups && Complete(live) && backups[safety] == live
      modifies this`live
      ensures ok <==> Complete(SnapshotOf(backups, dir)) && AllThree(plan.switches) && plan.healthy
      ensures ok ==> dir in backups && Complete(backups[dir]) && live == backups[dir]
      ensures !ok && recovered ==> live == old(live)
      ensures !ok && Complete(SnapshotOf(backups, dir)) && AllThree(plan.switches) && AllThree(plan.restores) ==>
                recovered
      ensures Mixture(live, old(live), SnapshotOf(backups, dir))
    {
      recovered := false;
      var failed;
      ok, failed := Reinstate(dir, plan.switches);
      if !ok {
        return;
      }
      AllNames(live);
      AllNames(backups[dir]);
      ok := plan.healthy;
      if !ok {
        recovered, failed := Reinstate(safety, plan.restores);
        AllNames(live);
      }
    }

    /** Rollback past the lock: `e` is None when nothing to roll back to was found.  When the safety
        snapshot cannot be taken, or the health gate fails and it goes back, the binaries are what they
        were. */
    method Rollback(wanted: Id, id: Id, plan: RollbackPlan) returns (e: Option<Entry>, recovered: bool)
      requires id !in backups && id != ""
      requires forall h :: h in history ==> h.backup != Some(id)
      modifies this
      ensures e.Some? <==> FoundBackup(old(history), wanted).Some?
      ensures e.None? ==> live == old(live) && backups == old(backups) && history == old(history)
      ensures e.Some? ==> e.value.id == id && RollbackStep(old(Value()), Value(), wanted, e.value)
      ensures e.Some? ==>
                (e.value.status.ManualRollback?
                 <==> RollbackFine(plan, old(live),
                                   SnapshotOf(old(backups), FoundBackup(old(history), wanted).value)))
      ensures e.Some? && e.value.status.RollbackFailed? && recovered ==> live == old(live)
      ensures e.Some? ==> e.value.backup.Some?
      ensures e.Some? ==> Mixture(live, old(live), SnapshotOf(old(backups), e.value.backup.value))
    {
      recovered := false;
      var found := FindHistory(history, wanted);
      if found.None? || history[found.value].backup.None? {
        return None, false;
      }
      var dir := history[found.value].backup.value;
      assert history[found.value] in history && dir != id;
      var ok := SnapshotLive(id, plan.copies);
      recovered := !ok;
      if ok {
        AllNames(backups[id]);
        AllNames(live);
        ok, recovered := Switch(dir, id, plan);
      }
      e := Some(Entry(id, if ok then ManualRollback else RollbackFailed, Some(dir)));
      var recorded := AppendHistory(e.value, plan.append);
    }
  }

  // ---------------------------------------------------------------- runs

  datatype Op = ApplyOp(e: Entry) | RollbackOp(wanted: Id, e: Entry)

  ghost predicate OpStep(s: State, t: State, op: Op) {
    match op
    case ApplyOp(e) => ApplyStep(s, t, e)
    case RollbackOp(wanted, e) => RollbackStep(s, t, wanted, e)
  }

  /** A serial run from an empty history, in which no transaction ID is used twice. */
  ghost predicate IsRun(run: seq<State>, ops: seq<Op>) {
    && |run| == |ops| + 1
    && run[0].history == []
    && forall i :: 0 <= i < |ops| ==> OpStep(run[i], run[i + 1], ops[i])
  }

  predicate SucceededAt(run: seq<State>, ops: seq<Op>, i: nat) {
    i < |ops| && i + 1 < |run| && ops[i].ApplyOp? && ops[i].e.status.Succeeded?
    && run[i + 1].history == run[i].history + [ops[i].e]
  }

  /** The snapshot of a succeeded update holds, from then on, exactly the binaries live just before it. */
  lemma {:induction false} SnapshotsLast(run: seq<State>, ops: seq<Op>, i: nat, j: nat)
    requires IsRun(run, ops) && i < j < |run| && ops[i].ApplyOp? && ops[i].e.status.Succeeded?
    ensures ops[i].e.id in run[j].backups && run[j].backups[ops[i].e.id] == run[i].live
    decreases j
  {
    if j == i + 1 {
      assert OpStep(run[i], run[j], ops[i]);
    } else {
      SnapshotsLast(run, ops, i, j - 1);
      assert OpStep(run[j - 1], run[j], ops[j - 1]);
    }
  }

  /** Every recorded entry was appended by one operation. */
  lemma {:induction false} Origin(run: seq<State>, ops: seq<Op>, j: nat, h: nat) returns (i: nat)
    requires IsRun(run, ops) && j < |run| && h < |run[j].history|
    ensures i < j && run[j].history[h] == ops[i].e && run[i + 1].history == run[i].history + [ops[i].e]
    decreases j
  {
    assert j > 0;
    assert OpStep(run[j - 1], run[j], ops[j - 1]);
    if h < |run[j - 1].history| {
      i := Origin(run, ops, j - 1, h);
    } else {
      i := j - 1;
    }
  }

  /** A successful Rollback("") yields the binaries that preceded the latest succeeded update. */
  lemma RollbackYieldsPreceding(run: seq<State>, ops: seq<Op>, j: nat) returns (i: nat)
    requires IsRun(run, ops) && j < |ops|
    requires ops[j].RollbackOp? && ops[j].wanted == "" && ops[j].e.status.ManualRollback?
    ensures i < j && SucceededAt(run, ops, i) && run[j + 1].live == run[i].live
    ensures FindHistory(run[j].history, "").Some? && run[j].history[FindHistory(run[j].history, "").value] == ops[i].e
  {
    assert OpStep(run[j], run[j + 1], ops[j]);
    var h := FindHistory(run[j].history, "").value;
    i := Origin(run, ops, j, h);
    assert OpStep(run[i], run[i + 1], ops[i]);
    SnapshotsLast(run, ops, i, j);
  }

  lemma LatestAfterAppend(history: seq<Entry>, e: Entry)
    requires !Wanted(e, "")
    ensures FindHistory(history + [e], "") == FindHistory(history, "")
  {
    assert (history + [e])[..|history|] == history;
  }

  lemma StepKeepsLatest(s: State, t: State, op: Op)
    requires OpStep(s, t, op) && (t.history == s.history || !(op.ApplyOp? && op.e.status.Succeeded?))
    ensures FindHistory(t.history, "") == FindHistory(s.history, "") && s.history <= t.history
  {
    if t.history != s.history {
      LatestAfterAppend(s.history, op.e);
    }
  }

  lemma {:induction false} LatestStable(run: seq<State>, ops: seq<Op>, j: nat, k: nat)
    requires IsRun(run, ops) && j <= k < |run| && forall i :: j <= i < k ==> !SucceededAt(run, ops, i)
    ensures FindHistory(run[k].history, "") == FindHistory(run[j].history, "")
    ensures run[j].history <= run[k].history
    decreases k
  {
    if j < k {
      LatestStable(run, ops, j, k - 1);
      assert OpStep(run[k - 1], run[k], ops[k - 1]) && !SucceededAt(run, ops, k - 1);
      StepKeepsLatest(run[k - 1], run[k], ops[k - 1]);
    }
  }

  /** Rolling back again, with no succeeded update recorded in between, gives the same binaries. */
  lemma RollbackIdempotent(run: seq<State>, ops: seq<Op>, j: nat, k: nat)
    requires IsRun(run, ops) && j < k < |ops| && forall i :: j <= i < k ==> !SucceededAt(run, ops, i)
    requires ops[j].RollbackOp? && ops[j].wanted == "" && ops[j].e.status.ManualRollback?
    requires ops[k].RollbackOp? && ops[k].wanted == "" && ops[k].e.status.ManualRollback?
    ensures run[k + 1].live == run[j + 1].live
  {
    LatestStable(run, ops, j, k);
    var a := RollbackYieldsPreceding(run, ops, j);
    var b := RollbackYieldsPreceding(run, ops, k);
    assert ops[a].e == ops[b].e;
    assert OpStep(run[a], run[a + 1], ops[a]) && OpStep(run[b], run[b + 1], ops[b]);
    SnapshotsLast(run, ops, a, k);
    SnapshotsLast(run, ops, b, k);
  }

  // ---------------------------------------------------------------- torn snapshots

  /** Each binary is as before or the snapshot's. */
  predicate Mixture(now: Binaries, before: Binaries, snapshot: Binaries) {
    forall n :: n in now ==> (n in before && now[n] == before[n]) || (n in snapshot && now[n] == snapshot[n])
  }

  lemma MixtureWithin(now: Binaries, before: Binaries, snapshot: Binaries)
    requires Mixture(now, before, snapshot) && Within(snapshot, before) && now.Keys >= before.Keys
    ensures now == before
  {
  }

  lemma TornMixture(now: Binaries, before: Binaries, order: seq<Name>, at: nat, left: Bytes)
    requires at < |order| && order[at] in before && now.Keys >= before.Keys
    requires Mixture(now, before, TornSnapshot(before, order, at, left))
    ensures now == before || now == before[order[at] := left]
  {
  }

  /** Every name that is put back before the torn one was copied before it. */
  predicate PutBackFirst(order: seq<Name>, at: nat)
    requires at < |order|
  {
    forall j, k :: 0 <= j < k < 3 && NAMES[k] == order[at] ==> NAMES[j] in order[..at]
  }

  /** Putting back gets as far as `x`. */
  predicate GetsTo(snapshot: Binaries, names: seq<Name>, x: Name) {
    names != [] && names[0] in snapshot && (names[0] == x || GetsTo(snapshot, names[1..], x))
  }

  lemma {:induction false} ReinstatedSame(live: Binaries, snapshot: Binaries, names: seq<Name>)
    requires forall n :: n in names && n in snapshot ==> n in live && live[n] == snapshot[n]
    ensures Reinstated(live, snapshot, names) == live
    decreases |names|
  {
    if names != [] && names[0] in snapshot {
      assert names[0] in names && live[names[0] := snapshot[names[0]]] == live;
      ReinstatedSame(live, snapshot, names[1..]);
    }
  }

  lemma {:induction false} ReinstatedOdd(live: Binaries, snapshot: Binaries, names: seq<Name>, x: Name)
    requires x in snapshot && forall n :: n in snapshot && n != x ==> n in live && live[n] == snapshot[n]
    requires forall i, j :: 0 <= i < j < |names| ==> names[i] != names[j]
    ensures Reinstated(live, snapshot, names) == if GetsTo(snapshot, names, x) then live[x := snapshot[x]] else live
    decreases |names|
  {
    if names != [] && names[0] in snapshot {
      if names[0] == x {
        ReinstatedSame(live[x := snapshot[x]], snapshot, names[1..]);
      } else {
        assert live[names[0] := snapshot[names[0]]] == live;
        ReinstatedOdd(live, snapshot, names[1..], x);
      }
    }
  }

  lemma GetsToThird(snapshot: Binaries, x: Name)
    requires x in snapshot
    ensures GetsTo(snapshot, NAMES, x) <==> forall j, k :: 0 <= j < k < 3 && NAMES[k] == x ==> NAMES[j] in snapshot
  {
    assert NAMES[1..] == [AgentBinary, CliBinary] && NAMES[1..][1..] == [CliBinary];
    assert NAMES[0] == CoreBinary && NAMES[1] == AgentBinary && NAMES[2] == CliBinary;
    assert GetsTo(snapshot, [CliBinary], x) <==> x == CliBinary;
    assert GetsTo(snapshot, [AgentBinary, CliBinary], x)
        <==> x == AgentBinary || (AgentBinary in snapshot && x == CliBinary);
  }

  /** After a torn copy the automatic restore puts the rubbish live exactly when every name that it puts
      back first was copied before it, whatever the iteration order. */
  lemma TornOutcome(live: Binaries, order: seq<Name>, at: nat, left: Bytes)
    requires IsOrder(order) && CopiedTo(live, order, at)
    ensures Reinstated(live, TornSnapshot(live, order, at, left), NAMES)
            == if PutBackFirst(order, at) then live[order[at] := left] else live
  {
    var snapshot, x := TornSnapshot(live, order, at, left), order[at];
    ReinstatedOdd(live, snapshot, NAMES, x);
    GetsToThird(snapshot, x);
    assert forall n: Name :: n != x ==> (n in snapshot <==> n in order[..at]);
  }

  /** So a failed snapshot leaves the live binaries alone if and only if the torn file is not reached or
      is an intact copy after all. */
  lemma TornHarmlessIff(live: Binaries, order: seq<Name>, at: nat, left: Bytes)
    requires IsOrder(order) && CopiedTo(live, order, at)
    ensures Reinstated(live, TornSnapshot(live, order, at, left), NAMES) == live
            <==> !PutBackFirst(order, at) || left == live[order[at]]
  {
    TornOutcome(live, order, at, left);
    assert live[order[at] := left] == live <==> left == live[order[at]];
  }

  /** A core binary torn in the first iteration always replaces the live one. */
  lemma TornSnapshotReachesLive(live: Binaries, order: seq<Name>, left: Bytes)
    requires IsOrder(order) && order[0] == CoreBinary && CoreBinary in live && left != live[CoreBinary]
    ensures Reinstated(live, TornSnapshot(live, order, 0, left), NAMES) == live[CoreBinary := left] != live
  {
    TornOutcome(live, order, 0, left);
    assert live[CoreBinary := left][CoreBinary] != live[CoreBinary];
  }

  predicate Reached(snapshot: Binaries, names: seq<Name>, k: nat) {
    k < |names| && forall i :: 0 <= i <= k ==> names[i] in snapshot
  }

  /** For any snapshot: the automatic restore leaves the live binaries alone if and only if every file it
      reaches is an intact copy. */
  lemma {:induction false} RestoreHarmlessIffIntact(live: Binaries, snapshot: Binaries, names: seq<Name>)
    requires forall i, j :: 0 <= i < j < |names| ==> names[i] != names[j]
    requires forall n :: n in names ==> n in live
    ensures Reinstated(live, snapshot, names) == live <==>
            (forall k: nat :: Reached(snapshot, names, k) ==> snapshot[names[k]] == live[names[k]])
    decreases |names|
  {
    if names != [] && names[0] in snapshot {
      var next, rest := live[names[0] := snapshot[names[0]]], names[1..];
      RestoreHarmlessIffIntact(next, snapshot, rest);
      ReinstatedKeepsOthers(next, snapshot, rest, names[0]);
      assert Reached(snapshot, names, 0);
      assert forall k: nat :: Reached(snapshot, rest, k) <==> Reached(snapshot, names, k + 1);
      if snapshot[names[0]] == live[names[0]] {
        assert next == live;
        assert forall k: nat :: k > 0 && Reached(snapshot, names, k) ==> Reached(snapshot, rest, k - 1);
      }
    } else {
      assert forall k: nat :: !Reached(snapshot, names, k);
    }
  }

  lemma {:induction false} ReinstatedKeepsOthers(live: Binaries, snapshot: Binaries, names: seq<Name>, n: Name)
    requires n !in names && n in live
    ensures n in Reinstated(live, snapshot, names) && Reinstated(live, snapshot, names)[n] == live[n]
    decreases |names|
  {
    if names != [] && names[0] in snapshot {
      assert names[0] in names;
      ReinstatedKeepsOthers(live[names[0] := snapshot[names[0]]], snapshot, names[1..], n);
    }
  }
}
