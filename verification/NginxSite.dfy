/**
  The Agent's nginx site manager: an available and an enabled file per domain, changed together.
  What the file system and nginx answer to one action is a plan; the manager is the same for all.
*/
module NginxSite {
  import opened Options
  import opened Files

  type Bytes = seq<bv8>

  datatype Action = Upsert | Enable | Disable | Delete | Other

  datatype Plan = Plan(readAvailable: bool, readEnabled: bool, first: Reply, second: Reply, check: bool,
                       undoAvailable: Reply, undoEnabled: Reply)

  /** The two files of one domain. */
  datatype Pair = Pair(available: Option<Bytes>, enabled: Option<Bytes>)

  datatype Result = Result(pair: Pair, ok: bool)

  function Snapshot(file: Option<Bytes>, readable: bool): Option<Bytes> {
    if readable then file else None
  }

  function Changed(action: Action, content: Bytes, plan: Plan, p: Pair): Result {
    match action
    case Upsert =>
      var q := p.(available := Put(p.available, Some(content), plan.first));
      if content == [] then Result(p, false)
      else if !plan.first.Fine? then Result(q, false)
      else
        var e := Put(p.enabled, Some(content), plan.second);
        if plan.second.Fine? then Result(q.(enabled := e), true)
        else Result(Pair(Put(q.available, Snapshot(p.available, plan.readAvailable), plan.undoAvailable), e), false)
    case Enable =>
      if Snapshot(p.available, plan.readAvailable).None? then Result(p, false)
      else Result(p.(enabled := Put(p.enabled, p.available, plan.first)), plan.first.Fine?)
    case Disable => Result(p.(enabled := Put(p.enabled, None, plan.first)), plan.first.Fine?)
    case Delete =>
      var q := p.(enabled := Put(p.enabled, None, plan.first));
      if !plan.first.Fine? then Result(q, false)
      else
        var a := Put(p.available, None, plan.second);
        if plan.second.Fine? then Result(q.(available := a), true)
        else Result(Pair(a, Put(q.enabled, Snapshot(p.enabled, plan.readEnabled), plan.undoEnabled)), false)
    case Other => Result(p, false)
  }

  /** Both files put back as they were read. */
  function Undone(plan: Plan, before: Pair, p: Pair): Pair {
    Pair(Put(p.available, Snapshot(before.available, plan.readAvailable), plan.undoAvailable),
         Put(p.enabled, Snapshot(before.enabled, plan.readEnabled), plan.undoEnabled))
  }

  function Step(action: Action, content: Bytes, plan: Plan, p: Pair): Result {
    var r := Changed(action, content, plan, p);
    if r.ok && !plan.check then Result(Undone(plan, p, r.pair), false) else r
  }

  // ---------------------------------------------------------------- the manager

  predicate Alnum(c: char) {
    'a' <= c <= 'z' || 'A' <= c <= 'Z' || '0' <= c <= '9'
  }

  predicate ValidDomain(domain: string) {
    && 0 < |domain| <= 253 && Alnum(domain[0]) && Alnum(domain[|domain| - 1])
    && (forall i :: 0 <= i < |domain| ==> Alnum(domain[i]) || domain[i] == '.' || domain[i] == '-')
    && (forall i :: 0 < i < |domain| && domain[i] == '.' ==> domain[i - 1] != '.')
  }

  class Manager {
    var available: map<string, Bytes>
    var enabled: map<string, Bytes>

    constructor ()
      ensures available == enabled == map[]
    {
      available, enabled := map[], map[];
    }

    function PairOf(domain: string): Pair
      reads this
    {
      Pair(if domain in available then Some(available[domain]) else None,
           if domain in enabled then Some(enabled[domain]) else None)
    }

    method PutAvailable(domain: string, wanted: Option<Bytes>, reply: Reply)
      modifies this`available
      ensures PairOf(domain) == old(PairOf(domain)).(available := Put(old(PairOf(domain)).available, wanted, reply))
      ensures forall d :: d != domain ==> PairOf(d) == old(PairOf(d))
    {
      if !reply.Refused? {
        available := if wanted.Some? then available[domain := wanted.value] else available - {domain};
      }
    }

    method PutEnabled(domain: string, wanted: Option<Bytes>, reply: Reply)
      modifies this`enabled
      ensures PairOf(domain) == old(PairOf(domain)).(enabled := Put(old(PairOf(domain)).enabled, wanted, reply))
      ensures forall d :: d != domain ==> PairOf(d) == old(PairOf(d))
    {
      if !reply.Refused? {
        enabled := if wanted.Some? then enabled[domain := wanted.value] else enabled - {domain};
      }
    }

    /** One action of a domain; no other domain's files change. */
    method Apply(action: Action, domain: string, content: Bytes, plan: Plan) returns (ok: bool)
      modifies this
      ensures ValidDomain(domain) ==> Result(PairOf(domain), ok) == Step(action, content, plan, old(PairOf(domain)))
      ensures !ValidDomain(domain) ==> !ok && PairOf(domain) == old(PairOf(domain))
      ensures forall d :: d != domain ==> PairOf(d) == old(PairOf(d))
    {
      if !ValidDomain(domain) {
        return false;
      }
      var a := Snapshot(PairOf(domain).available, plan.readAvailable);
      var e := Snapshot(PairOf(domain).enabled, plan.readEnabled);
      match action {
        case Upsert =>
          if content == [] { return false; }
          PutAvailable(domain, Some(content), plan.first);
          if !plan.first.Fine? { return false; }
          PutEnabled(domain, Some(content), plan.second);
          if !plan.second.Fine? {
            PutAvailable(domain, a, plan.undoAvailable);
            return false;
          }
        case Enable =>
          if a.None? { return false; }
          PutEnabled(domain, a, plan.first);
          if !plan.first.Fine? { return false; }
        case Disable =>
          PutEnabled(domain, None, plan.first);
          if !plan.first.Fine? { return false; }
        case Delete =>
          PutEnabled(domain, None, plan.first);
          if !plan.first.Fine? { return false; }
          PutAvailable(domain, None, plan.second);
          if !plan.second.Fine? {
            PutEnabled(domain, e, plan.undoEnabled);
            return false;
          }
        case Other =>
          return false;
      }
      if !plan.check {
        PutAvailable(domain, a, plan.undoAvailable);
        PutEnabled(domain, e, plan.undoEnabled);
        return false;
      }
      return true;
    }
  }

  // ---------------------------------------------------------------- what an error leaves behind

  /** An undo of a file that the action changed, and of one that it did not. */
  predicate Restores(readable: bool, undo: Reply) {
    readable && !undo.Refused?
  }

  predicate Spares(readable: bool, undo: Reply) {
    readable || undo.Refused?
  }

  /** The answers under which an error leaves both files as they were, action by action. */
  predicate Careful(action: Action, plan: Plan) {
    var undone := Restores(plan.readEnabled, plan.undoEnabled);
    match action
    case Upsert =>
      plan.first.Refused?
      || (plan.first.Fine?
          && match plan.second
             case Refused => Restores(plan.readAvailable, plan.undoAvailable)
             case Unsynced => false
             case Fine => plan.check || (Restores(plan.readAvailable, plan.undoAvailable) && undone))
    case Enable =>
      !plan.readAvailable || plan.first.Refused?
      || (plan.first.Fine? && (plan.check || undone))
    case Disable =>
      plan.first.Refused?
      || (plan.first.Fine? && (plan.check || (Spares(plan.readAvailable, plan.undoAvailable) && undone)))
    case Delete =>
      plan.first.Refused?
      || (plan.first.Fine?
          && match plan.second
             case Refused => undone
             case Unsynced => false
             case Fine => plan.check || (Restores(plan.readAvailable, plan.undoAvailable) && undone))
    case Other => true
  }

  /** An enabled site is an available one with the same content. */
  predicate Consistent(p: Pair) {
    p.enabled.Some? ==> p.available == p.enabled
  }

  ghost predicate ErrorsKeepFiles(action: Action, plan: Plan) {
    forall p: Pair, content: Bytes ::
      Consistent(p) && !Step(action, content, plan, p).ok ==> Step(action, content, plan, p).pair == p
  }

  lemma CarefulKeepsFiles(action: Action, plan: Plan, p: Pair, content: Bytes)
    requires Careful(action, plan) && !Step(action, content, plan, p).ok
    ensures Step(action, content, plan, p).pair == p
  {
  }

  /** An error leaves both files as they were, for all files and contents, exactly under those answers. */
  lemma ErrorsKeepFilesIff(action: Action, plan: Plan)
    ensures ErrorsKeepFiles(action, plan) <==> Careful(action, plan)
  {
    if Careful(action, plan) {
      forall p: Pair, content: Bytes | Consistent(p) && !Step(action, content, plan, p).ok
        ensures Step(action, content, plan, p).pair == p {
        CarefulKeepsFiles(action, plan, p, content);
      }
    } else {
      var on, off := Pair(Some([0]), Some([0])), Pair(Some([0]), None);
      var x: Bytes := [1];
      assert Consistent(on) && Consistent(off);
      assert !Step(action, x, plan, on).ok && !Step(action, x, plan, off).ok;
      assert Step(action, x, plan, on).pair != on || Step(action, x, plan, off).pair != off;
    }
  }

  // ---------------------------------------------------------------- what a success leaves

  /** An upsert leaves both files with the content, enabling leaves the enabled file equal to the available
      one, disabling removes the enabled file only and deleting removes both. */
  lemma SuccessLeaves(action: Action, content: Bytes, plan: Plan, p: Pair)
    requires Step(action, content, plan, p).ok
    ensures var q := Step(action, content, plan, p).pair;
            match action
            case Upsert => q == Pair(Some(content), Some(content)) && content != []
            case Enable => q == Pair(p.available, p.available) && p.available.Some?
            case Disable => q == Pair(p.available, None)
            case Delete => q == Pair(None, None)
            case Other => false
  {
  }

  /** With every answer fine an action succeeds exactly when it has something to do. */
  lemma FineSucceeds(action: Action, content: Bytes, plan: Plan, p: Pair)
    requires plan.readAvailable && plan.first.Fine? && plan.second.Fine? && plan.check
    ensures Step(action, content, plan, p).ok
            <==> !action.Other? && (action.Upsert? ==> content != []) && (action.Enable? ==> p.available.Some?)
  {
  }

  /** A valid domain is a plain file name; ordinary host names are valid. */
  lemma DomainIsFileName(domain: string)
    requires ValidDomain(domain)
    ensures '/' !in domain && domain != "." && domain != ".."
    ensures forall i :: 0 <= i < |domain| - 1 ==> !(domain[i] == '.' && domain[i + 1] == '.')
  {
    forall i | 0 <= i < |domain| - 1 ensures !(domain[i] == '.' && domain[i + 1] == '.') {
      assert domain[i + 1] == '.' ==> domain[i + 1 - 1] != '.';
    }
  }

  lemma HostNamesAreValid(a: string, b: string)
    requires a != "" && b != "" && |a| + |b| < 253
    requires (forall i :: 0 <= i < |a| ==> Alnum(a[i])) && (forall i :: 0 <= i < |b| ==> Alnum(b[i]))
    ensures ValidDomain(a + "." + b)
  {
    var d := a + "." + b;
    assert forall i :: 0 <= i < |a| ==> d[i] == a[i];
    assert d[|a|] == '.';
    assert forall i :: |a| < i < |d| ==> d[i] == b[i - |a| - 1];
  }

  // ---------------------------------------------------------------- runs

  datatype Call = Call(action: Action, content: Bytes, plan: Plan)

  function Run(calls: seq<Call>, p: Pair): Pair {
    if calls == [] then p
    else
      var last := calls[|calls| - 1];
      Step(last.action, last.content, last.plan, Run(calls[..|calls| - 1], p)).pair
  }

  /** Whatever a careful action does, an enabled site stays an available one. */
  lemma StepConsistent(action: Action, content: Bytes, plan: Plan, p: Pair)
    requires Consistent(p) && Careful(action, plan)
    ensures Consistent(Step(action, content, plan, p).pair)
  {
  }

  lemma {:induction false} RunConsistent(calls: seq<Call>, p: Pair)
    requires Consistent(p) && forall i :: 0 <= i < |calls| ==> Careful(calls[i].action, calls[i].plan)
    ensures Consistent(Run(calls, p))
  {
    if calls != [] {
      var n := |calls| - 1;
      RunConsistent(calls[..n], p);
      StepConsistent(calls[n].action, calls[n].content, calls[n].plan, Run(calls[..n], p));
    }
  }

  /** One unsynced write is enough: the action reports an error and leaves two different files. */
  lemma UnsyncedWriteSplitsPair(was: Bytes, content: Bytes, plan: Plan)
    requires content != [] && content != was && plan.first.Unsynced?
    ensures var p := Pair(Some(was), Some(was));
            var r := Step(Upsert, content, plan, p);
            Consistent(p) && !r.ok && !Consistent(r.pair)
  {
  }
}
