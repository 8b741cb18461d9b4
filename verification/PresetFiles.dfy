/**
  The files of one protection preset: its jail, the jail it was disabled with, and its filter.  Saving,
  resetting, enabling and disabling write them and put them back when a later step fails.
*/
module PresetFiles {
  import opened Options
  import opened Files
  import opened JailLines
  import opened Jail
  import opened Presets

  datatype State = State(jail: Option<string>, disabled: Option<string>, filter: Option<string>)

  /** What the Agent answers: whether the jail and the kept jail can be read to see what is set, whether
      the two files that change can be read before they do, then to the two changes in order, to the
      configuration test, the restart and the enabling of the service, and to putting files back. */
  datatype Plan = Plan(readJail: bool, readKept: bool, snapFirst: bool, snapSecond: bool,
                       first: Reply, second: Reply, valid: bool, restart: bool, boot: bool,
                       undoFirst: Reply, undoSecond: Reply)

  /** `base` is the preset's jail text; `filter` is absent for a preset without a filter of its own. */
  datatype Preset = Preset(base: string, filter: Option<string>, address: string -> bool)

  datatype Result = Result(files: State, ok: bool)

  datatype Request =
    | Save(input: Settings, auto: bool)
    | Reset
    | SetEnabled(on: bool)

  // ---------------------------------------------------------------- what each request does

  function Target(s: State, disabled: bool): Option<string> {
    if disabled then s.disabled else s.jail
  }

  function PutTarget(s: State, disabled: bool, wanted: Option<string>, reply: Reply): State {
    if disabled then s.(disabled := Put(s.disabled, wanted, reply)) else s.(jail := Put(s.jail, wanted, reply))
  }

  function PutFilter(s: State, preset: Preset, wanted: Option<string>, reply: Reply): State {
    if preset.filter.None? then s else s.(filter := Put(s.filter, wanted, reply))
  }

  /** A file that cannot be read counts as missing. */
  function Snap(file: Option<string>, readable: bool): Option<string> {
    if readable then file else None
  }

  predicate Passes(reload: bool, auto: bool, plan: Plan) {
    !reload || (plan.valid && (auto ==> plan.restart) && plan.boot)
  }

  /** applyPresetFiles: the filter is the first file, the jail or the kept jail the second. */
  function Applied(preset: Preset, s: State, disabled: bool, text: string, reload: bool, auto: bool,
                   plan: Plan): Result {
    var s1 := PutFilter(s, preset, preset.filter, plan.first);
    if preset.filter.Some? && !plan.first.Fine? then Result(s1, false)
    else
      var s2 := PutTarget(s1, disabled, Some(text), plan.second);
      if plan.second.Fine? && Passes(reload, auto, plan) then Result(s2, true)
      else
        var s3 := PutFilter(s2, preset, Snap(s.filter, plan.snapFirst), plan.undoFirst);
        if !plan.second.Fine? then Result(s3, false)
        else Result(PutTarget(s3, disabled, Snap(Target(s, disabled), plan.snapSecond), plan.undoSecond), false)
  }

  /** disableProtectionPreset: the jail is the first file, the kept jail the second. */
  function Disabled(s: State, plan: Plan): Result {
    var jail, kept := Snap(s.jail, plan.snapFirst), Snap(s.disabled, plan.snapSecond);
    var s1 := if jail.Some? then PutTarget(s, true, jail, plan.first) else s;
    if jail.Some? && !plan.first.Fine? then Result(s1, false)
    else
      var s2 := PutTarget(s1, false, None, plan.second);
      if !plan.second.Fine? then Result(PutTarget(s2, true, kept, plan.undoSecond), false)
      else if plan.restart then Result(s2, true)
      else Result(PutTarget(PutTarget(s2, false, jail, plan.undoFirst), true, kept, plan.undoSecond), false)
  }

  /** A preset counts as enabled when its jail can be read. */
  predicate LooksEnabled(s: State, plan: Plan) {
    s.jail.Some? && plan.readJail
  }

  /** The text whose settings count: the jail, the one it was disabled with, or the preset's own. */
  function Current(preset: Preset, s: State, plan: Plan): string {
    if LooksEnabled(s, plan) then s.jail.value
    else if s.disabled.Some? && plan.readKept then s.disabled.value
    else preset.base
  }

  /** Saving writes the jail of an enabled preset and the kept jail of a disabled one. */
  function Saved(preset: Preset, s: State, input: Settings, auto: bool, plan: Plan): Result {
    var settings, on := Normalized(preset.address, Parsed(Current(preset, s, plan)), input), LooksEnabled(s, plan);
    if settings.None? then Result(s, false)
    else Applied(preset, s, !on, RenderedJail(preset.base, settings.value), on, auto, plan)
  }

  function Enabled(preset: Preset, s: State, plan: Plan): Result {
    var text := Reenabled(preset.address, preset.base, Current(preset, s, plan));
    if text.None? then Result(s, false) else Applied(preset, s, false, text.value, true, true, plan)
  }

  function Step(preset: Preset, s: State, request: Request, plan: Plan): Result {
    match request
    case Save(input, auto) => Saved(preset, s, input, auto, plan)
    case Reset => Applied(preset, s, !LooksEnabled(s, plan), preset.base, LooksEnabled(s, plan), true, plan)
    case SetEnabled(on) =>
      if on == LooksEnabled(s, plan) then Result(s, true)
      else if on then Enabled(preset, s, plan)
      else Disabled(s, plan)
  }

  // ---------------------------------------------------------------- errors

  /** A changed file that is put back as it was. */
  predicate Restores(readable: bool, undo: Reply) {
    readable && !undo.Refused?
  }

  /** The answers under which an error while applying leaves all files as they were. */
  predicate ApplyCareful(hasFilter: bool, reload: bool, auto: bool, plan: Plan) {
    var filterBack := !hasFilter || Restores(plan.snapFirst, plan.undoFirst);
    || (hasFilter && plan.first.Refused?)
    || ((hasFilter ==> plan.first.Fine?)
        && match plan.second
           case Refused => filterBack
           case Unsynced => false
           case Fine => Passes(reload, auto, plan) || (filterBack && Restores(plan.snapSecond, plan.undoSecond)))
  }

  /** The answers under which an error while disabling does; a jail that cannot be read is not kept. */
  predicate DisableCareful(plan: Plan) {
    var keptBack := Restores(plan.snapSecond, plan.undoSecond);
    if plan.snapFirst then
      || plan.first.Refused?
      || (plan.first.Fine?
          && match plan.second
             case Refused => keptBack
             case Unsynced => false
             case Fine => plan.restart || (!plan.undoFirst.Refused? && keptBack))
    else
      match plan.second
      case Refused => plan.snapSecond || plan.undoSecond.Refused?
      case Unsynced => false
      case Fine => plan.restart
  }

  lemma AppliedOrKept(preset: Preset, s: State, disabled: bool, text: string, reload: bool, auto: bool, plan: Plan)
    requires ApplyCareful(preset.filter.Some?, reload, auto, plan)
    ensures var r := Applied(preset, s, disabled, text, reload, auto, plan);
            r.files == if r.ok then PutTarget(PutFilter(s, preset, preset.filter, Fine), disabled, Some(text), Fine)
                       else s
  {
  }

  lemma DisabledOrKept(s: State, plan: Plan)
    requires DisableCareful(plan) && s.jail.Some?
    ensures var r := Disabled(s, plan);
            r.files == if r.ok then State(None, if plan.snapFirst then s.jail else s.disabled, s.filter) else s
  {
  }

  ghost predicate ApplyKeepsFiles(preset: Preset, disabled: bool, reload: bool, auto: bool, plan: Plan) {
    forall s: State, text: string ::
      var r := Applied(preset, s, disabled, text, reload, auto, plan); !r.ok ==> r.files == s
  }

  /** An error while applying leaves all files, whatever they hold, exactly under those answers. */
  lemma ApplyKeepsFilesIff(preset: Preset, disabled: bool, reload: bool, auto: bool, plan: Plan)
    ensures ApplyKeepsFiles(preset, disabled, reload, auto, plan)
            <==> ApplyCareful(preset.filter.Some?, reload, auto, plan)
  {
    if ApplyCareful(preset.filter.Some?, reload, auto, plan) {
      forall s: State, text: string
        ensures var r := Applied(preset, s, disabled, text, reload, auto, plan); !r.ok ==> r.files == s {
        AppliedOrKept(preset, s, disabled, text, reload, auto, plan);
      }
    } else {
      var other := if preset.filter.Some? then preset.filter.value + "x" else "";
      var s := State(Some("x"), Some("x"), Some(other));
      var r := Applied(preset, s, disabled, "", reload, auto, plan);
      assert !r.ok && r.files != s;
    }
  }

  ghost predicate DisableKeepsFiles(plan: Plan) {
    forall s: State :: s.jail.Some? && !Disabled(s, plan).ok ==> Disabled(s, plan).files == s
  }

  /** An error while disabling leaves all files, whatever they hold, exactly under those answers. */
  lemma DisableKeepsFilesIff(plan: Plan)
    ensures DisableKeepsFiles(plan) <==> DisableCareful(plan)
  {
    if DisableCareful(plan) {
      forall s: State | s.jail.Some? && !Disabled(s, plan).ok ensures Disabled(s, plan).files == s {
        DisabledOrKept(s, plan);
      }
    } else {
      var s := State(Some(""), Some("x"), None);
      assert !Disabled(s, plan).ok && Disabled(s, plan).files != s;
    }
  }

  predicate Careful(preset: Preset, s: State, request: Request, plan: Plan) {
    match request
    case Save(_, auto) => ApplyCareful(preset.filter.Some?, LooksEnabled(s, plan), auto, plan)
    case Reset => ApplyCareful(preset.filter.Some?, LooksEnabled(s, plan), true, plan)
    case SetEnabled(on) => if on then ApplyCareful(preset.filter.Some?, true, true, plan) else DisableCareful(plan)
  }

  /** A request that fails leaves all three files as they were. */
  lemma ErrorKeepsFiles(preset: Preset, s: State, request: Request, plan: Plan)
    requires Careful(preset, s, request, plan) && !Step(preset, s, request, plan).ok
    ensures Step(preset, s, request, plan).files == s
  {
    var on := LooksEnabled(s, plan);
    match request
    case Save(input, auto) =>
      var settings := Normalized(preset.address, Parsed(Current(preset, s, plan)), input);
      if settings.Some? {
        AppliedOrKept(preset, s, !on, RenderedJail(preset.base, settings.value), on, auto, plan);
      }
    case Reset => AppliedOrKept(preset, s, !on, preset.base, on, true, plan);
    case SetEnabled(wanted) =>
      var text := Reenabled(preset.address, preset.base, Current(preset, s, plan));
      if wanted && text.Some? {
        AppliedOrKept(preset, s, false, text.value, true, true, plan);
      } else if !wanted && on {
        DisabledOrKept(s, plan);
      }
  }

  /** A jail write that fails after the rename: an error is reported, the filter is put back, the new jail
      stays. */
  lemma UnsyncedJailStays(preset: Preset, s: State, disabled: bool, text: string, reload: bool, auto: bool, plan: Plan)
    requires plan.first.Fine? && plan.second.Unsynced? && plan.undoFirst.Fine? && plan.snapFirst
    requires Target(s, disabled) != Some(text)
    ensures var r := Applied(preset, s, disabled, text, reload, auto, plan);
            !r.ok && r.files != s && Target(r.files, disabled) == Some(text) && r.files.filter == s.filter
  {
  }

  // ---------------------------------------------------------------- every jail on disk

  /** A jail file is the preset's own text, as Reset writes it, or the preset rendered with settings that
      were validated. */
  ghost predicate Ours(preset: Preset, file: Option<string>) {
    file.Some? ==> file.value == preset.base || FromSettings(preset.address, preset.base, file.value)
  }

  ghost predicate AllOurs(preset: Preset, s: State) {
    Ours(preset, s.jail) && Ours(preset, s.disabled)
  }

  lemma NormalizedIsOurs(preset: Preset, current: Settings, input: Settings)
    requires Normalized(preset.address, current, input).Some?
    ensures Ours(preset, Some(RenderedJail(preset.base, Normalized(preset.address, current, input).value)))
  {
    NormalizedIsStable(preset.address, current, input);
  }

  lemma AppliedFiles(preset: Preset, s: State, disabled: bool, text: string, reload: bool, auto: bool, plan: Plan)
    ensures var t := Applied(preset, s, disabled, text, reload, auto, plan).files;
            && (t.jail == s.jail || t.jail == Some(text) || t.jail == None)
            && (t.disabled == s.disabled || t.disabled == Some(text) || t.disabled == None)
  {
  }

  lemma DisabledFiles(s: State, plan: Plan)
    ensures var t := Disabled(s, plan).files;
            && (t.jail == s.jail || t.jail == None)
            && (t.disabled == s.disabled || t.disabled == s.jail || t.disabled == None)
  {
  }

  lemma AppliedKeepsOurs(preset: Preset, s: State, disabled: bool, text: string, reload: bool, auto: bool, plan: Plan)
    requires AllOurs(preset, s) && Ours(preset, Some(text))
    ensures AllOurs(preset, Applied(preset, s, disabled, text, reload, auto, plan).files)
  {
    AppliedFiles(preset, s, disabled, text, reload, auto, plan);
  }

  lemma DisabledKeepsOurs(preset: Preset, s: State, plan: Plan)
    requires AllOurs(preset, s)
    ensures AllOurs(preset, Disabled(s, plan).files)
  {
    DisabledFiles(s, plan);
  }

  /** Whatever is answered, every jail file stays one of the two. */
  lemma StepKeepsOurs(preset: Preset, s: State, request: Request, plan: Plan)
    requires AllOurs(preset, s)
    ensures AllOurs(preset, Step(preset, s, request, plan).files)
  {
    var on, current := LooksEnabled(s, plan), Parsed(Current(preset, s, plan));
    match request
    case Save(input, auto) =>
      var settings := Normalized(preset.address, current, input);
      if settings.Some? {
        NormalizedIsOurs(preset, current, input);
        AppliedKeepsOurs(preset, s, !on, RenderedJail(preset.base, settings.value), on, auto, plan);
      }
    case Reset => AppliedKeepsOurs(preset, s, !on, preset.base, on, true, plan);
    case SetEnabled(_) =>
      DisabledKeepsOurs(preset, s, plan);
      var text := Reenabled(preset.address, preset.base, Current(preset, s, plan));
      if text.Some? {
        NormalizedIsOurs(preset, current, map[]);
        AppliedKeepsOurs(preset, s, false, text.value, true, true, plan);
      }
  }

  datatype Call = Call(request: Request, plan: Plan)

  function Run(preset: Preset, calls: seq<Call>): State {
    if calls == [] then State(None, None, None)
    else
      var last := calls[|calls| - 1];
      Step(preset, Run(preset, calls[..|calls| - 1]), last.request, last.plan).files
  }

  /** For every preset, run of requests and combination of answers. */
  lemma {:induction false} RunKeepsOurs(preset: Preset, calls: seq<Call>)
    ensures AllOurs(preset, Run(preset, calls))
  {
    if calls != [] {
      var n := |calls| - 1;
      RunKeepsOurs(preset, calls[..n]);
      StepKeepsOurs(preset, Run(preset, calls[..n]), calls[n].request, calls[n].plan);
    }
  }

  // ---------------------------------------------------------------- what saving saves

  /** A saved text: every managed setting is the validated form of what was given, or else of what the text
      before had; the other settings and the jail's name are the preset's. */
  ghost predicate IsSaved(preset: Preset, before: string, input: Settings, after: string) {
    && (forall k :: k in MANAGED ==>
          Normal(preset.address, KindOf(k), Given(Parsed(before), input, k)) == Some(Lookup(Parsed(after), k)))
    && (forall k :: k !in MANAGED ==> (k in Parsed(after) <==> k in Parsed(preset.base)))
    && (forall k :: k !in MANAGED && k in Parsed(after) ==> Parsed(after)[k] == Parsed(preset.base)[k])
    && ParsedName(after) == ParsedName(preset.base)
  }

  lemma RenderingIsSaved(preset: Preset, before: string, input: Settings, s: Settings)
    requires MANDATORY <= Parsed(preset.base).Keys && Normalized(preset.address, Parsed(before), input) == Some(s)
    ensures IsSaved(preset, before, input, RenderedJail(preset.base, s))
  {
    NormalizedIsStable(preset.address, Parsed(before), input);
    StableIsGood(preset.address, s);
    NormalizedGiven(preset.address, before, input);
    ParsedRendered(preset.base, s);
    forall k | k in MANAGED ensures Lookup(Parsed(RenderedJail(preset.base, s)), k) == s[k] {
      RenderedLookup(preset.address, preset.base, s, k);
    }
  }

  lemma AppliedTarget(preset: Preset, s: State, disabled: bool, text: string, reload: bool, auto: bool, plan: Plan)
    ensures var r := Applied(preset, s, disabled, text, reload, auto, plan);
            r.ok ==> Target(r.files, disabled) == Some(text) && Target(r.files, !disabled) == Target(s, !disabled)
  {
  }

  /** A save that succeeds writes the jail of an enabled preset, or the kept jail of a disabled one, with
      exactly the settings that were given laid over those it had; one with an invalid setting is refused
      and changes nothing. */
  lemma SaveSaves(preset: Preset, s: State, input: Settings, auto: bool, plan: Plan)
    requires MANDATORY <= Parsed(preset.base).Keys
    ensures var r := Step(preset, s, Save(input, auto), plan);
            var before, on := Current(preset, s, plan), LooksEnabled(s, plan);
            && (r.ok ==> Target(r.files, !on).Some? && IsSaved(preset, before, input, Target(r.files, !on).value))
            && (r.ok ==> Target(r.files, on) == Target(s, on))
            && (!GivenValid(preset.address, Parsed(before), input) ==> r == Result(s, false))
  {
    var before, on := Current(preset, s, plan), LooksEnabled(s, plan);
    NormalizedGiven(preset.address, before, input);
    var settings := Normalized(preset.address, Parsed(before), input);
    if settings.Some? {
      RenderingIsSaved(preset, before, input, settings.value);
      AppliedTarget(preset, s, !on, RenderedJail(preset.base, settings.value), on, auto, plan);
    }
  }

  /** With every answer fine a request with valid settings succeeds. */
  predicate AllFine(plan: Plan) {
    plan.first.Fine? && plan.second.Fine? && plan.valid && plan.restart && plan.boot
  }

  lemma FineSucceeds(preset: Preset, s: State, request: Request, plan: Plan)
    requires AllFine(plan)
    requires request.Save? ==> Normalized(preset.address, Parsed(Current(preset, s, plan)), request.input).Some?
    requires request.SetEnabled? ==> Normalized(preset.address, Parsed(Current(preset, s, plan)), map[]).Some?
    ensures Step(preset, s, request, plan).ok
    ensures request == Reset ==>
              Target(Step(preset, s, request, plan).files, !LooksEnabled(s, plan)) == Some(preset.base)
    ensures request == SetEnabled(true) && plan.readJail ==> Step(preset, s, request, plan).files.jail.Some?
    ensures request == SetEnabled(false) && plan.readJail ==> Step(preset, s, request, plan).files.jail.None?
  {
  }

  // ---------------------------------------------------------------- disabling and enabling again

  lemma AppliedText(preset: Preset, s: State, text: string, plan: Plan)
    ensures var r := Applied(preset, s, false, text, true, true, plan); r.ok ==> r.files.jail == Some(text)
  {
  }

  lemma EnabledText(preset: Preset, s: State, plan: Plan)
    requires Enabled(preset, s, plan).ok
    ensures Enabled(preset, s, plan).files.jail == Reenabled(preset.address, preset.base, Current(preset, s, plan))
  {
    AppliedText(preset, s, Reenabled(preset.address, preset.base, Current(preset, s, plan)).value, plan);
  }

  lemma DisabledState(s: State, plan: Plan)
    requires s.jail.Some? && Disabled(s, plan).ok
    ensures Disabled(s, plan).files == State(None, if plan.snapFirst then s.jail else s.disabled, s.filter)
  {
  }

  /** After any run, disabling and enabling again reproduces the jail text if and only if it is a rendering
      with validated settings and the text that enabling goes by has the same settings.  It goes by the jail
      itself if that could be read while disabling and can be read again; and only the preset's own text,
      left by Reset, can be anything but a rendering. */
  lemma DisableThenEnable(preset: Preset, calls: seq<Call>, text: string, p: Plan, q: Plan)
    requires MANDATORY <= Parsed(preset.base).Keys && Run(preset, calls).jail == Some(text)
    requires Disabled(Run(preset, calls), p).ok
    ensures var off := Disabled(Run(preset, calls), p).files;
            && off.jail.None? && off.disabled == (if p.snapFirst then Some(text) else Run(preset, calls).disabled)
            && (p.snapFirst && q.readKept ==> Current(preset, off, q) == text)
            && (Enabled(preset, off, q).ok ==>
                  (Enabled(preset, off, q).files.jail == Some(text)
                   <==> (FromSettings(preset.address, preset.base, text)
                         && SameSettings(preset.address, Current(preset, off, q), text))))
            && (text == preset.base || FromSettings(preset.address, preset.base, text))
  {
    var off := Disabled(Run(preset, calls), p).files;
    RunKeepsOurs(preset, calls);
    DisabledState(Run(preset, calls), p);
    ReenabledIff(preset.address, preset.base, Current(preset, off, q), text);
    if Enabled(preset, off, q).ok {
      EnabledText(preset, off, q);
    }
  }

  /** A jail that cannot be read while it is disabled is deleted and not kept: the request succeeds, and
      enabling falls back to the preset's own settings. */
  lemma UnreadableJailIsLost(preset: Preset, text: string, filter: Option<string>, p: Plan, q: Plan)
    requires p.readJail && !p.snapFirst && p.second.Fine? && p.restart
    ensures var r := Step(preset, State(Some(text), None, filter), SetEnabled(false), p);
            && r == Result(State(None, None, filter), true)
            && Current(preset, r.files, q) == preset.base
  {
  }

  // ---------------------------------------------------------------- the files themselves

  class Store {
    const preset: Preset
    var jail: Option<string>
    var disabled: Option<string>
    var filter: Option<string>

    constructor (preset: Preset)
      ensures this.preset == preset && Now() == State(None, None, None)
    {
      this.preset := preset;
      jail, disabled, filter := None, None, None;
    }

    function Now(): State
      reads this
    {
      State(jail, disabled, filter)
    }

    method WriteFilter(wanted: Option<string>, reply: Reply)
      modifies this`filter
      ensures Now() == PutFilter(old(Now()), preset, wanted, reply)
    {
      if preset.filter.Some? && !reply.Refused? {
        filter := wanted;
      }
    }

    method WriteTarget(toDisabled: bool, wanted: Option<string>, reply: Reply)
      modifies this`jail, this`disabled
      ensures Now() == PutTarget(old(Now()), toDisabled, wanted, reply)
    {
      if reply.Refused? {
        return;
      }
      if toDisabled { disabled := wanted; } else { jail := wanted; }
    }

    method ApplyFiles(toDisabled: bool, text: string, reload: bool, auto: bool, plan: Plan) returns (ok: bool)
      modifies this
      ensures Result(Now(), ok) == Applied(preset, old(Now()), toDisabled, text, reload, auto, plan)
    {
      var oldFilter := Snap(filter, plan.snapFirst);
      var oldTarget := Snap(Target(Now(), toDisabled), plan.snapSecond);
      if preset.filter.Some? {
        WriteFilter(preset.filter, plan.first);
        if !plan.first.Fine? {
          return false;
        }
      }
      WriteTarget(toDisabled, Some(text), plan.second);
      if !plan.second.Fine? {
        WriteFilter(oldFilter, plan.undoFirst);
        return false;
      }
      if !reload {
        return true;
      }
      if !plan.valid || (auto && !plan.restart) || !plan.boot {
        WriteFilter(oldFilter, plan.undoFirst);
        WriteTarget(toDisabled, oldTarget, plan.undoSecond);
        return false;
      }
      return true;
    }

    method Disable(plan: Plan) returns (ok: bool)
      modifies this
      ensures Result(Now(), ok) == Disabled(old(Now()), plan)
    {
      var oldJail, oldKept := Snap(jail, plan.snapFirst), Snap(disabled, plan.snapSecond);
      if oldJail.Some? {
        WriteTarget(true, oldJail, plan.first);
        if !plan.first.Fine? {
          return false;
        }
      }
      WriteTarget(false, None, plan.second);
      if !plan.second.Fine? {
        WriteTarget(true, oldKept, plan.undoSecond);
        return false;
      }
      if !plan.restart {
        WriteTarget(false, oldJail, plan.undoFirst);
        WriteTarget(true, oldKept, plan.undoSecond);
        return false;
      }
      return true;
    }

    method Handle(request: Request, plan: Plan) returns (ok: bool)
      modifies this
      ensures Result(Now(), ok) == Step(preset, old(Now()), request, plan)
    {
      var current, on := Current(preset, Now(), plan), LooksEnabled(Now(), plan);
      var _, values := ParseJail(current);
      match request {
        case Save(input, auto) =>
          var settings := Normalized(preset.address, values, input);
          if settings.None? { return false; }
          var text := RenderPresetJail(preset.base, settings.value);
          ok := ApplyFiles(!on, text, on, auto, plan);
        case Reset =>
          ok := ApplyFiles(!on, preset.base, on, true, plan);
        case SetEnabled(wanted) =>
          if wanted == on { return true; }
          if !wanted {
            ok := Disable(plan);
          } else {
            var settings := Normalized(preset.address, values, map[]);
            if settings.None? { return false; }
            var text := RenderPresetJail(preset.base, settings.value);
            ok := ApplyFiles(false, text, true, true, plan);
          }
      }
    }
  }
}
