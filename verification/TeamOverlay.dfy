/**
  The overlay of a managed team: edits that add, remove, enable and disable entries of a base
  configuration. Workspaces and children follow the same rules, so one side is written once.
 */
module TeamOverlay {
  import opened Prelude

  datatype ChangeOp = Add | Remove | Enable | Disable

  /** One kind of entry in an overlay. */
  datatype Side<T> = Side(added: map<string, T>, removed: set<string>, disabled: set<string>)

  datatype OverlayError =
    | NameRequired | SpecRequired | AlreadyExists(name: string) | DirRequired | RootOpUnsupported

  datatype Edited<T> = Edited(side: Side<T>, warned: bool) | Rejected(error: OverlayError)

  /** How one kind of entry is prepared: its directory made absolute, and whether that may be blank. */
  datatype Rules<!T> = Rules(resolve: T -> T, blankDir: T -> bool)

  function EmptySide<T>(): Side<T> { Side(map[], {}, {}) }

  /** The entries in force: the base without what is removed or disabled, then what is added. */
  function Effective<T>(base: map<string, T>, side: Side<T>, rules: Rules<T>): map<string, T> {
    (map n | n in base && n !in side.removed && n !in side.disabled :: rules.resolve(base[n]))
    + (map n | n in side.added :: rules.resolve(side.added[n]))
  }

  /** One change on one side; `name` as it stands in the request. */
  function Edit<T>(base: map<string, T>, side: Side<T>, op: ChangeOp, name: string, spec: Option<T>,
                   rules: Rules<T>): Edited<T> {
    var n := Trim(name);
    var present := n in Effective(base, side, rules);
    if n == "" then Rejected(NameRequired) else
      match op
      case Add =>
        if spec.None? then Rejected(SpecRequired)
        else if present then Rejected(AlreadyExists(n))
        else if rules.blankDir(rules.resolve(spec.value)) then Rejected(DirRequired)
        else Edited(Side(side.added[n := rules.resolve(spec.value)], side.removed - {n}, side.disabled - {n}), false)
      case Remove =>
        if !present then Edited(side, true)
        else Edited(Side(side.added - {n}, side.removed + {n}, side.disabled - {n}), false)
      case Disable =>
        if !present then Edited(side, true)
        else Edited(side.(disabled := side.disabled + {n}, removed := side.removed - {n}), false)
      case Enable =>
        if n in side.removed then Edited(side.(removed := side.removed - {n}), false)
        else if n in side.disabled then Edited(side.(disabled := side.disabled - {n}), false)
        else Edited(side, true)
  }

  /** An entry is either added or removed, and either removed or disabled, never both. */
  ghost predicate Consistent<T>(side: Side<T>) {
    side.added.Keys !! side.removed && side.removed !! side.disabled
  }

  // ---------- the reference: what one name goes through ----------

  /** What a name stands for: nothing, the base's definition, or one of the overlay's own. */
  datatype Slot<T> = Hidden | FromBase | Own(spec: T)

  function SlotOf<T>(base: map<string, T>, side: Side<T>, n: string): Slot<T> {
    if n in side.added then Own(side.added[n])
    else if n in base && n !in side.removed && n !in side.disabled then FromBase
    else Hidden
  }

  /** An edit as its author means it, on the name alone; none when it is refused. */
  function SlotStep<T>(inBase: bool, slot: Slot<T>, op: ChangeOp, spec: Option<T>, rules: Rules<T>): Option<Slot<T>> {
    match op
    case Add =>
      if spec.Some? && slot.Hidden? && !rules.blankDir(rules.resolve(spec.value))
      then Some(Own(rules.resolve(spec.value))) else None
    case Remove => Some(Hidden)
    case Disable => Some(if slot.Own? then slot else Hidden)
    case Enable => Some(if slot.Hidden? && inBase then FromBase else slot)
  }

  lemma SlotTellsEffect<T>(base: map<string, T>, side: Side<T>, rules: Rules<T>, n: string)
    ensures n in Effective(base, side, rules) <==> !SlotOf(base, side, n).Hidden?
    ensures SlotOf(base, side, n).FromBase? ==> Effective(base, side, rules)[n] == rules.resolve(base[n])
    ensures SlotOf(base, side, n).Own? ==> Effective(base, side, rules)[n] == rules.resolve(SlotOf(base, side, n).spec)
  {}

  /** An edit is refused exactly when its meaning is; otherwise it has that meaning for its name and none for others. */
  lemma EditMeansSlotStep<T>(base: map<string, T>, side: Side<T>, op: ChangeOp, name: string, spec: Option<T>,
                             rules: Rules<T>, m: string)
    requires Consistent(side)
    ensures var n := Trim(name);
            var r := Edit(base, side, op, name, spec, rules);
            && (r.Edited? <==> n != "" && SlotStep(n in base, SlotOf(base, side, n), op, spec, rules).Some?)
            && (r.Edited? ==>
                  && Consistent(r.side)
                  && SlotOf(base, r.side, m)
                     == if m == n then SlotStep(n in base, SlotOf(base, side, n), op, spec, rules).value
                        else SlotOf(base, side, m))
  {
    SlotTellsEffect(base, side, rules, Trim(name));
  }

  // ---------- whole overlays ----------

  datatype Kind = WorkspaceEntry | ChildEntry | RootOrchestrator

  datatype Change<W, C> = Change(kind: Kind, op: ChangeOp, name: string, workspace: Option<W>, child: Option<C>)

  datatype Base<W, C> = Base(workspaces: map<string, W>, children: map<string, C>, rootDisabled: bool)

  datatype Overlay<W, C> = Overlay(rootDisabled: Option<bool>, workspaces: Side<W>, children: Side<C>)

  datatype AllRules<!W, !C> = AllRules(workspaces: Rules<W>, children: Rules<C>)

  datatype Outcome<W, C> = Applied(overlay: Overlay<W, C>) | Refused(error: OverlayError)

  function DefaultOverlay<W, C>(): Overlay<W, C> { Overlay(None, EmptySide(), EmptySide()) }

  function ApplyOne<W, C>(base: Base<W, C>, o: Overlay<W, C>, c: Change<W, C>, rules: AllRules<W, C>): Outcome<W, C> {
    match c.kind
    case WorkspaceEntry =>
      var r := Edit(base.workspaces, o.workspaces, c.op, c.name, c.workspace, rules.workspaces);
      if r.Rejected? then Refused(r.error) else Applied(o.(workspaces := r.side))
    case ChildEntry =>
      var r := Edit(base.children, o.children, c.op, c.name, c.child, rules.children);
      if r.Rejected? then Refused(r.error) else Applied(o.(children := r.side))
    case RootOrchestrator =>
      match c.op
      case Disable => Applied(o.(rootDisabled := Some(true)))
      case Enable => Applied(o.(rootDisabled := Some(false)))
      case _ => Refused(RootOpUnsupported)
  }

  /** A list of changes, all or nothing. */
  function ApplyChanges<W, C>(base: Base<W, C>, o: Overlay<W, C>, changes: seq<Change<W, C>>, rules: AllRules<W,
                              C>): Outcome<W, C> {
    if changes == [] then Applied(o) else
      var before := ApplyChanges(base, o, changes[..|changes| - 1], rules);
      if before.Refused? then before else ApplyOne(base, before.overlay, changes[|changes| - 1], rules)
  }

  function EffectiveRoot<W, C>(base: Base<W, C>, o: Overlay<W, C>): bool {
    if o.rootDisabled.Some? then o.rootDisabled.value else base.rootDisabled
  }

  /** The meaning of a list of changes for every name: a fold of the meanings of its members. */
  datatype Meaning<!W, !C> = Meaning(workspaces: string -> Slot<W>, children: string -> Slot<C>, rootDisabled: bool)

  function BaseMeaning<W, C>(base: Base<W, C>): Meaning<W, C> {
    Meaning(n => if n in base.workspaces then FromBase else Hidden,
            n => if n in base.children then FromBase else Hidden, base.rootDisabled)
  }

  function SetSlot<T>(f: string -> Slot<T>, n: string, slot: Slot<T>): string -> Slot<T> {
    m => if m == n then slot else f(m)
  }

  function MeaningStep<W, C>(base: Base<W, C>, k: Meaning<W, C>, c: Change<W, C>, rules: AllRules<W,
                             C>): Option<Meaning<W, C>> {
    var n := Trim(c.name);
    match c.kind
    case WorkspaceEntry =>
      var next := SlotStep(n in base.workspaces, k.workspaces(n), c.op, c.workspace, rules.workspaces);
      if n == "" || next.None? then None else Some(k.(workspaces := SetSlot(k.workspaces, n, next.value)))
    case ChildEntry =>
      var next := SlotStep(n in base.children, k.children(n), c.op, c.child, rules.children);
      if n == "" || next.None? then None else Some(k.(children := SetSlot(k.children, n, next.value)))
    case RootOrchestrator =>
      if c.op.Disable? then Some(k.(rootDisabled := true))
      else if c.op.Enable? then Some(k.(rootDisabled := false))
      else None
  }

  function MeaningOf<W, C>(base: Base<W, C>, changes: seq<Change<W, C>>, rules: AllRules<W, C>): Option<Meaning<W, C>> {
    if changes == [] then Some(BaseMeaning(base)) else
      var before := MeaningOf(base, changes[..|changes| - 1], rules);
      if before.None? then None else MeaningStep(base, before.value, changes[|changes| - 1], rules)
  }

  /** The overlay stands for the given meaning. */
  ghost predicate StandsFor<W, C>(base: Base<W, C>, o: Overlay<W, C>, k: Meaning<W, C>) {
    && Consistent(o.workspaces) && Consistent(o.children)
    && (forall n :: SlotOf(base.workspaces, o.workspaces, n) == k.workspaces(n))
    && (forall n :: SlotOf(base.children, o.children, n) == k.children(n))
    && EffectiveRoot(base, o) == k.rootDisabled
  }

  lemma ApplyOneStandsFor<W, C>(base: Base<W, C>, o: Overlay<W, C>, k: Meaning<W, C>, c: Change<W, C>,
                                rules: AllRules<W, C>)
    requires StandsFor(base, o, k)
    ensures ApplyOne(base, o, c, rules).Applied? <==> MeaningStep(base, k, c, rules).Some?
    ensures ApplyOne(base, o, c, rules).Applied? ==>
              StandsFor(base, ApplyOne(base, o, c, rules).overlay, MeaningStep(base, k, c, rules).value)
  {
    var n := Trim(c.name);
    match c.kind
    case WorkspaceEntry =>
      assert SlotOf(base.workspaces, o.workspaces, n) == k.workspaces(n);
      forall m {
        EditMeansSlotStep(base.workspaces, o.workspaces, c.op, c.name, c.workspace, rules.workspaces, m);
      }
    case ChildEntry =>
      assert SlotOf(base.children, o.children, n) == k.children(n);
      forall m {
        EditMeansSlotStep(base.children, o.children, c.op, c.name, c.child, rules.children, m);
      }
    case RootOrchestrator =>
  }

  /**
    Folding any list of changes into the default overlay is refused exactly when the list has no meaning,
    and otherwise yields a consistent overlay that stands for that meaning.
   */
  lemma {:induction false} OverlayMeansItsChanges<W, C>(base: Base<W, C>, changes: seq<Change<W, C>>, rules: AllRules<W,
                                                        C>)
    ensures var r := ApplyChanges(base, DefaultOverlay(), changes, rules);
            && (r.Applied? <==> MeaningOf(base, changes, rules).Some?)
            && (r.Applied? ==> StandsFor(base, r.overlay, MeaningOf(base, changes, rules).value))
  {
    if changes == [] {
      assert StandsFor(base, DefaultOverlay(), BaseMeaning(base));
    } else {
      var init := changes[..|changes| - 1];
      OverlayMeansItsChanges(base, init, rules);
      var before := ApplyChanges(base, DefaultOverlay(), init, rules);
      if before.Applied? {
        ApplyOneStandsFor(base, before.overlay, MeaningOf(base, init, rules).value, changes[|changes| - 1], rules);
      }
    }
  }

  // ---------- the effect of one edit on the entries in force ----------

  /**
    Add puts the entry in, Remove takes it out, Disable takes it out unless the overlay itself added it, and
    Enable brings back the base's definition if there is one; no other name is touched.
   */
  lemma EditTakesEffect<T>(base: map<string, T>, side: Side<T>, op: ChangeOp, name: string, spec: Option<T>,
                           rules: Rules<T>)
    requires Consistent(side) && Edit(base, side, op, name, spec, rules).Edited?
    ensures var n := Trim(name);
            var before := Effective(base, side, rules);
            var after := Effective(base, Edit(base, side, op, name, spec, rules).side, rules);
            match op
            case Add => n !in before && after == before[n := rules.resolve(rules.resolve(spec.value))]
            case Remove => after == before - {n}
            case Disable => after == if n in side.added then before else before - {n}
            case Enable => after == if n in base && n !in before then before[n := rules.resolve(base[n])] else before
  {
    var n := Trim(name);
    var edited := Edit(base, side, op, name, spec, rules).side;
    EditKeepsElsewhere(base, side, op, name, spec, rules);
    EditMeansSlotStep(base, side, op, name, spec, rules, n);
    SlotTellsEffect(base, side, rules, n);
    SlotTellsEffect(base, edited, rules, n);
    OneKeyApart(Effective(base, side, rules), Effective(base, edited, rules), n);
  }

  lemma OneKeyApart<T>(before: map<string, T>, after: map<string, T>, n: string)
    requires after - {n} == before - {n}
    ensures n in after ==> after == before[n := after[n]]
    ensures n !in after ==> after == before - {n}
    ensures n in before && n in after && before[n] == after[n] ==> after == before
    ensures n !in before && n !in after ==> after == before
  {
    assert forall m :: m != n && m in before ==> m in before - {n} && (before - {n})[m] == before[m];
    assert forall m :: m != n && m in after ==> m in after - {n} && (after - {n})[m] == after[m];
  }

  lemma EditKeepsElsewhere<T>(base: map<string, T>, side: Side<T>, op: ChangeOp, name: string, spec: Option<T>,
                              rules: Rules<T>)
    requires Consistent(side) && Edit(base, side, op, name, spec, rules).Edited?
    ensures var edited := Edit(base, side, op, name, spec, rules).side;
            Effective(base, edited, rules) - {Trim(name)} == Effective(base, side, rules) - {Trim(name)}
  {
    var edited := Edit(base, side, op, name, spec, rules).side;
    forall m | m != Trim(name) ensures SlotOf(base, edited, m) == SlotOf(base, side, m) {
      EditMeansSlotStep(base, side, op, name, spec, rules, m);
    }
    SameElsewhere(base, side, edited, rules, Trim(name));
  }

  /** Names whose slot is unchanged keep their entry. */
  lemma SameElsewhere<T>(base: map<string, T>, a: Side<T>, b: Side<T>, rules: Rules<T>, n: string)
    requires forall m :: m != n ==> SlotOf(base, b, m) == SlotOf(base, a, m)
    ensures Effective(base, b, rules) - {n} == Effective(base, a, rules) - {n}
  {
    var before, after := Effective(base, a, rules), Effective(base, b, rules);
    forall m | m != n ensures (m in after <==> m in before) && (m in after ==> after[m] == before[m]) {
      SlotTellsEffect(base, a, rules, m);
      SlotTellsEffect(base, b, rules, m);
      assert SlotOf(base, b, m) == SlotOf(base, a, m);
    }
  }

  // ---------- the edits in place ----------

  /** One side of the overlay under edit. */
  class Draft<T> {
    var added: map<string, T>
    var removed: set<string>
    var disabled: set<string>

    ghost function State(): Side<T>
      reads this
    {
      Side(added, removed, disabled)
    }

    constructor (side: Side<T>)
      ensures State() == side
    {
      added, removed, disabled := side.added, side.removed, side.disabled;
    }

    /** A refused change leaves the draft as it was. */
    method ApplyChange(base: map<string, T>, op: ChangeOp, requested: string, spec: Option<T>, rules: Rules<T>)
      returns (error: Option<OverlayError>, warned: bool)
      modifies this
      ensures var r := Edit(base, old(State()), op, requested, spec, rules);
              if r.Edited? then error.None? && State() == r.side && warned == r.warned
              else error == Some(r.error) && State() == old(State())
    {
      warned := false;
      var name := Trim(requested);
      if name == "" {
        return Some(NameRequired), warned;
      }
      var present := name in Effective(base, Side(added, removed, disabled), rules);
      match op {
      case Add =>
        if spec.None? {
          return Some(SpecRequired), warned;
        }
        if present {
          return Some(AlreadyExists(name)), warned;
        }
        var entry := rules.resolve(spec.value);
        if rules.blankDir(entry) {
          return Some(DirRequired), warned;
        }
        added := added[name := entry];
        removed := removed - {name};
        disabled := disabled - {name};
      case Remove =>
        if !present {
          return None, true;
        }
        added := added - {name};
        removed := removed + {name};
        disabled := disabled - {name};
      case Disable =>
        if !present {
          return None, true;
        }
        disabled := disabled + {name};
        removed := removed - {name};
      case Enable =>
        if name in removed {
          removed := removed - {name};
          return None, false;
        }
        if name in disabled {
          disabled := disabled - {name};
          return None, false;
        }
        return None, true;
      }
      return None, false;
    }
  }

  /** The list applied to copies of both sides; the caller's overlay is a value and stays as it is. */
  method ApplyAll<W, C>(base: Base<W, C>, current: Overlay<W, C>, changes: seq<Change<W, C>>, rules: AllRules<W, C>)
    returns (r: Outcome<W, C>)
    ensures r == ApplyChanges(base, current, changes, rules)
  {
    var workspaces := new Draft(current.workspaces);
    var children := new Draft(current.children);
    var rootDisabled := current.rootDisabled;
    for i := 0 to |changes|
      invariant fresh(workspaces) && fresh(children)
      invariant ApplyChanges(base, current, changes[..i], rules)
                == Applied(Overlay(rootDisabled, workspaces.State(), children.State()))
    {
      assert changes[..i + 1][..i] == changes[..i];
      var c := changes[i];
      match c.kind {
        case WorkspaceEntry =>
          var error, _ := workspaces.ApplyChange(base.workspaces, c.op, c.name, c.workspace, rules.workspaces);
          if error.Some? {
            RefusalSticks(base, current, changes, i + 1, rules);
            return Refused(error.value);
          }
        case ChildEntry =>
          var error, _ := children.ApplyChange(base.children, c.op, c.name, c.child, rules.children);
          if error.Some? {
            RefusalSticks(base, current, changes, i + 1, rules);
            return Refused(error.value);
          }
        case RootOrchestrator =>
          if c.op.Disable? {
            rootDisabled := Some(true);
          } else if c.op.Enable? {
            rootDisabled := Some(false);
          } else {
            RefusalSticks(base, current, changes, i + 1, rules);
            return Refused(RootOpUnsupported);
          }
      }
    }
    assert changes[..|changes|] == changes;
    r := Applied(Overlay(rootDisabled, Side(workspaces.added, workspaces.removed, workspaces.disabled),
                         Side(children.added, children.removed, children.disabled)));
  }

  /** Once a prefix is refused, so is the list, for the same reason. */
  lemma {:induction false} RefusalSticks<W, C>(base: Base<W, C>, o: Overlay<W, C>, changes: seq<Change<W, C>>, n: nat,
                                               rules: AllRules<W, C>)
    requires n <= |changes| && ApplyChanges(base, o, changes[..n], rules).Refused?
    ensures ApplyChanges(base, o, changes, rules) == ApplyChanges(base, o, changes[..n], rules)
    decreases |changes|
  {
    if n == |changes| {
      assert changes[..n] == changes;
    } else {
      var init := changes[..|changes| - 1];
      assert init[..n] == changes[..n];
      RefusalSticks(base, o, init, n, rules);
    }
  }
}
