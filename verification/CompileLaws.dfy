/** Compiling a recording and replaying the result does what was recorded. */
module CompileLaws {
  import opened Prelude
  import opened Text
  import opened Canonical
  import opened Locators
  import opened Ranked
  import opened Outputs
  import opened Capabilities
  import opened Compile

  // ----- What is kept of a recording -----

  /** An extract of what the kept extract in front of it has just read. */
  predicate Repeats(prev: RecordedStep, rec: RecordedStep) {
    && rec.name == Extract && prev.name == Extract && prev.outputName == rec.outputName
    && CompiledTarget(prev) == RankedTargetFrom(rec.target)
  }

  /** The recorded steps without extracts of a button and repeated extracts. */
  function Kept(recorded: seq<RecordedStep>): seq<RecordedStep> {
    if recorded == [] then []
    else
      var kept, rec := Kept(recorded[..|recorded| - 1]), recorded[|recorded| - 1];
      if ExtractsAButton(rec) || (kept != [] && Repeats(kept[|kept| - 1], rec)) then kept else kept + [rec]
  }

  /** The compiled step, whatever its number. */
  predicate CompiledFrom(step: Step, rec: RecordedStep) {
    step == CompiledStep(rec, 0).(id := step.id)
  }

  ghost predicate Mirrors(steps: seq<Step>, kept: seq<RecordedStep>) {
    && |steps| == 1 + |kept| && steps[0] == ENTRY
    && forall k | 0 <= k < |kept| :: CompiledFrom(steps[k + 1], kept[k])
  }

  predicate Drops(steps: seq<Step>, rec: RecordedStep) {
    ExtractsAButton(rec) || RepeatsLast(steps, rec)
  }

  lemma RepeatsAgree(steps: seq<Step>, kept: seq<RecordedStep>, rec: RecordedStep)
    requires Mirrors(steps, kept)
    ensures RepeatsLast(steps, rec) <==> kept != [] && Repeats(kept[|kept| - 1], rec)
  {
    hide RankedTargetFrom, RowTemplate, Typed;
    if kept != [] {
      var prev := kept[|kept| - 1];
      assert CompiledFrom(steps[|kept| - 1 + 1], prev);
      RankingIsIdempotent(if prev.target.None? then None else Some(Scoped(prev.target.value, RowTemplate(prev))));
    }
  }

  lemma {:induction false} BindingLeavesSteps(p: Pass, bindings: seq<Binding>)
    ensures BindCells(p, bindings).steps == p.steps
  {
    if bindings != [] {
      BindingLeavesSteps(p, bindings[..|bindings| - 1]);
    }
  }

  lemma AddsOrDrops(p: Pass, rec: RecordedStep, n: nat)
    ensures Add(p, rec, n).steps == if Drops(p.steps, rec) then p.steps else p.steps + [CompiledStep(rec, n)]
    ensures Drops(p.steps, rec) ==> Typed(rec).None? && Add(p, rec, n) == p
  {
    hide CompiledStep, RankedTargetFrom, RowBindings, BindCells;
    var typed := Typed(rec);
    var q := if typed.Some? then BindTyped(p, typed.value) else p;
    BindingLeavesSteps(q, RowBindings(rec));
  }

  /** Keeping and dropping go together with the steps emitted so far. */
  lemma KeepingMatchesDropping(recorded: seq<RecordedStep>)
    requires recorded != [] && Mirrors(CompileAll(recorded[..|recorded| - 1]).steps, Kept(recorded[..|recorded| - 1]))
    ensures var front, rec := recorded[..|recorded| - 1], recorded[|recorded| - 1];
            Kept(recorded) == if Drops(CompileAll(front).steps, rec) then Kept(front) else Kept(front) + [rec]
  {
    hide CompileAll, Mirrors, ExtractsAButton, Repeats, RepeatsLast;
    var front, rec := recorded[..|recorded| - 1], recorded[|recorded| - 1];
    RepeatsAgree(CompileAll(front).steps, Kept(front), rec);
  }

  lemma OneMoreStep(steps: seq<Step>, kept: seq<RecordedStep>, rec: RecordedStep, n: nat)
    requires Mirrors(steps, kept)
    ensures Mirrors(steps + [CompiledStep(rec, n)], kept + [rec])
  {
    hide CompiledFrom;
    NumberDoesNotMatter(rec, n);
  }

  /** Every kept step is compiled, in order, behind the entry navigation. */
  lemma {:induction false} StepsAreTheKeptOnes(recorded: seq<RecordedStep>)
    ensures Mirrors(CompileAll(recorded).steps, Kept(recorded))
  {
    if recorded != [] {
      hide Mirrors, Kept, Drops, Add, CompiledStep;
      var front, rec := recorded[..|recorded| - 1], recorded[|recorded| - 1];
      StepsAreTheKeptOnes(front);
      var p := CompileAll(front);
      AddsOrDrops(p, rec, |recorded|);
      KeepingMatchesDropping(recorded);
      OneMoreStep(p.steps, Kept(front), rec, |recorded|);
    }
  }

  lemma NumberDoesNotMatter(rec: RecordedStep, n: nat)
    ensures CompiledFrom(CompiledStep(rec, n), rec)
  {
    hide CompiledTarget, Typed;
  }

  // ----- What the parameters are bound to -----

  function Bindings(rec: RecordedStep): seq<Binding> {
    (if Typed(rec).Some? then [Typed(rec).value] else []) + RowBindings(rec)
  }

  function AllBindings(recs: seq<RecordedStep>): seq<Binding> {
    if recs == [] then [] else AllBindings(recs[..|recs| - 1]) + Bindings(recs[|recs| - 1])
  }

  /** No parameter name stands for two values. */
  ghost predicate OneValueEach(bs: seq<Binding>) {
    forall b, c | b in bs && c in bs :: b.name == c.name ==> b.value == c.value
  }

  /** The pass has bound exactly these, each parameter declared with the type of its value. */
  ghost predicate Bound(p: Pass, bs: seq<Binding>) {
    && (forall b | b in bs :: b.name in p.values && p.values[b.name] == b.value)
    && (forall n | n in p.values :: exists b | b in bs :: b.name == n)
    && p.seen == p.values.Keys
    && (forall d | d in p.parameters :: d.name in p.values && d.number == ReadsAsNumber(d.name, p.values[d.name]))
    && (forall n | n in p.values :: exists d | d in p.parameters :: d.name == n)
  }

  lemma BindingKeepsBound(p: Pass, bs: seq<Binding>, b: Binding)
    requires Bound(p, bs) && OneValueEach(bs + [b])
    ensures Bound(BindTyped(p, b), bs + [b]) && Bound(BindCell(p, b), bs + [b])
  {
    hide ReadsAsNumber;
    var q := BindTyped(p, b);
    assert b in bs + [b] && forall c | c in bs :: c in bs + [b];
    if b.name in p.seen {
      var c :| c in bs && c.name == b.name;
      assert p.values[b.name] == b.value;
      assert q.values == p.values;
    } else {
      var d := ParamDef(b.name, ReadsAsNumber(b.name, b.value));
      assert d in q.parameters && forall x | x in p.parameters :: x in q.parameters;
      forall x | x in q.parameters
        ensures x.name in q.values && x.number == ReadsAsNumber(x.name, q.values[x.name])
      {
        assert x in p.parameters || x == d;
      }
    }
    assert BindCell(p, b) == q;
  }

  lemma {:induction false} CellsKeepBound(p: Pass, bs: seq<Binding>, cells: seq<Binding>)
    requires Bound(p, bs) && OneValueEach(bs + cells)
    ensures Bound(BindCells(p, cells), bs + cells)
  {
    if cells == [] {
      assert bs + cells == bs;
    } else {
      hide Bound, BindCell;
      var front, last := cells[..|cells| - 1], cells[|cells| - 1];
      assert bs + cells == (bs + front) + [last];
      assert forall b | b in bs + front :: b in bs + cells;
      CellsKeepBound(p, bs, front);
      BindingKeepsBound(BindCells(p, front), bs + front, last);
    }
  }

  lemma MoreKeptMoreBound(kept: seq<RecordedStep>, rec: RecordedStep)
    ensures AllBindings(kept + [rec]) == AllBindings(kept) + Bindings(rec)
    ensures OneValueEach(AllBindings(kept + [rec])) ==> OneValueEach(AllBindings(kept))
  {
    hide Bindings;
    assert (kept + [rec])[..|kept|] == kept;
    assert forall b | b in AllBindings(kept) :: b in AllBindings(kept) + Bindings(rec);
  }

  /** With one value to a name, the parameters end up bound to what the kept steps say. */
  lemma {:induction false} ParametersAreBound(recorded: seq<RecordedStep>)
    requires OneValueEach(AllBindings(Kept(recorded)))
    ensures Bound(CompileAll(recorded), AllBindings(Kept(recorded)))
  {
    if recorded != [] {
      hide Bound, Bindings, AllBindings, OneValueEach, Kept, Drops, Add;
      var front, rec := recorded[..|recorded| - 1], recorded[|recorded| - 1];
      var p, kept := CompileAll(front), Kept(front);
      StepsAreTheKeptOnes(front);
      KeepingMatchesDropping(recorded);
      AddsOrDrops(p, rec, |recorded|);
      MoreKeptMoreBound(kept, rec);
      ParametersAreBound(front);
      if !Drops(p.steps, rec) {
        AddingKeepsBound(p, AllBindings(kept), rec, |recorded|);
      }
    }
  }

  lemma AddingKeepsBound(p: Pass, bs: seq<Binding>, rec: RecordedStep, n: nat)
    requires Bound(p, bs) && OneValueEach(bs + Bindings(rec)) && !Drops(p.steps, rec)
    ensures Bound(Add(p, rec, n), bs + Bindings(rec))
  {
    hide Bound, RowBindings, Typed, BindCells, BindCell, CompiledStep, RankedTargetFrom;
    var typed, rows := Typed(rec), RowBindings(rec);
    var q, cs := p, bs;
    if typed.Some? {
      cs := bs + [typed.value];
      q := BindTyped(p, typed.value);
      assert forall b | b in cs :: b in bs + Bindings(rec);
      BindingKeepsBound(p, bs, typed.value);
    }
    assert q.steps == p.steps;
    assert bs + Bindings(rec) == cs + rows;
    CellsKeepBound(q, cs, rows);
    var r := BindCells(q, rows);
    StepsDoNotMatter(r, cs + rows, r.steps + [CompiledStep(rec, n)]);
  }

  lemma StepsDoNotMatter(p: Pass, bs: seq<Binding>, steps: seq<Step>)
    requires Bound(p, bs)
    ensures Bound(p.(steps := steps), bs)
  {
    hide ReadsAsNumber;
  }

  // ----- Replaying what was compiled -----

  ghost predicate TokenFreeScope(scope: Scope) {
    match scope
    case Row(texts) => forall t | t in texts :: TokenFree(t)
    case Region(heading) => TokenFree(heading)
  }

  ghost predicate TokenFreeLocator(l: Locator) {
    && TokenFree(l.name.Or("")) && TokenFree(l.text.Or("")) && TokenFree(l.selector.Or(""))
    && TokenFree(l.row.Or("")) && TokenFree(l.cell.Or(""))
    && (l.scope.Some? ==> TokenFreeScope(l.scope.value))
  }

  /** Nothing in the control sought, or in the raw cells that stand for its row, reads as a token. */
  ghost predicate TokenFreeStep(rec: RecordedStep) {
    && (rec.target.Some? ==> TokenFreeLocator(Sought(rec.target.value)))
    && forall t | t in RawTexts(rec) :: TokenFree(t)
  }

  /** The row the replayed control is looked for in: its own scope, or else the recorded row's cells. */
  function ScopeRecorded(rec: RecordedStep): Option<Scope>
    requires rec.target.Some?
  {
    if rec.target.value.primary.scope.Some? then rec.target.value.primary.scope else RowRecorded(rec)
  }

  /** Same action, value and output, on the control sought, in the recorded row. */
  ghost predicate ReplaysAs(action: Action, rec: RecordedStep) {
    && action.name == rec.name && action.value == rec.value && action.outputName == rec.outputName
    && action.url.None? && action.key.None?
    && (rec.target.None? <==> action.target.None?)
    && (rec.target.Some? ==> action.target.value.primary == Sought(rec.target.value).(scope := ScopeRecorded(rec)))
  }

  ghost predicate BoundTo(values: map<string, string>, bs: seq<Binding>) {
    forall b | b in bs :: b.name in values && values[b.name] == b.value
  }

  /** Every one of these names has a value, its own or another. */
  ghost predicate Supplied(values: map<string, string>, bs: seq<Binding>) {
    forall b | b in bs :: b.name in values
  }

  /** What the names of these bindings stand for in the end. */
  function Now(bindings: seq<Binding>, values: map<string, string>): (r: seq<string>)
    ensures |r| == |bindings|
  {
    seq(|bindings|, i requires 0 <= i < |bindings| => if bindings[i].name in values then values[bindings[i].name] else "")
  }

  lemma TokensExpand(bindings: seq<Binding>, raw: seq<string>, values: map<string, string>)
    requires Supplied(values, bindings) && (forall b | b in bindings :: b.name in {"merchant", "last4", "memberId"})
    requires forall t | t in raw :: TokenFree(t)
    ensures ExpandAll(Tokens(bindings) + raw, values) == Now(bindings, values) + raw
  {
    hide ExpandParams, TokenFree;
    var texts := Tokens(bindings) + raw;
    forall i | 0 <= i < |texts|
      ensures ExpandParams(texts[i], values) == (Now(bindings, values) + raw)[i]
    {
      if i < |bindings| {
        var name := bindings[i].name;
        assert bindings[i] in bindings;
        KeysAreIdentifiers(name);
        TokenExpandsToItsValue(name, values);
      } else {
        assert texts[i] in raw;
        TokenFreeExpandsToItself(texts[i], values);
      }
    }
  }

  /** The final values are the recorded ones exactly when each binding holds. */
  lemma NowIsThen(bindings: seq<Binding>, raw: seq<string>, values: map<string, string>)
    requires Supplied(values, bindings)
    ensures Now(bindings, values) + raw == Values(bindings) + raw <==> BoundTo(values, bindings)
  {
    var now, then' := Now(bindings, values) + raw, Values(bindings) + raw;
    assert forall i | 0 <= i < |bindings| :: now[i] == Now(bindings, values)[i] && then'[i] == Values(bindings)[i];
    if now == then' {
      forall b | b in bindings
        ensures values[b.name] == b.value
      {
        var i :| 0 <= i < |bindings| && bindings[i] == b;
        assert now[i] == then'[i];
      }
    } else if BoundTo(values, bindings) {
      forall i | 0 <= i < |bindings|
        ensures now[i] == then'[i]
      {
        assert bindings[i] in bindings;
      }
      assert false;
    }
  }

  lemma KeysAreIdentifiers(name: string)
    requires name in {"merchant", "last4", "memberId"}
    ensures Identifier(name)
  {
    assert name[0] in {'m', 'l'};
  }

  /** The tokens that stand for the recorded row expand to its cells exactly when those are the final values. */
  lemma RowTemplateExpands(rec: RecordedStep, values: map<string, string>)
    requires Supplied(values, RowBindings(rec)) && forall t | t in RawTexts(rec) :: TokenFree(t)
    ensures RowTemplate(rec).None? <==> RowRecorded(rec).None?
    ensures RowTemplate(rec).None? ==> RowBindings(rec) == []
    ensures RowTemplate(rec).Some? ==>
              && ExpandScope(RowTemplate(rec).value, values) == Row(Now(RowBindings(rec), values) + RawTexts(rec))
              && (ExpandScope(RowTemplate(rec).value, values) == RowRecorded(rec).value <==> BoundTo(values, RowBindings(rec)))
  {
    hide ExpandParams, TokenFree, CellBindings, PicksARow;
    TokensExpand(RowBindings(rec), RawTexts(rec), values);
    NowIsThen(RowBindings(rec), RawTexts(rec), values);
  }

  lemma TokenFreeScopeStays(scope: Scope, values: map<string, string>)
    requires TokenFreeScope(scope)
    ensures ExpandScope(scope, values) == scope
  {
    hide ExpandParams, TokenFree;
    match scope
    case Row(texts) =>
      forall i | 0 <= i < |texts|
        ensures ExpandParams(texts[i], values) == texts[i]
      {
        assert texts[i] in texts;
        TokenFreeExpandsToItself(texts[i], values);
      }
      assert ExpandAll(texts, values) == texts;
    case Region(heading) => TokenFreeExpandsToItself(heading, values);
  }

  lemma TokenFreeLocatorStays(l: Locator, values: map<string, string>)
    requires TokenFreeLocator(l)
    ensures ExpandLocator(l, values) == l
  {
    hide ExpandParams, TokenFree, ExpandScope, TokenFreeScope;
    forall s | s in [l.name, l.text, l.selector, l.row, l.cell]
      ensures ExpandOption(s, values) == s
    {
      TokenFreeExpandsToItself(s.Or(""), values);
    }
    assert forall s | s in {l.name, l.text, l.selector, l.row, l.cell} :: s in [l.name, l.text, l.selector, l.row, l.cell];
    if l.scope.Some? {
      TokenFreeScopeStays(l.scope.value, values);
    }
  }

  /** A row scope does not change which control is sought. */
  lemma ScopingSeeksTheSame(t: Target, scope: Option<Scope>)
    ensures Sought(Scoped(t, scope)) == Sought(t).(scope := Scoped(t, scope).primary.scope)
  {
  }

  /** Every control is replayed as the one sought, in its own scope or in the row its tokens stand for. */
  lemma TargetReplays(rec: RecordedStep, values: map<string, string>)
    requires rec.target.Some? && TokenFreeStep(rec) && Supplied(values, RowBindings(rec))
    ensures var t := ExpandTarget(CompiledTarget(rec), values);
            && t.Some? && t.value.primary == Sought(rec.target.value).(scope := t.value.primary.scope)
            && (t.value.primary.scope == ScopeRecorded(rec) <==>
                rec.target.value.primary.scope.None? ==> BoundTo(values, RowBindings(rec)))
            && (rec.target.value.primary.scope.None? && RowBindings(rec) != [] ==>
                t.value.primary.scope == Some(Row(Now(RowBindings(rec), values) + RawTexts(rec))))
  {
    hide ExpandParams, TokenFree, RankedTargetFrom, RowBindings, RawTexts, ExpandScope, TokenFreeScope, Sought;
    var scoped := Scoped(rec.target.value, RowTemplate(rec));
    RankingSeeksTheControl(scoped);
    ScopingSeeksTheSame(rec.target.value, RowTemplate(rec));
    TokenFreeLocatorStays(Sought(rec.target.value), values);
    if rec.target.value.primary.scope.None? {
      RowTemplateExpands(rec, values);
    }
  }

  /** The control has a row of its own to be found in only through the recorded row. */
  predicate Unscoped(rec: RecordedStep) {
    rec.target.Some? && rec.target.value.primary.scope.None?
  }

  /** The bindings the replayed action shows: what was typed, and the cells that pick the row. */
  function Telling(rec: RecordedStep): (r: seq<Binding>)
    ensures forall b | b in r :: b in Bindings(rec)
  {
    (if Typed(rec).Some? then [Typed(rec).value] else []) + if Unscoped(rec) then RowBindings(rec) else []
  }

  lemma TellingIsBoth(rec: RecordedStep, values: map<string, string>)
    ensures BoundTo(values, Telling(rec)) <==>
            && (Typed(rec).Some? ==> BoundTo(values, [Typed(rec).value]))
            && (Unscoped(rec) ==> BoundTo(values, RowBindings(rec)))
  {
    hide Typed, RowBindings, Unscoped;
    if Typed(rec).Some? {
      assert Typed(rec).value in Telling(rec);
    }
    if Unscoped(rec) {
      assert forall b | b in RowBindings(rec) :: b in Telling(rec);
    }
  }

  /** A compiled step, materialised, is the recorded action exactly when each binding it shows is the final one. */
  lemma StepReplaysExactly(step: Step, rec: RecordedStep, values: map<string, string>)
    requires CompiledFrom(step, rec) && TokenFreeStep(rec) && Supplied(values, Bindings(rec))
    ensures ReplaysAs(Materialize(step, values), rec) <==> BoundTo(values, Telling(rec))
  {
    hide TokenFree, RankedTargetFrom, RowBindings, RawTexts, ExpandScope, ExpandParams, TokenFreeScope, Sought,
      ParamName, Telling;
    var typed := Typed(rec);
    assert forall b | b in RowBindings(rec) :: b in Bindings(rec);
    TellingIsBoth(rec, values);
    if typed.Some? {
      assert typed.value in Bindings(rec) && typed.value in [typed.value];
      assert step.inputFrom == Some(PARAMETERS + typed.value.name);
      assert (PARAMETERS + typed.value.name)[|PARAMETERS|..] == typed.value.name;
    }
    RankingKeepsPresence(if rec.target.None? then None else Some(Scoped(rec.target.value, RowTemplate(rec))));
    if rec.target.Some? {
      TargetReplays(rec, values);
    }
  }

  lemma RankingKeepsPresence(t: Option<Target>)
    ensures RankedTargetFrom(t).Some? <==> t.Some?
  {
    hide HasFullChain;
  }

  /** A compiled capability takes its own recording as input exactly when no recorded value is blank. */
  lemma RecordingIsAcceptedUnlessBlank(recorded: seq<RecordedStep>)
    requires OneValueEach(AllBindings(Kept(recorded)))
    ensures var p := CompileAll(recorded);
            InputsAccepted(p.parameters, p.values) <==> forall b | b in AllBindings(Kept(recorded)) :: Trim(b.value) != ""
  {
    hide CompileAll, Kept, AllBindings, Trim, IsNumeral;
    var p, bs := CompileAll(recorded), AllBindings(Kept(recorded));
    ParametersAreBound(recorded);
    forall d | d in p.parameters && d.number
      ensures IsNumeral(Trim(p.values[d.name]))
    {
      DigitsAreNumerals(d.name, p.values[d.name]);
    }
    if InputsAccepted(p.parameters, p.values) {
      forall b | b in bs
        ensures Trim(b.value) != ""
      {
        assert b.name in p.values;
        var d :| d in p.parameters && d.name == b.name;
      }
    }
    if forall b | b in bs :: Trim(b.value) != "" {
      forall d | d in p.parameters
        ensures Trim(p.values[d.name]) != ""
      {
        var b :| b in bs && b.name == d.name;
      }
    }
  }

  lemma DigitsAreNumerals(name: string, value: string)
    requires ReadsAsNumber(name, value)
    ensures IsNumeral(Trim(value))
  {
    hide Trim;
    assert value[0] in value && value[|value| - 1] in value;
    TrimOfTight(value);
    BeforeDotOf(value, "");
    assert value + "" == value;
  }

  // ----- What a name stands for in the end -----

  /** What was last typed for a name; cells never replace a typed value. */
  function LastTyped(recorded: seq<RecordedStep>, name: string): Option<string> {
    if recorded == [] then None
    else
      var typed := Typed(recorded[|recorded| - 1]);
      if typed.Some? && typed.value.name == name then Some(typed.value.value)
      else LastTyped(recorded[..|recorded| - 1], name)
  }

  lemma {:induction false} CellsNeverReplace(p: Pass, bindings: seq<Binding>, name: string)
    requires name in p.values
    ensures name in BindCells(p, bindings).values && BindCells(p, bindings).values[name] == p.values[name]
  {
    if bindings != [] {
      CellsNeverReplace(p, bindings[..|bindings| - 1], name);
    }
  }

  lemma {:induction false} TypedValuesWin(recorded: seq<RecordedStep>, name: string)
    requires LastTyped(recorded, name).Some?
    ensures name in CompileAll(recorded).values && CompileAll(recorded).values[name] == LastTyped(recorded, name).value
  {
    hide RowBindings, BindCells, CompiledStep, ExtractsAButton, RepeatsLast, Typed;
    var front, rec := recorded[..|recorded| - 1], recorded[|recorded| - 1];
    var p, typed := CompileAll(front), Typed(rec);
    var q := if typed.Some? then BindTyped(p, typed.value) else p;
    if !(typed.Some? && typed.value.name == name) {
      TypedValuesWin(front, name);
    }
    CellsNeverReplace(q, RowBindings(rec), name);
  }

  lemma {:induction false} KeptWasRecorded(recorded: seq<RecordedStep>, rec: RecordedStep)
    requires rec in Kept(recorded)
    ensures rec in recorded
  {
    hide Repeats, ExtractsAButton;
    if rec != recorded[|recorded| - 1] {
      KeptWasRecorded(recorded[..|recorded| - 1], rec);
    }
  }

  lemma {:induction false} TypedHasALast(recorded: seq<RecordedStep>, rec: RecordedStep)
    requires rec in recorded && Typed(rec).Some?
    ensures LastTyped(recorded, Typed(rec).value.name).Some?
  {
    hide Typed;
    if rec != recorded[|recorded| - 1] {
      TypedHasALast(recorded[..|recorded| - 1], rec);
    }
  }

  function FirstNamed(bs: seq<Binding>, name: string): Option<string> {
    if bs == [] then None
    else
      var first := FirstNamed(bs[..|bs| - 1], name);
      if first.Some? then first else if bs[|bs| - 1].name == name then Some(bs[|bs| - 1].value) else None
  }

  /** The first cell, in the order of the steps, under a header for that name. */
  function FirstCell(kept: seq<RecordedStep>, name: string): Option<string> {
    if kept == [] then None
    else
      var first := FirstCell(kept[..|kept| - 1], name);
      if first.Some? then first else FirstNamed(RowBindings(kept[|kept| - 1]), name)
  }

  /** The one value replay has for a name: what was last typed for it, else its first cell. */
  function FinalValue(recorded: seq<RecordedStep>, name: string): Option<string> {
    if LastTyped(recorded, name).Some? then LastTyped(recorded, name) else FirstCell(Kept(recorded), name)
  }

  lemma {:induction false} CellsFillIn(p: Pass, bs: seq<Binding>, name: string)
    ensures Lookup(BindCells(p, bs).values, name) == if name in p.values then Some(p.values[name]) else FirstNamed(bs, name)
  {
    if bs != [] {
      CellsFillIn(p, bs[..|bs| - 1], name);
    }
  }

  lemma AddedValue(p: Pass, rec: RecordedStep, n: nat, name: string)
    requires !Drops(p.steps, rec)
    ensures Lookup(Add(p, rec, n).values, name)
            == if Typed(rec).Some? && Typed(rec).value.name == name then Some(Typed(rec).value.value)
               else if name in p.values then Some(p.values[name])
               else FirstNamed(RowBindings(rec), name)
  {
    hide RowBindings, BindCells, CompiledStep, CompiledTarget, Typed, FirstNamed;
    var typed := Typed(rec);
    CellsFillIn(if typed.Some? then BindTyped(p, typed.value) else p, RowBindings(rec), name);
  }

  lemma {:induction false} ValuesAreFinal(recorded: seq<RecordedStep>, name: string)
    ensures Lookup(CompileAll(recorded).values, name) == FinalValue(recorded, name)
  {
    if recorded != [] {
      hide RowBindings, Add, Drops, Typed, Kept, FirstNamed;
      var front, rec := recorded[..|recorded| - 1], recorded[|recorded| - 1];
      var p := CompileAll(front);
      ValuesAreFinal(front, name);
      StepsAreTheKeptOnes(front);
      KeepingMatchesDropping(recorded);
      if Drops(p.steps, rec) {
        AddsOrDrops(p, rec, |recorded|);
      } else {
        AddedValue(p, rec, |recorded|, name);
        assert (Kept(front) + [rec])[..|Kept(front)|] == Kept(front);
      }
    }
  }

  /** Each of these bindings gives its name the value it ends up with. */
  ghost predicate AreFinal(recorded: seq<RecordedStep>, bs: seq<Binding>) {
    forall b | b in bs :: FinalValue(recorded, b.name) == Some(b.value)
  }

  lemma BoundMeansFinal(recorded: seq<RecordedStep>, bs: seq<Binding>)
    ensures BoundTo(CompileAll(recorded).values, bs) <==> AreFinal(recorded, bs)
  {
    hide CompileAll, FinalValue;
    forall b | b in bs
      ensures Lookup(CompileAll(recorded).values, b.name) == FinalValue(recorded, b.name)
    {
      ValuesAreFinal(recorded, b.name);
    }
  }

  lemma {:induction false} FirstOfMany(bs: seq<Binding>, b: Binding)
    requires b in bs
    ensures FirstNamed(bs, b.name).Some?
  {
    if b != bs[|bs| - 1] {
      FirstOfMany(bs[..|bs| - 1], b);
    }
  }

  lemma {:induction false} CellsAreSupplied(kept: seq<RecordedStep>, rec: RecordedStep, b: Binding)
    requires rec in kept && b in RowBindings(rec)
    ensures FirstCell(kept, b.name).Some?
  {
    hide RowBindings;
    if rec != kept[|kept| - 1] {
      CellsAreSupplied(kept[..|kept| - 1], rec, b);
    } else {
      FirstOfMany(RowBindings(rec), b);
    }
  }

  lemma KeptIsSupplied(recorded: seq<RecordedStep>, rec: RecordedStep)
    requires rec in Kept(recorded)
    ensures Supplied(CompileAll(recorded).values, Bindings(rec))
  {
    hide CompileAll, Kept, Typed, RowBindings, LastTyped;
    KeptWasRecorded(recorded, rec);
    forall b | b in Bindings(rec)
      ensures b.name in CompileAll(recorded).values
    {
      ValuesAreFinal(recorded, b.name);
      if b in RowBindings(rec) {
        CellsAreSupplied(Kept(recorded), rec, b);
      } else {
        TypedHasALast(recorded, rec);
      }
    }
  }

  /** The steps behind the entry navigation, materialised, are the recorded actions in order. */
  ghost predicate ReplaysAll(recorded: seq<RecordedStep>) {
    var p, kept := CompileAll(recorded), Kept(recorded);
    && |p.steps| == 1 + |kept| && p.steps[0] == ENTRY
    && forall k | 0 <= k < |kept| :: ReplaysAs(Materialize(p.steps[k + 1], p.values), kept[k])
  }

  lemma StepReplaysIfFinal(recorded: seq<RecordedStep>, k: nat)
    requires k < |Kept(recorded)| && TokenFreeStep(Kept(recorded)[k])
    ensures var p, rec := CompileAll(recorded), Kept(recorded)[k];
            k + 1 < |p.steps| && (ReplaysAs(Materialize(p.steps[k + 1], p.values), rec) <==> AreFinal(recorded, Telling(rec)))
  {
    hide CompileAll, Kept, CompiledFrom, TokenFreeStep, ReplaysAs, Materialize, Bindings, Telling;
    var p, rec := CompileAll(recorded), Kept(recorded)[k];
    StepsAreTheKeptOnes(recorded);
    KeptIsSupplied(recorded, rec);
    StepReplaysExactly(p.steps[k + 1], rec, p.values);
    BoundMeansFinal(recorded, Telling(rec));
  }

  /**
   * Compile, then replay: the steps behind the entry navigation, materialised with the recorded values, are the
   * recorded actions in order - minus extracts of a button and repeats of the extract just emitted - if and only
   * if each value typed, and each cell that picks a row, is the one its name stands for in the end.
   */
  lemma ReplaysExactlyWhenFinal(recorded: seq<RecordedStep>)
    requires forall rec | rec in Kept(recorded) :: TokenFreeStep(rec)
    ensures ReplaysAll(recorded) <==> forall rec | rec in Kept(recorded) :: AreFinal(recorded, Telling(rec))
  {
    hide CompileAll, Kept, TokenFreeStep, ReplaysAs, Materialize, AreFinal, Telling;
    var p, kept := CompileAll(recorded), Kept(recorded);
    StepsAreTheKeptOnes(recorded);
    forall k | 0 <= k < |kept|
      ensures ReplaysAs(Materialize(p.steps[k + 1], p.values), kept[k]) <==> AreFinal(recorded, Telling(kept[k]))
    {
      StepReplaysIfFinal(recorded, k);
    }
    if ReplaysAll(recorded) {
      forall rec | rec in kept
        ensures AreFinal(recorded, Telling(rec))
      {
        var k :| 0 <= k < |kept| && kept[k] == rec;
        assert ReplaysAs(Materialize(p.steps[k + 1], p.values), kept[k]);
      }
    }
  }

  // ----- In terms of one value to a name -----

  lemma {:induction false} FirstNamedIsThere(bs: seq<Binding>, name: string)
    requires FirstNamed(bs, name).Some?
    ensures Binding(name, FirstNamed(bs, name).value) in bs
  {
    if FirstNamed(bs[..|bs| - 1], name).Some? {
      FirstNamedIsThere(bs[..|bs| - 1], name);
    }
  }

  lemma {:induction false} FirstCellIsThere(kept: seq<RecordedStep>, name: string)
    requires FirstCell(kept, name).Some?
    ensures Binding(name, FirstCell(kept, name).value) in AllBindings(kept)
  {
    hide RowBindings, Typed;
    var front := kept[..|kept| - 1];
    if FirstCell(front, name).Some? {
      FirstCellIsThere(front, name);
    } else {
      FirstNamedIsThere(RowBindings(kept[|kept| - 1]), name);
    }
  }

  /** Typing is never dropped. */
  lemma {:induction false} LastTypedIsThere(recorded: seq<RecordedStep>, name: string)
    requires LastTyped(recorded, name).Some?
    ensures Binding(name, LastTyped(recorded, name).value) in AllBindings(Kept(recorded))
  {
    hide RowBindings, CompiledTarget;
    var front, rec := recorded[..|recorded| - 1], recorded[|recorded| - 1];
    MoreKeptMoreBound(Kept(front), rec);
    if Typed(rec).Some? && Typed(rec).value.name == name {
      assert Kept(recorded) == Kept(front) + [rec];
      assert Typed(rec).value in Bindings(rec);
    } else {
      LastTypedIsThere(front, name);
      assert Kept(recorded) == Kept(front) || Kept(recorded) == Kept(front) + [rec];
    }
  }

  lemma FinalIsThere(recorded: seq<RecordedStep>, name: string)
    requires FinalValue(recorded, name).Some?
    ensures Binding(name, FinalValue(recorded, name).value) in AllBindings(Kept(recorded))
  {
    hide Kept, AllBindings;
    if LastTyped(recorded, name).Some? {
      LastTypedIsThere(recorded, name);
    } else {
      FirstCellIsThere(Kept(recorded), name);
    }
  }

  lemma {:induction false} AllBindingsAreOfSteps(kept: seq<RecordedStep>, b: Binding)
    ensures b in AllBindings(kept) <==> exists rec :: rec in kept && b in Bindings(rec)
  {
    hide Bindings;
    if kept != [] {
      var front, last := kept[..|kept| - 1], kept[|kept| - 1];
      AllBindingsAreOfSteps(front, b);
      assert forall rec | rec in kept :: rec in front || rec == last;
      assert last in kept;
    }
  }

  /** One value to a name is the same as every binding being final. */
  lemma OneValueMeansFinal(recorded: seq<RecordedStep>)
    ensures OneValueEach(AllBindings(Kept(recorded))) <==> forall rec | rec in Kept(recorded) :: AreFinal(recorded, Bindings(rec))
  {
    hide Kept, AllBindings, Bindings, FinalValue, CompileAll;
    var kept := Kept(recorded);
    var bs := AllBindings(kept);
    forall b
      ensures b in bs <==> exists rec :: rec in kept && b in Bindings(rec)
    {
      AllBindingsAreOfSteps(kept, b);
    }
    if OneValueEach(bs) {
      forall rec, b | rec in kept && b in Bindings(rec)
        ensures FinalValue(recorded, b.name) == Some(b.value)
      {
        KeptIsSupplied(recorded, rec);
        ValuesAreFinal(recorded, b.name);
        FinalIsThere(recorded, b.name);
      }
    }
  }

  /**
   * With one value to a name, every recording replays. Where each row cell that is lifted picks the row of an
   * unscoped control, nothing else does.
   */
  lemma ReplayDoesWhatWasRecorded(recorded: seq<RecordedStep>)
    requires forall rec | rec in Kept(recorded) :: TokenFreeStep(rec)
    ensures OneValueEach(AllBindings(Kept(recorded))) ==> ReplaysAll(recorded)
    ensures (forall rec | rec in Kept(recorded) :: RowBindings(rec) != [] ==> Unscoped(rec)) ==>
              (ReplaysAll(recorded) <==> OneValueEach(AllBindings(Kept(recorded))))
  {
    hide Kept, AllBindings, TokenFreeStep, ReplaysAll, OneValueEach, FinalValue, Typed, RowBindings, Unscoped;
    ReplaysExactlyWhenFinal(recorded);
    OneValueMeansFinal(recorded);
    if forall rec | rec in Kept(recorded) :: RowBindings(rec) != [] ==> Unscoped(rec) {
      assert forall rec | rec in Kept(recorded) :: Telling(rec) == Bindings(rec);
    }
  }

  // ----- When a name stands for two values -----

  /**
   * In general, a typed step replays the last value typed for its parameter: its own if and only if nothing
   * else was typed for that parameter later.
   */
  lemma TypedStepReplaysTheLastValue(recorded: seq<RecordedStep>, k: nat)
    requires k < |Kept(recorded)| && Typed(Kept(recorded)[k]).Some?
    ensures k + 1 < |CompileAll(recorded).steps| && LastTyped(recorded, Typed(Kept(recorded)[k]).value.name).Some?
    ensures var p, rec := CompileAll(recorded), Kept(recorded)[k];
            var replayed, last := Materialize(p.steps[k + 1], p.values).value, LastTyped(recorded, Typed(rec).value.name);
            replayed.Some? && replayed == last
  {
    hide CompileAll, Kept, CompiledTarget, ExpandTarget, ParamName, LastTyped;
    var p, rec := CompileAll(recorded), Kept(recorded)[k];
    var name := Typed(rec).value.name;
    StepsAreTheKeptOnes(recorded);
    assert CompiledFrom(p.steps[k + 1], rec);
    KeptWasRecorded(recorded, rec);
    TypedHasALast(recorded, rec);
    TypedValuesWin(recorded, name);
    assert (PARAMETERS + name)[|PARAMETERS|..] == name;
  }

  function TypeReason(value: string): RecordedStep {
    RecordedStep(Type, Some(Target(Bare(Role).(role := Some("textbox"), name := Some("Reason")), [])), Some(value), None, None, None, Safe)
  }

  /** A field typed into twice: the first step replays the second value. */
  lemma FieldTypedTwice()
    ensures var recorded := [TypeReason("Duplicate"), TypeReason("Unauthorized")];
            var p := CompileAll(recorded);
            && Kept(recorded) == recorded
            && |p.steps| == 3
            && Materialize(p.steps[1], p.values).value == Some("Unauthorized")
            && !ReplaysAll(recorded)
  {
    hide CompileAll, ParamName, Materialize;
    var first, second := TypeReason("Duplicate"), TypeReason("Unauthorized");
    var recorded := [first, second];
    var none: seq<RecordedStep> := [];
    assert recorded[..1] == [first] && [first][..0] == none;
    assert Kept(none) == [] && Kept([first]) == [first];
    assert Kept(recorded) == [first] + [second] == recorded;
    assert Typed(second).value.name == Typed(first).value.name;
    assert LastTyped(recorded, Typed(first).value.name) == Some("Unauthorized");
    StepsAreTheKeptOnes(recorded);
    TypedStepReplaysTheLastValue(recorded, 0);
    assert !ReplaysAs(Materialize(CompileAll(recorded).steps[0 + 1], CompileAll(recorded).values), first);
  }

  /** A row opened by its button, which may have no name. */
  function OpenRow(name: Option<string>, merchant: string): RecordedStep {
    RecordedStep(Click, Some(Target(Bare(Role).(role := Some("button"), name := name), [])), None, None, None,
                 Some(TableRow(["Merchant"], [merchant])), Safe)
  }

  lemma OpenRowBinds(name: Option<string>, merchant: string)
    requires name in {None, Some("Open")} && merchant != "" && Trim(merchant) == merchant
    ensures var rec := OpenRow(name, merchant);
            && Typed(rec).None? && RowBindings(rec) == [Binding("merchant", merchant)] && RawTexts(rec) == []
            && Unscoped(rec) && TokenFreeStep(rec)
  {
    var rec := OpenRow(name, merchant);
    var row := rec.row.value;
    hide Trim;
    assert Lower("Open") == "open";
    TrimOfTight("Merchant");
    assert Lower("Merchant") == "merchant";
    assert CellBindings(row, 0) == [];
    assert CellBindings(row, 1) == [Binding("merchant", merchant)];
    assert TokenFree("Open") && TokenFree("");
  }

  lemma MerchantIsFirst(name: Option<string>, recorded: seq<RecordedStep>)
    requires name in {None, Some("Open")} && recorded == [OpenRow(name, "A"), OpenRow(name, "B")] && Kept(recorded) == recorded
    ensures FinalValue(recorded, "merchant") == Some("A")
  {
    hide RowBindings, Typed, Kept;
    TrimOfTight("A");
    TrimOfTight("B");
    OpenRowBinds(name, "A");
    OpenRowBinds(name, "B");
    var none: seq<RecordedStep> := [];
    var a := Binding("merchant", "A");
    assert recorded[..1] == [OpenRow(name, "A")] && [OpenRow(name, "A")][..0] == none;
    assert LastTyped(none, "merchant").None? && LastTyped([OpenRow(name, "A")], "merchant").None?;
    assert [a][..0] == [] && FirstNamed([a], "merchant") == Some("A");
    assert FirstCell([OpenRow(name, "A")], "merchant") == Some("A");
  }

  lemma BothRowsAreKept(name: Option<string>)
    ensures Kept([OpenRow(name, "A"), OpenRow(name, "B")]) == [OpenRow(name, "A"), OpenRow(name, "B")]
  {
    hide CompiledTarget, RankedTargetFrom;
    var first, second := OpenRow(name, "A"), OpenRow(name, "B");
    var none: seq<RecordedStep> := [];
    assert [first, second][..1] == [first] && [first][..0] == none;
    assert Kept(none) == [] && Kept([first]) == [first];
    assert Kept([first, second]) == [first] + [second];
  }

  /** Two rows opened, nothing typed: the second step replays in the row of the first. */
  lemma SecondRowLost(name: Option<string>)
    requires name in {None, Some("Open")}
    ensures var recorded := [OpenRow(name, "A"), OpenRow(name, "B")];
            var p := CompileAll(recorded);
            && Kept(recorded) == recorded && |p.steps| == 3
            && Materialize(p.steps[2], p.values).target.Some?
            && Materialize(p.steps[2], p.values).target.value.primary.scope == Some(Row(["A"]))
            && ScopeRecorded(recorded[1]) == Some(Row(["B"]))
            && !ReplaysAll(recorded)
  {
    hide CompileAll, CompiledTarget, ExpandTarget, RowBindings, RawTexts, Typed, TokenFreeStep, Unscoped, Kept,
      FinalValue;
    var second := OpenRow(name, "B");
    var recorded := [OpenRow(name, "A"), second];
    TrimOfTight("B");
    OpenRowBinds(name, "B");
    BothRowsAreKept(name);
    MerchantIsFirst(name, recorded);
    var p := CompileAll(recorded);
    ValuesAreFinal(recorded, "merchant");
    StepsAreTheKeptOnes(recorded);
    assert recorded[1] == second && CompiledFrom(p.steps[1 + 1], recorded[1]);
    TargetReplays(second, p.values);
    assert Now(RowBindings(second), p.values) + RawTexts(second) == ["A"];
    assert Values(RowBindings(second)) + RawTexts(second) == ["B"];
    assert Materialize(p.steps[1 + 1], p.values).target == ExpandTarget(CompiledTarget(second), p.values);
    assert !ReplaysAs(Materialize(p.steps[1 + 1], p.values), recorded[1]);
  }
}
