/**
 * From a recording to the steps of a capability: `src/artifact/compile.ts`.
 *
 * Recorded actions carry no URL, as discovery records none; checkpoints are not part of this model.
 */
module Compile {
  import opened Prelude
  import opened Text
  import opened Canonical
  import opened Locators
  import opened Ranked
  import opened Outputs
  import opened Capabilities

  datatype TableRow = TableRow(headers: seq<string>, cells: seq<string>)

  datatype RecordedStep = RecordedStep(
    name: ActionName,
    target: Option<Target>,
    value: Option<string>,
    outputName: Option<string>,
    usedLocatorName: Option<string>,
    row: Option<TableRow>,
    risk: Risk)

  // ----- Names -----

  /** `/^(open|select|view|choose|details|open row)$/i` */
  predicate Generic(name: string) {
    Lower(name) in {"open", "select", "view", "choose", "details", "open row"}
  }

  function HeaderParam(header: string): Option<string> {
    var h := Lower(Trim(header));
    if h == "merchant" then Some("merchant")
    else if h in {"card", "last 4", "card last 4", "last4"} then Some("last4")
    else if h == "member id" then Some("memberId")
    else None
  }

  predicate AlphaNum(c: char) {
    IsLetter(c) || IsDigit(c)
  }

  function RunLength(s: string): (n: nat)
    ensures n <= |s| && (s != "" && AlphaNum(s[0]) ==> n > 0)
  {
    if s == "" || !AlphaNum(s[0]) then 0 else 1 + RunLength(s[1..])
  }

  /** The runs of letters and digits in a label. */
  function LabelWords(s: string): seq<string>
    decreases |s|
  {
    if s == "" then []
    else if !AlphaNum(s[0]) then LabelWords(s[1..])
    else
      var n := RunLength(s);
      [s[..n]] + LabelWords(s[n..])
  }

  function Capitalised(words: seq<string>): string {
    if words == [] then ""
    else (if words[0] == "" then "" else [UpperChar(words[0][0])] + Lower(words[0][1..])) + Capitalised(words[1..])
  }

  function ToCamel(field: string): string {
    var words := LabelWords(field);
    if words == [] then "" else Lower(words[0]) + Capitalised(words[1..])
  }

  function ParamName(field: string): string {
    HeaderParam(field).Or(ToCamel(field))
  }

  /** `paramType(name, value) === "number"` */
  predicate ReadsAsNumber(name: string, value: string) {
    var n := Lower(name);
    && !EndsWith(n, "id")
    && !Occurs("name", n) && !Occurs("merchant", n) && !Occurs("reason", n) && !Occurs("last4", n)
    && AllDigits(value)
  }

  // ----- What one recorded step contributes -----

  datatype Binding = Binding(name: string, value: string)

  function FieldOf(rec: RecordedStep): string {
    if rec.target.Some? && rec.target.value.primary.name.Some? then rec.target.value.primary.name.value
    else rec.usedLocatorName.Or("value")
  }

  /** A typed or selected value becomes a parameter. */
  function Typed(rec: RecordedStep): Option<Binding> {
    if (rec.name == Type || rec.name == Select) && rec.value.Or("") != ""
    then Some(Binding(ParamName(FieldOf(rec)), rec.value.value)) else None
  }

  function PickerName(rec: RecordedStep): string {
    if rec.target.Some? && rec.target.value.primary.name.Some? then rec.target.value.primary.name.value
    else rec.usedLocatorName.Or("")
  }

  /** Only a nameless control or a generic row picker gets a row scope. */
  predicate PicksARow(rec: RecordedStep) {
    rec.row.Some? && rec.row.value.cells != [] && (PickerName(rec) == "" || Generic(PickerName(rec)))
  }

  function Cell(row: TableRow, i: nat): string {
    if i < |row.cells| then Trim(row.cells[i]) else ""
  }

  /** The row's cells under headers that name a parameter, the first `n` headers in order. */
  function CellBindings(row: TableRow, n: nat): (r: seq<Binding>)
    requires n <= |row.headers|
    ensures forall b | b in r :: b.value != "" && Trim(b.value) != "" && b.name in {"merchant", "last4", "memberId"}
  {
    if n == 0 then []
    else
      var key, cell := HeaderParam(row.headers[n - 1]), Cell(row, n - 1);
      TrimmedTwice(if n - 1 < |row.cells| then row.cells[n - 1] else "");
      CellBindings(row, n - 1) + if key.Some? && cell != "" then [Binding(key.value, cell)] else []
  }

  lemma TrimmedTwice(s: string)
    ensures Trim(Trim(s)) == Trim(s)
  {
    hide TrimLeft, TrimRight;
    var t := Trim(s);
    if t != "" {
      assert TrimRight(TrimLeft(s)) <= TrimLeft(s);
      TrimOfTight(t);
    } else {
      assert TrimLeft("") == "" by {
        assert |TrimLeft("")| <= |""|;
      }
    }
  }

  function RowBindings(rec: RecordedStep): seq<Binding> {
    if PicksARow(rec) then CellBindings(rec.row.value, |rec.row.value.headers|) else []
  }

  /** Cells worth showing when no header names a parameter. */
  function Interesting(cells: seq<string>, name: string): seq<string> {
    if cells == [] then []
    else
      Interesting(cells[..|cells| - 1], name)
      + var c := cells[|cells| - 1];
        if c != "" && !Generic(c) && c != name then [c] else []
  }

  function FirstTwo(s: seq<string>): seq<string> {
    if |s| <= 2 then s else s[..2]
  }

  function RawTexts(rec: RecordedStep): seq<string> {
    if PicksARow(rec) && RowBindings(rec) == [] && Generic(PickerName(rec))
    then FirstTwo(Interesting(rec.row.value.cells, PickerName(rec))) else []
  }

  function Tokens(bindings: seq<Binding>): (r: seq<string>)
    ensures |r| == |bindings|
  {
    seq(|bindings|, i requires 0 <= i < |bindings| => ":" + bindings[i].name)
  }

  function Values(bindings: seq<Binding>): (r: seq<string>)
    ensures |r| == |bindings|
  {
    seq(|bindings|, i requires 0 <= i < |bindings| => bindings[i].value)
  }

  function AsScope(texts: seq<string>): Option<Scope> {
    if texts == [] then None else Some(Row(texts))
  }

  /** The row scope a step is compiled with, and the one that picks the recorded row. */
  function RowTemplate(rec: RecordedStep): Option<Scope> {
    AsScope(Tokens(RowBindings(rec)) + RawTexts(rec))
  }

  function RowRecorded(rec: RecordedStep): Option<Scope> {
    AsScope(Values(RowBindings(rec)) + RawTexts(rec))
  }

  function Scoped(t: Target, scope: Option<Scope>): Target {
    t.(primary := t.primary.(scope := if t.primary.scope.Some? then t.primary.scope else scope))
  }

  function CompiledTarget(rec: RecordedStep): Option<Target> {
    RankedTargetFrom(if rec.target.None? then None else Some(Scoped(rec.target.value, RowTemplate(rec))))
  }

  function ActionText(name: ActionName): string {
    match name
    case Navigate => "navigate"
    case Click => "click"
    case Type => "type"
    case Select => "select"
    case Extract => "extract"
    case Dismiss => "dismiss"
    case Wait => "wait"
  }

  function StepId(n: nat, name: ActionName): string {
    "s" + (if n < 10 then "0" else "") + Decimal(n) + "-" + ActionText(name)
  }

  const DEFAULT_RETRY_BUDGET: nat := 3

  function CompiledStep(rec: RecordedStep, n: nat): Step {
    var typed := Typed(rec);
    Step(StepId(n, rec.name), rec.name, CompiledTarget(rec),
         if typed.Some? then None else rec.value,
         if typed.Some? then Some(PARAMETERS + typed.value.name) else None,
         None, rec.outputName, rec.risk, None, [], DEFAULT_RETRY_BUDGET)
  }

  const ENTRY := Step("s00-navigate", Navigate, None, None, None, None, None, Safe, None, [], DEFAULT_RETRY_BUDGET)

  // ----- The pass -----

  /** `seen` and `parameters` grow together; `values` is what the recording bound each parameter to. */
  datatype Pass = Pass(parameters: seq<ParamDef>, seen: set<string>, values: map<string, string>, steps: seq<Step>)

  const START := Pass([], {}, map[], [ENTRY])

  function Ensure(p: Pass, b: Binding): Pass {
    if b.name in p.seen then p
    else p.(seen := p.seen + {b.name}, parameters := p.parameters + [ParamDef(b.name, ReadsAsNumber(b.name, b.value))])
  }

  /** A typed value overwrites, a cell only fills in. */
  function BindTyped(p: Pass, b: Binding): Pass {
    var q := Ensure(p, b);
    q.(values := q.values[b.name := b.value])
  }

  function BindCell(p: Pass, b: Binding): Pass {
    var q := Ensure(p, b);
    if b.name in q.values then q else q.(values := q.values[b.name := b.value])
  }

  function BindCells(p: Pass, bindings: seq<Binding>): Pass {
    if bindings == [] then p else BindCell(BindCells(p, bindings[..|bindings| - 1]), bindings[|bindings| - 1])
  }

  predicate ExtractsAButton(rec: RecordedStep) {
    rec.name == Extract && rec.target.Some? && rec.target.value.primary.role == Some("button")
  }

  /** The step just emitted is an extract of the same output from the same target. */
  predicate RepeatsLast(steps: seq<Step>, rec: RecordedStep) {
    && rec.name == Extract && steps != []
    && var last := steps[|steps| - 1];
       && last.action == Extract && last.outputName == rec.outputName
       && RankedTargetFrom(last.target) == RankedTargetFrom(rec.target)
  }

  function Add(p: Pass, rec: RecordedStep, n: nat): Pass {
    var typed := Typed(rec);
    var q := if typed.Some? then BindTyped(p, typed.value) else p;
    if ExtractsAButton(rec) || RepeatsLast(q.steps, rec) then q
    else
      var r := BindCells(q, RowBindings(rec));
      r.(steps := r.steps + [CompiledStep(rec, n)])
  }

  function CompileAll(recorded: seq<RecordedStep>): Pass {
    if recorded == [] then START
    else Add(CompileAll(recorded[..|recorded| - 1]), recorded[|recorded| - 1], |recorded|)
  }

  lemma OneMoreCell(row: TableRow, i: nat)
    requires i < |row.headers|
    ensures var key, cell, before := HeaderParam(row.headers[i]), Cell(row, i), CellBindings(row, i);
            CellBindings(row, i + 1) == if key.Some? && cell != "" then before + [Binding(key.value, cell)] else before
  {
    hide HeaderParam, Cell;
    assert CellBindings(row, i) + [] == CellBindings(row, i);
  }

  lemma OneMoreBinding(p: Pass, before: seq<Binding>, b: Binding)
    ensures BindCells(p, before + [b]) == BindCell(BindCells(p, before), b)
    ensures Tokens(before + [b]) == Tokens(before) + [":" + b.name]
  {
    assert (before + [b])[..|before|] == before;
  }

  /** The headers in front of `i` are lifted. */
  ghost predicate Lifted(row: TableRow, i: nat, p: Pass, q: Pass, hasText: seq<string>) {
    i <= |row.headers| && q == BindCells(p, CellBindings(row, i)) && hasText == Tokens(CellBindings(row, i))
  }

  lemma OneMoreHeader(row: TableRow, i: nat, p: Pass, q: Pass, hasText: seq<string>)
    requires i < |row.headers| && Lifted(row, i, p, q, hasText)
    ensures var key, cell := HeaderParam(row.headers[i]), Cell(row, i);
            if key.Some? && cell != ""
            then Lifted(row, i + 1, p, BindCell(q, Binding(key.value, cell)), hasText + [":" + key.value])
            else Lifted(row, i + 1, p, q, hasText)
  {
    hide HeaderParam, Cell, BindCell, BindCells, CellBindings, Tokens;
    var key, cell := HeaderParam(row.headers[i]), Cell(row, i);
    OneMoreCell(row, i);
    if key.Some? {
      OneMoreBinding(p, CellBindings(row, i), Binding(key.value, cell));
    }
  }

  lemma NothingLifted(row: TableRow, p: Pass)
    ensures Lifted(row, 0, p, p, [])
  {
  }

  /** The loop over the headers in `rowScope`. */
  method LiftCells(row: TableRow, p: Pass) returns (q: Pass, hasText: seq<string>)
    ensures Lifted(row, |row.headers|, p, q, hasText)
  {
    hide *;
    q, hasText := p, [];
    NothingLifted(row, p);
    var i := 0;
    while i < |row.headers|
      invariant i <= |row.headers| && Lifted(row, i, p, q, hasText)
    {
      var key, cell := HeaderParam(row.headers[i]), Cell(row, i);
      OneMoreHeader(row, i, p, q, hasText);
      if key.Some? && cell != "" {
        q := BindCell(q, Binding(key.value, cell));
        hasText := hasText + [":" + key.value];
      }
      i := i + 1;
    }
  }

  /** `rowScope`: lift the row's cells into parameters; failing that, show the first two cells worth showing. */
  method RowScope(rec: RecordedStep, p: Pass) returns (q: Pass, scope: Option<Scope>)
    ensures q == BindCells(p, RowBindings(rec)) && scope == RowTemplate(rec)
  {
    hide CellBindings, BindCell, Interesting, Generic;
    if !PicksARow(rec) {
      return p, None;
    }
    var row := rec.row.value;
    var hasText;
    q, hasText := LiftCells(row, p);
    if hasText == [] && Generic(PickerName(rec)) {
      var interesting := Interesting(row.cells, PickerName(rec));
      if |interesting| > 0 {
        hasText := [interesting[0]];
      }
      if |interesting| > 1 {
        hasText := hasText + [interesting[1]];
      }
      assert hasText == FirstTwo(interesting);
    }
    assert hasText == Tokens(RowBindings(rec)) + RawTexts(rec);
    scope := AsScope(hasText);
  }

  /** `compileArtifact`, its steps and parameters. */
  method CompileArtifact(recorded: seq<RecordedStep>) returns (p: Pass)
    ensures p == CompileAll(recorded)
  {
    p := START;
    for i := 0 to |recorded|
      invariant p == CompileAll(recorded[..i])
    {
      assert recorded[..i + 1][..i] == recorded[..i];
      var rec := recorded[i];
      var value, inputFrom := rec.value, None;
      var typed := Typed(rec);
      if typed.Some? {
        p := BindTyped(p, typed.value);
        inputFrom, value := Some(PARAMETERS + typed.value.name), None;
      }
      if ExtractsAButton(rec) || RepeatsLast(p.steps, rec) {
        continue;
      }
      var scope;
      p, scope := RowScope(rec, p);
      var target := RankedTargetFrom(if rec.target.None? then None else Some(Scoped(rec.target.value, scope)));
      var step := Step(StepId(i + 1, rec.name), rec.name, target, value, inputFrom,
                       None, rec.outputName, rec.risk, None, [], DEFAULT_RETRY_BUDGET);
      p := p.(steps := p.steps + [step]);
    }
    assert recorded[..|recorded|] == recorded;
  }
}
