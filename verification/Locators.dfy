/** Locators, targets, their expansion and the ranked chain: `src/core/types.ts`, `canonical.ts`, `ranked.ts`. */
module Locators {
  import opened Canonical
  import opened Prelude

  datatype By = Role | Label | Caption | Css | CellInRow

  datatype Scope = Row(hasText: seq<string>) | Region(heading: string)

  datatype Locator = Locator(
    via: By,
    role: Option<string>,
    name: Option<string>,
    text: Option<string>,
    selector: Option<string>,
    scope: Option<Scope>,
    row: Option<string>,
    cell: Option<string>)

  datatype Target = Target(primary: Locator, fallbacks: seq<Locator>)

  function ExpandOption(s: Option<string>, inputs: map<string, string>): Option<string> {
    if s.Some? then Some(ExpandParams(s.value, inputs)) else None
  }

  function ExpandAll(texts: seq<string>, inputs: map<string, string>): (r: seq<string>)
    ensures |r| == |texts| && forall i | 0 <= i < |r| :: r[i] == ExpandParams(texts[i], inputs)
  {
    seq(|texts|, i requires 0 <= i < |texts| => ExpandParams(texts[i], inputs))
  }

  function ExpandScope(scope: Scope, inputs: map<string, string>): Scope {
    match scope
    case Row(texts) => Row(ExpandAll(texts, inputs))
    case Region(heading) => Region(ExpandParams(heading, inputs))
  }

  function ExpandLocator(l: Locator, inputs: map<string, string>): Locator {
    l.(name := ExpandOption(l.name, inputs),
       text := ExpandOption(l.text, inputs),
       selector := ExpandOption(l.selector, inputs),
       cell := ExpandOption(l.cell, inputs),
       row := ExpandOption(l.row, inputs),
       scope := if l.scope.Some? then Some(ExpandScope(l.scope.value, inputs)) else None)
  }

  function ExpandLocators(ls: seq<Locator>, inputs: map<string, string>): (r: seq<Locator>)
    ensures |r| == |ls| && forall i | 0 <= i < |r| :: r[i] == ExpandLocator(ls[i], inputs)
  {
    seq(|ls|, i requires 0 <= i < |ls| => ExpandLocator(ls[i], inputs))
  }

  function ExpandTarget(t: Option<Target>, inputs: map<string, string>): Option<Target> {
    if t.None? then None
    else Some(Target(ExpandLocator(t.value.primary, inputs), ExpandLocators(t.value.fallbacks, inputs)))
  }
}
