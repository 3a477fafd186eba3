/** The ranked locator chain: `src/artifact/ranked.ts`. */
module Ranked {
  import opened Prelude
  import opened Text
  import opened Canonical
  import opened Locators

  function EscapeAttr(value: string): string {
    ReplaceAll(ReplaceAll(value, "\\", "\\\\"), "\"", "\\\"")
  }

  function Bare(via: By): Locator {
    Locator(via, None, None, None, None, None, None, None)
  }

  /** Role and name first, then label, text and css. */
  function RankedTarget(role: string, name: string, scope: Option<Scope>): Target {
    var chain := Target(
      Bare(Role).(role := Some(role), name := Some(name)),
      [Bare(Label).(name := Some(name)),
       Bare(Caption).(text := Some(name)),
       Bare(Css).(selector := Some("[aria-label=\"" + EscapeAttr(name) + "\"]"))]);
    if scope.Some? then WithScope(chain, scope.value) else chain
  }

  function WithScope(t: Target, scope: Scope): Target {
    Target(t.primary.(scope := Some(scope)),
           seq(|t.fallbacks|, i requires 0 <= i < |t.fallbacks| => t.fallbacks[i].(scope := Some(scope))))
  }

  predicate HasFullChain(t: Target) {
    var kinds := {t.primary.via} + set l | l in t.fallbacks :: l.via;
    {Role, Label, Caption, Css} <= kinds
  }

  function ControlName(l: Locator): Option<string> {
    if l.name.Some? then l.name else l.text
  }

  function RankedTargetFrom(target: Option<Target>): Option<Target> {
    if target.None? || target.value.primary.via == CellInRow then target
    else
      var primary := target.value.primary;
      var name := ControlName(primary);
      if name.Or("") == "" then target
      else if !HasFullChain(target.value) then Some(RankedTarget(primary.role.Or("generic"), name.value, primary.scope))
      else if primary.scope.Some? && (target.value.fallbacks == [] || target.value.fallbacks[0].scope.None?)
      then Some(WithScope(target.value, primary.scope.value))
      else target
  }

  /** A control recorded by its role and name. */
  predicate RoleNamed(l: Locator) {
    l.via == Role && l.role.Some? && l.name.Or("") != ""
  }

  lemma ScopingKeepsKinds(t: Target, scope: Scope)
    ensures HasFullChain(t) ==> HasFullChain(WithScope(t, scope))
  {
    var scoped := WithScope(t, scope);
    forall l | l in t.fallbacks
      ensures exists m | m in scoped.fallbacks :: m.via == l.via
    {
      var i :| 0 <= i < |t.fallbacks| && t.fallbacks[i] == l;
      assert scoped.fallbacks[i] in scoped.fallbacks;
    }
  }

  /** Ranking leaves this control as it was recorded. */
  predicate KeptAsItIs(t: Target) {
    t.primary.via == CellInRow || ControlName(t.primary).Or("") == "" || HasFullChain(t)
  }

  /** The control that a ranked target looks for first: a role-named one keeps role and name, another falls back on its name. */
  function Sought(t: Target): (r: Locator)
    ensures RoleNamed(t.primary) ==> r.via == Role && r.role == t.primary.role && r.name == t.primary.name
    ensures r.scope == t.primary.scope
  {
    if KeptAsItIs(t) then t.primary
    else Bare(Role).(role := Some(t.primary.role.Or("generic")), name := ControlName(t.primary), scope := t.primary.scope)
  }

  /** Ranking puts the control sought first, scope and all, and completes the chain behind a named one. */
  lemma RankingSeeksTheControl(target: Target)
    ensures var r := RankedTargetFrom(Some(target));
            && r.Some? && r.value.primary == Sought(target)
            && (target.primary.via != CellInRow && ControlName(target.primary).Or("") != "" ==> HasFullChain(r.value))
  {
    var primary := target.primary;
    if !KeptAsItIs(target) {
      var chain := RankedTarget(primary.role.Or("generic"), ControlName(primary).value, primary.scope);
      assert chain.fallbacks[0].via == Label && chain.fallbacks[1].via == Caption && chain.fallbacks[2].via == Css;
      assert chain.fallbacks[0] in chain.fallbacks && chain.fallbacks[1] in chain.fallbacks && chain.fallbacks[2] in chain.fallbacks;
    } else if HasFullChain(target) && primary.scope.Some? {
      ScopingKeepsKinds(target, primary.scope.value);
    }
  }

  /** Ranking twice is ranking once. */
  lemma RankingIsIdempotent(target: Option<Target>)
    ensures RankedTargetFrom(RankedTargetFrom(target)) == RankedTargetFrom(target)
  {
    if target.Some? && target.value.primary.via != CellInRow && ControlName(target.value.primary).Or("") != "" {
      var primary := target.value.primary;
      var name := ControlName(primary).value;
      var chain := RankedTarget(primary.role.Or("generic"), name, primary.scope);
      assert chain.fallbacks[0] in chain.fallbacks && chain.fallbacks[1] in chain.fallbacks && chain.fallbacks[2] in chain.fallbacks;
      assert HasFullChain(chain);
      if HasFullChain(target.value) && primary.scope.Some? {
        ScopingKeepsKinds(target.value, primary.scope.value);
        assert (Label in {primary.via} && Css in {primary.via}) || target.value.fallbacks != [];
      }
    }
  }
}
