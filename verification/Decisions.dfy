/** What an operator hands back, and its normal form: `src/escalation/control.ts`. */
module Decisions {
  import opened Prelude

  datatype Verdict = Resume | Abort

  datatype Disposition = CompletedByHuman | NotDone | AbortStep

  datatype AbortCode = InterventionTtl | SessionHeld | Aborted

  datatype Decision = Decision(
    action: Verdict,
    disposition: Option<Disposition>,
    completed: bool,
    operatorId: Option<string>,
    code: Option<AbortCode>)

  const TTL_EXPIRED := Decision(Abort, Some(AbortStep), false, None, Some(InterventionTtl))

  const SESSION_HELD := Decision(Abort, Some(AbortStep), false, None, Some(SessionHeld))

  function NormalizeDecision(d: Decision): (r: Decision)
    ensures r.action == Abort <==> d.action == Abort || d.disposition == Some(AbortStep)
    ensures r.action == Abort <==> r.disposition == Some(AbortStep)
    ensures r.completed <==> r.disposition == Some(CompletedByHuman)
    ensures r.disposition.Some?
    ensures r.operatorId == d.operatorId && r.code == d.code
  {
    if d.action == Abort || d.disposition == Some(AbortStep) then
      d.(action := Abort, disposition := Some(AbortStep), completed := false)
    else
      var completed := d.disposition == Some(CompletedByHuman) || d.completed;
      d.(disposition := Some(if completed then CompletedByHuman else NotDone), completed := completed)
  }
}
