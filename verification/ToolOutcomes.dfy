/** What the caller of a tool gets for every way a call can end (tools/registry.py). */
module ToolOutcomes {
  import opened Types
  import opened ToolExecution
  import opened Permissions
  import opened ToolRegistries
  import RateLimiter

  /** The tool's own time limit if its policy sets one other than zero, and the registry's otherwise. */
  predicate TimeLimit(c: Config, name: string, limit: real) {
    if name in c.policies && c.policies[name].timeout.Some? && c.policies[name].timeout.value != 0.0
    then c.policies[name].timeout == Some(limit) else limit == c.defaultTimeout
  }

  /** The limiter is asked for this call and turns it away. */
  predicate OverLimit(c: Config, states: States, userId: string, name: string, created: real, now: real) {
    && name in c.policies && c.policies[name].ratePerMinute.Some?
    && !RateLimiter.AcquireStep(states, c.maxBuckets, (userId, name), c.policies[name].ratePerMinute.value, created,
            now).1
  }

  /** How a call that is not turned away ends is for its handler to say, given the user, the arguments and the limit. */
  ghost predicate EndsAsHandled(handled: Handled, execution: Execution, tag: Tag) {
    match handled
    case Returned(content) => tag == Ok && execution.ok && execution.observation == content
    case Raised(_) => tag == Tag.Error && !execution.ok
    case Overran => tag == Tag.TimedOut && !execution.ok
  }

  /**
   A call is turned away by the first of three checks that fails, and only a call that passes all three is handled, with
   its tool's own time limit. Its result is ok if and only if the handler returned, and then the model is told all of
   what it returned; the display is that text or its beginning.
   */
  lemma CallEnds(c: Config, states: States, r: Rendering, allowed: Tools, tool: Option<Tool>, userId: string,
      call: ToolCall, created: real, now: real)
    ensures var (_, decision) := Decide(c, states, allowed, tool.Some?, userId, call.name, created, now);
            && (decision.Run? ==> tool.Some?)
            && var (execution, tag) := Outcome(call, c, r, decision, userId, tool);
               && execution.callId == call.id && execution.name == call.name
               && execution.display == Truncate(execution.observation) && (execution.ok <==> tag == Ok)
               && if call.name !in allowed then tag == Refused(NotPermitted)
                  else if tool.None? then tag == Refused(UnknownTool)
                  else if OverLimit(c, states, userId, call.name, created, now) then tag == Refused(RateLimited)
                  else exists limit :: TimeLimit(c, call.name, limit) &&
                         EndsAsHandled(tool.value.handler(userId, call.arguments, limit), execution, tag)
  {
    hide RateLimiter.AcquireStep, FailureText, Truncate;
    assert TimeLimit(c, call.name, TimeoutOf(c, call.name));
  }

  /** The first letter after the tool's name, and for an unknown tool of the text. */
  function Letter(tag: Tag): char
    requires !tag.Ok?
  {
    match tag
    case Refused(NotPermitted) => 'i'
    case Refused(UnknownTool) => 'u'
    case Refused(RateLimited) => 'r'
    case TimedOut => 't'
    case Error => 'f'
  }

  lemma LetterShows(tag: Tag, name: string, detail: string)
    requires !tag.Ok?
    ensures var text := FailureText(tag, name, detail);
            && |text| > 6 + |name|
            && if tag == Refused(UnknownTool) then text[0] == 'u' && text[13..] == name
               else text[0] == 't' && text[5..5 + |name|] == name && text[6 + |name|] == Letter(tag)
  {
  }

  /** From what the model is told of a failed call it can tell why the call failed. */
  lemma FailuresDiffer(name: string, tag: Tag, detail: string, tag': Tag, detail': string)
    requires !tag.Ok? && !tag'.Ok?
    ensures FailureText(tag, name, detail) == FailureText(tag', name, detail') ==> tag == tag'
  {
    hide FailureText;
    LetterShows(tag, name, detail);
    LetterShows(tag', name, detail');
  }
}
