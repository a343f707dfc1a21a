/** Running one tool call: the order of the checks, and what they promise together (tools/registry.py). */
module ToolRegistries {
  import opened Types
  import opened OrderedDict
  import opened Sequences
  import opened ToolExecution
  import opened Permissions
  import RateLimiter
  import Bounds = RateLimitBounds

  datatype Policy = Policy(timeout: Option<real>, ratePerMinute: Option<int>)

  /** What a handler does within its timeout. */
  datatype Handled = Returned(content: string) | Raised(text: string) | Overran

  /** `handler` is called with the user, the call's arguments and the timeout. */
  datatype Tool = Tool(name: string, handler: (string, string, real) -> Handled)

  datatype Refusal = NotPermitted | UnknownTool | RateLimited

  datatype Tag = Ok | Refused(why: Refusal) | TimedOut | Error

  /** Whether the handler runs and for how long, or why it does not. */
  datatype Decision = Run(timeout: real) | Refuse(why: Refusal)

  datatype Config = Config(policies: map<string, Policy>, defaultTimeout: real, maxBuckets: int)

  type States = Dict<RateLimiter.Key, RateLimiter.BucketState>

  function RateOf(c: Config, name: string): Option<int> {
    if name in c.policies then c.policies[name].ratePerMinute else None
  }

  /** A timeout of zero counts as unset. */
  function TimeoutOf(c: Config, name: string): real {
    if name in c.policies && c.policies[name].timeout.Some? && c.policies[name].timeout.value != 0.0
    then c.policies[name].timeout.value else c.defaultTimeout
  }

  /** The checks of one call, in order; only the last one touches the limiter. */
  function Decide(c: Config, states: States, allowed: Tools, known: bool, userId: string, name: string, created: real,
      now: real)
    : (States, Decision)
  {
    if name !in allowed then (states, Refuse(NotPermitted))
    else if !known then (states, Refuse(UnknownTool))
    else match RateOf(c, name)
      case None => (states, Run(TimeoutOf(c, name)))
      case Some(rate) =>
        var (after, ok) := RateLimiter.AcquireStep(states, c.maxBuckets, (userId, name), rate, created, now);
        (after, if ok then Run(TimeoutOf(c, name)) else Refuse(RateLimited))
  }

  /** The texts of the refusals and failures; `shown` renders a name or a number. */
  function FailureText(tag: Tag, name: string, detail: string): string
    requires !tag.Ok?
  {
    match tag
    case Refused(NotPermitted) => "tool " + name + " is not permitted for this user"
    case Refused(UnknownTool) => "unknown tool " + name
    case Refused(RateLimited) => "tool " + name + " rate limit exceeded (" + detail + "/min for this user)"
    case TimedOut => "tool " + name + " timed out after " + detail + "s"
    case Error => "tool " + name + " failed: " + detail
  }

  /** How names and numbers are rendered inside the messages. */
  datatype Rendering = Rendering(name: string -> string, rate: int -> string, seconds: real -> string)

  function Outcome(call: ToolCall, c: Config, r: Rendering, decision: Decision, userId: string, tool: Option<Tool>)
    : (Execution, Tag)
    requires decision.Run? ==> tool.Some?
  {
    match decision
    case Refuse(why) =>
      var detail := if why.RateLimited? && RateOf(c, call.name).Some? then r.rate(RateOf(c, call.name).value) else "";
      (ExecutionOf(call, false, FailureText(Refused(why), r.name(call.name), detail)), Refused(why))
    case Run(timeout) =>
      match tool.value.handler(userId, call.arguments, timeout)
      case Returned(content) => (ExecutionOf(call, true, content), Ok)
      case Raised(text) => (ExecutionOf(call, false, FailureText(Tag.Error, r.name(call.name), text)), Tag.Error)
      case Overran => (ExecutionOf(call, false, FailureText(Tag.TimedOut, r.name(call.name), r.seconds(timeout))),
          Tag.TimedOut)
  }

  class ToolRegistry {
    var tools: Dict<string, Tool>
    const permissions: InMemoryPermissionStore
    const config: Config
    const rendering: Rendering
    const limiter: RateLimiter.ToolRateLimiter

    ghost predicate Valid()
      reads this, limiter, limiter.buckets, limiter.objects
    {
      limiter.Valid() && limiter.buckets.maxSize == config.maxBuckets
    }

    constructor (tools: Dict<string, Tool>, permissions: InMemoryPermissionStore, config: Config, rendering: Rendering)
      ensures Valid() && limiter.States() == [] && this.tools == tools
      ensures this.permissions == permissions && this.config == config && this.rendering == rendering
    {
      this.tools, this.permissions, this.config, this.rendering := tools, permissions, config, rendering;
      limiter := new RateLimiter.ToolRateLimiter(config.maxBuckets);
    }

    method Register(tool: Tool)
      modifies this`tools
      ensures tools == Put(old(tools), tool.name, tool)
    {
      tools := Put(tools, tool.name, tool);
    }

    method RunCall(userId: string, call: ToolCall, created: real, now: real) returns (execution: Execution, tag: Tag)
      requires Valid()
      modifies limiter, limiter.buckets, limiter.objects
      ensures Valid()
      ensures var (after, decision) := Decide(config, old(limiter.States()), Allowed(permissions.Lists(), userId),
                                              Has(tools, call.name), userId, call.name, created, now);
              && limiter.States() == after
              && (decision.Run? ==> Has(tools, call.name))
              && (execution, tag) == Outcome(call, config, rendering, decision, userId, Get(tools, call.name))
    {
      hide RateLimiter.AcquireStep, FailureText, ExecutionOf;
      var allowed := permissions.AllowedTools(userId);
      if call.name !in allowed {
        return Failure(call, Refused(NotPermitted), ""), Refused(NotPermitted);
      }
      var tool := Get(tools, call.name);
      if tool.None? {
        return Failure(call, Refused(UnknownTool), ""), Refused(UnknownTool);
      }
      var rate := RateOf(config, call.name);
      if rate.Some? {
        var ok := limiter.TryAcquire(userId, call.name, rate.value, created, now);
        if !ok {
          return Failure(call, Refused(RateLimited), rendering.rate(rate.value)), Refused(RateLimited);
        }
      }
      var timeout := TimeoutOf(config, call.name);
      var handled := tool.value.handler(userId, call.arguments, timeout);
      match handled
      case Returned(content) => return ExecutionOf(call, true, content), Ok;
      case Raised(text) => return Failure(call, Tag.Error, text), Tag.Error;
      case Overran => return Failure(call, Tag.TimedOut, rendering.seconds(timeout)), Tag.TimedOut;
    }

    function Failure(call: ToolCall, tag: Tag, detail: string): Execution
      requires !tag.Ok?
    {
      ExecutionOf(call, false, FailureText(tag, rendering.name(call.name), detail))
    }
  }

  /**
   After any history of grants, revokes and default extensions: a handler runs only for a registered tool of which the
   last word for this user was a grant, or about which nothing was said and which is in the default; and a call that is
   turned away before the limiter leaves every bucket as it was.
   */
  lemma RunsOnlyWhenAllowed(c: Config, states: States, initial: Tools, ops: seq<Op>, known: bool, userId: string,
      name: string, created: real, now: real)
    ensures var (after, decision) := Decide(c, states, Allowed(History(initial, ops), userId), known, userId, name,
              created, now);
            && (decision.Run? ==> known && match LastWord(ops, userId, name)
                                           case Some(op) => op.Grant?
                                           case None => InDefault(initial, ops, name))
            && (decision.Refuse? && !decision.why.RateLimited? ==> after == states)
  {
    hide RateLimiter.AcquireStep, Allowed, History, InDefault;
    AllowedIff(initial, ops, userId, name);
  }

  // ---- Histories of calls ----

  /** One call: who makes it, what the user was allowed and whether the tool was registered at that moment. */
  datatype ToolUse = ToolUse(userId: string, name: string, allowed: Tools, known: bool, created: real, now: real)

  function Checked(c: Config, states: States, u: ToolUse): (States, Decision) {
    Decide(c, states, u.allowed, u.known, u.userId, u.name, u.created, u.now)
  }

  function StatesAfter(c: Config, uses: seq<ToolUse>): States {
    if uses == [] then [] else Checked(c, StatesAfter(c, uses[..|uses| - 1]), uses[|uses| - 1]).0
  }

  /** The handler of use number i runs. */
  predicate Runs(c: Config, uses: seq<ToolUse>, i: nat)
    requires i < |uses|
  {
    Checked(c, StatesAfter(c, uses[..i]), uses[i]).1.Run?
  }

  /** The uses that reach the limiter, as calls of it. */
  function Charged(c: Config, uses: seq<ToolUse>): seq<Bounds.Call<RateLimiter.Key>> {
    if uses == [] then []
    else
      var front, u := Charged(c, uses[..|uses| - 1]), uses[|uses| - 1];
      if Charges(c, u) then front + [AsCall(c, u)] else front
  }

  /** How often the handler of `name` ran for the user in the window [s, t]. */
  function RunsWithin(c: Config, uses: seq<ToolUse>, userId: string, name: string, s: real, t: real, n: nat): nat
    requires n <= |uses|
  {
    if n == 0 then 0
    else
      var u := uses[n - 1];
      RunsWithin(c, uses, userId, name, s, t, n - 1) +
      if u.userId == userId && u.name == name && s <= u.now <= t && Runs(c, uses, n - 1) then 1 else 0
  }

  predicate Charges(c: Config, u: ToolUse) {
    u.name in u.allowed && u.known && RateOf(c, u.name).Some?
  }

  function AsCall(c: Config, u: ToolUse): Bounds.Call<RateLimiter.Key>
    requires Charges(c, u)
  {
    Bounds.Call((u.userId, u.name), RateOf(c, u.name).value, u.created, u.now)
  }

  lemma LastCall(calls: seq<Bounds.Call<RateLimiter.Key>>, call: Bounds.Call<RateLimiter.Key>, maxSize: int)
    ensures Bounds.StateAfter(calls + [call], maxSize)
         == RateLimiter.AcquireStep(Bounds.StateAfter(calls, maxSize), maxSize, call.key, call.perMinute, call.created,
             call.now).0
    ensures Bounds.Accepted(calls + [call], maxSize, |calls|)
         == RateLimiter.AcquireStep(Bounds.StateAfter(calls, maxSize), maxSize, call.key, call.perMinute, call.created,
             call.now).1
  {
    hide RateLimiter.AcquireStep;
    assert (calls + [call])[..|calls|] == calls;
  }

  /** A use that is not permitted, unknown or unlimited leaves every bucket, and its place, as it was. */
  lemma {:induction false} LimiterSeesCharged(c: Config, uses: seq<ToolUse>)
    ensures StatesAfter(c, uses) == Bounds.StateAfter(Charged(c, uses), c.maxBuckets)
  {
    hide RateLimiter.AcquireStep, Bounds.StateAfter;
    if uses == [] {
      assert Charged(c, uses) == [];
      NoCalls(c.maxBuckets);
    } else {
      var front, u := uses[..|uses| - 1], uses[|uses| - 1];
      LimiterSeesCharged(c, front);
      if Charges(c, u) {
        LastCall(Charged(c, front), AsCall(c, u), c.maxBuckets);
      }
    }
  }

  lemma NoCalls(maxSize: int)
    ensures Bounds.StateAfter<RateLimiter.Key>([], maxSize) == []
  {
  }

  lemma {:induction false} RunsPrefix(c: Config, uses: seq<ToolUse>, userId: string, name: string, s: real, t: real,
      m: nat, n: nat)
    requires n <= m <= |uses|
    ensures RunsWithin(c, uses[..m], userId, name, s, t, n) == RunsWithin(c, uses, userId, name, s, t, n)
  {
    hide StatesAfter, Checked;
    if n > 0 {
      RunsPrefix(c, uses, userId, name, s, t, m, n - 1);
      PrefixOfPrefix(uses, n - 1, m);
    }
  }

  /** The handler of a limited tool runs exactly when its use is charged and the limiter accepts it. */
  lemma RunsIffAccepted(c: Config, uses: seq<ToolUse>)
    requires uses != [] && RateOf(c, uses[|uses| - 1].name).Some?
    ensures Runs(c, uses, |uses| - 1) <==>
              Charges(c, uses[|uses| - 1]) && Bounds.Accepted(Charged(c, uses), c.maxBuckets, |Charged(c, uses)| - 1)
  {
    hide RateLimiter.AcquireStep, Bounds.StateAfter, Bounds.Accepted;
    var front, u := uses[..|uses| - 1], uses[|uses| - 1];
    LimiterSeesCharged(c, front);
    if Charges(c, u) {
      LastCall(Charged(c, front), AsCall(c, u), c.maxBuckets);
    }
  }

  lemma CountLast(calls: seq<Bounds.Call<RateLimiter.Key>>, call: Bounds.Call<RateLimiter.Key>, maxSize: int,
      key: RateLimiter.Key, s: real, t: real)
    ensures Bounds.AcceptedWithin(calls + [call], maxSize, key, s, t, |calls| + 1)
         == Bounds.AcceptedWithin(calls, maxSize, key, s, t, |calls|)
          + (if call.key == key && s <= call.now <= t
              && Bounds.Accepted(calls + [call], maxSize, |calls|) then 1 else 0)
  {
    hide Bounds.Accepted;
    Bounds.CountPrefix(calls, [call], maxSize, key, s, t, |calls|);
  }

  lemma {:induction false} RunsAreAccepted(c: Config, uses: seq<ToolUse>, userId: string, name: string, s: real,
      t: real)
    requires RateOf(c, name).Some?
    ensures RunsWithin(c, uses, userId, name, s, t, |uses|)
         == Bounds.AcceptedWithin(Charged(c, uses), c.maxBuckets, (userId, name), s, t, |Charged(c, uses)|)
  {
    hide Bounds.Accepted, Runs;
    if uses != [] {
      var front, u := uses[..|uses| - 1], uses[|uses| - 1];
      RunsAreAccepted(c, front, userId, name, s, t);
      RunsPrefix(c, uses, userId, name, s, t, |front|, |front|);
      if u.name == name {
        RunsIffAccepted(c, uses);
      }
      if Charges(c, u) {
        CountLast(Charged(c, front), AsCall(c, u), c.maxBuckets, (userId, name), s, t);
      }
    }
  }

  ghost predicate InOrder(uses: seq<ToolUse>) {
    && (forall i :: 0 <= i < |uses| ==> uses[i].created <= uses[i].now)
    && (forall i, j :: 0 <= i < j < |uses| ==> uses[i].now <= uses[j].created)
  }

  lemma {:induction false} ChargedInOrder(c: Config, uses: seq<ToolUse>)
    requires InOrder(uses)
    ensures Bounds.Clocked(Charged(c, uses))
    ensures forall i :: 0 <= i < |Charged(c, uses)| ==>
              exists k :: 0 <= k < |uses| && Charged(c, uses)[i].now == uses[k].now
    ensures forall i :: 0 <= i < |Charged(c, uses)| ==>
              RateOf(c, Charged(c, uses)[i].key.1) == Some(Charged(c, uses)[i].perMinute)
  {
    if uses != [] {
      var front := uses[..|uses| - 1];
      assert forall i :: 0 <= i < |front| ==> front[i] == uses[i];
      ChargedInOrder(c, front);
    }
  }

  /**
   For a tool limited to `cap` calls a minute: in any window in which no more (user, tool) pairs use the limiter than it
   has buckets, its handler runs for one user at most cap + (t - s) * cap / 60 times, whatever else is called,
   refused or registered in between.
   */
  lemma HandlerRunsAreBounded(c: Config, uses: seq<ToolUse>, userId: string, name: string, cap: nat, s: real, t: real)
    requires InOrder(uses) && RateOf(c, name) == Some(cap) && s <= t
    requires |Bounds.PairsWithin(Charged(c, uses), s, t)| <= c.maxBuckets
    ensures RunsWithin(c, uses, userId, name, s, t, |uses|) as real <= cap as real + Bounds.Earned(t - s, cap as real)
  {
    ChargedInOrder(c, uses);
    RunsAreAccepted(c, uses, userId, name, s, t);
    Bounds.WindowBound(Charged(c, uses), c.maxBuckets, (userId, name), cap, s, t);
  }
}
