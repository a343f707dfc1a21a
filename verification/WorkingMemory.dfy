/** The verbatim buffer, its rolling summary and the token-budgeted rollover (memory/working.py). */
module WorkingMemories {
  import opened Types
  import opened OrderedDict
  import opened Text
  import opened Sessions

  function Tokens(buffer: seq<Turn>): nat {
    if buffer == [] then 0 else Estimate(buffer[0].text) + Tokens(buffer[1..])
  }

  /** Where the kept, newest part of the buffer begins: the loop walks back from the newest turn, which always stays. */
  function KeepFrom(buffer: seq<Turn>, budget: int, at: nat): (k: nat)
    requires at <= |buffer|
    ensures k <= at
    decreases at
  {
    if at == 0 then 0
    else if at < |buffer| && Tokens(buffer[at..]) + Estimate(buffer[at - 1].text) > budget then at
    else KeepFrom(buffer, budget, at - 1)
  }

  function Kept(buffer: seq<Turn>, budget: int): seq<Turn> {
    buffer[KeepFrom(buffer, budget, |buffer|)..]
  }

  function Evicted(buffer: seq<Turn>, budget: int): seq<Turn> {
    buffer[..KeepFrom(buffer, budget, |buffer|)]
  }

  /** What came of the summarizer's call: it raised, its answer could not be parsed, or it gave a summary. */
  datatype Reply = Failed | Unparsed | Summary(text: string)

  /** The new summary; the summarizer is only called when the evicted turns have any text. */
  function Summarized(prior: string, evicted: seq<Turn>, reply: Reply): Option<string> {
    if Join(SpokenLines(evicted), "\n") == "" then Some(prior)
    else match reply
      case Failed => None
      case Unparsed => Some(prior)
      case Summary(text) => Some(if text != "" then text else prior)
  }

  /** The rollover replaces the state exactly when it evicts something and the summary changes to something. */
  function Rolled(state: SessionState, budget: int, reply: Reply): Option<SessionState> {
    var evicted := Evicted(state.workingBuffer, budget);
    var summary := Summarized(state.rollingSummary, evicted, reply);
    if evicted == [] || summary.None? || summary.value == "" || summary.value == state.rollingSummary then None
    else Some(state.(rollingSummary := summary.value, workingBuffer := Kept(state.workingBuffer, budget)))
  }

  function RollStep(d: Table, ttl: Option<real>, budget: int, id: string, userId: string, reply: Reply, loaded: real,
      saved: real): Table {
    var (d', result) := LoadStep(d, ttl, id, userId, loaded);
    if !result.Loaded? then d'
    else match Rolled(result.state, budget, reply)
      case None => d'
      case Some(state) => SaveStep(d', id, state, saved)
  }

  class WorkingMemory {
    const store: InMemorySessionStore
    const bufferTokenBudget: int
    const summarizes: bool

    constructor (store: InMemorySessionStore, bufferTokenBudget: int, summarizes: bool)
      ensures this.store == store && this.bufferTokenBudget == bufferTokenBudget && this.summarizes == summarizes
    {
      this.store := store;
      this.bufferTokenBudget := bufferTokenBudget;
      this.summarizes := summarizes;
    }

    /** Splits into the newest turns within budget and the older ones; the newest turn is always kept. */
    method SplitForRollover(buffer: seq<Turn>) returns (kept: seq<Turn>, evicted: seq<Turn>)
      ensures kept == Kept(buffer, bufferTokenBudget) && evicted == Evicted(buffer, bufferTokenBudget)
    {
      var used, keepFrom := 0, |buffer|;
      while keepFrom > 0
        invariant 0 <= keepFrom <= |buffer|
        invariant used == Tokens(buffer[keepFrom..])
        invariant KeepFrom(buffer, bufferTokenBudget, keepFrom) == KeepFrom(buffer, bufferTokenBudget, |buffer|)
      {
        var cost := Estimate(buffer[keepFrom - 1].text);
        if keepFrom < |buffer| && used + cost > bufferTokenBudget {
          break;
        }
        used := used + cost;
        assert buffer[keepFrom - 1..] == [buffer[keepFrom - 1]] + buffer[keepFrom..];
        keepFrom := keepFrom - 1;
      }
      return buffer[keepFrom..], buffer[..keepFrom];
    }

    /** Whether the buffer is over budget; for more than one turn, whether a rollover would evict any. */
    method NeedsRollover(buffer: seq<Turn>) returns (needs: bool)
      ensures needs <==> Tokens(buffer) > bufferTokenBudget
      ensures needs && |buffer| > 1 <==> Evicted(buffer, bufferTokenBudget) != []
    {
      var total := 0;
      for n := 0 to |buffer|
        invariant total + Tokens(buffer[n..]) == Tokens(buffer)
      {
        OneMore(buffer, n);
        total := total + Estimate(buffer[n].text);
      }
      needs := total > bufferTokenBudget;
      EvictsIff(buffer, bufferTokenBudget);
    }

    /** One rollover, from its load at `loaded` to its save at `saved`, with nothing in between. */
    method MaybeRollover(id: string, userId: string, reply: Reply, loaded: real, saved: real)
      modifies store
      ensures store.sessions ==
              if summarizes
                  then RollStep(old(store.sessions), store.ttl, bufferTokenBudget, id, userId, reply, loaded, saved)
              else old(store.sessions)
    {
      if !summarizes {
        return;
      }
      var result := store.Load(id, userId, loaded);
      if !result.Loaded? {
        return;
      }
      var state := result.state;
      var kept, evicted := SplitForRollover(state.workingBuffer);
      if evicted == [] {
        return;
      }
      var summary := Summarized(state.rollingSummary, evicted, reply);
      if summary.None? || summary.value == "" || summary.value == state.rollingSummary {
        return;
      }
      state := state.(rollingSummary := summary.value);
      state := state.(workingBuffer := kept);
      store.Save(id, state, saved);
    }
  }

  // ---- What the split promises ----

  lemma OneMore(buffer: seq<Turn>, i: nat)
    requires i < |buffer|
    ensures Tokens(buffer[i..]) == Estimate(buffer[i].text) + Tokens(buffer[i + 1..])
  {
    assert buffer[i..][1..] == buffer[i + 1..];
  }

  /** The end of the buffer from k on fits, or is the newest turn alone. */
  predicate Fits(buffer: seq<Turn>, budget: int, k: nat)
    requires k <= |buffer|
  {
    |buffer| - k <= 1 || Tokens(buffer[k..]) <= budget
  }

  lemma {:induction false} KeepFromFits(buffer: seq<Turn>, budget: int, at: nat)
    requires at <= |buffer| && Fits(buffer, budget, at)
    ensures Fits(buffer, budget, KeepFrom(buffer, budget, at))
    ensures at == |buffer| && buffer != [] ==> KeepFrom(buffer, budget, at) < |buffer|
    decreases at
  {
    if at > 0 {
      OneMore(buffer, at - 1);
      if !(at < |buffer| && Tokens(buffer[at..]) + Estimate(buffer[at - 1].text) > budget) {
        KeepFromFits(buffer, budget, at - 1);
      }
    }
  }

  lemma {:induction false} KeepFromStops(buffer: seq<Turn>, budget: int, at: nat)
    requires at <= |buffer|
    ensures var k := KeepFrom(buffer, budget, at); k > 0 ==> Tokens(buffer[k - 1..]) > budget
    decreases at
  {
    if at > 0 {
      OneMore(buffer, at - 1);
      if !(at < |buffer| && Tokens(buffer[at..]) + Estimate(buffer[at - 1].text) > budget) {
        KeepFromStops(buffer, budget, at - 1);
      }
    }
  }

  lemma {:induction false} SuffixTokens(buffer: seq<Turn>, i: nat, j: nat)
    requires i <= j <= |buffer|
    ensures Tokens(buffer[i..]) >= Tokens(buffer[j..])
    decreases j - i
  {
    if i < j {
      OneMore(buffer, i);
      SuffixTokens(buffer, i + 1, j);
    }
  }

  /**
   The split loses nothing; it keeps the newest turn; what it keeps is within budget unless it is that turn alone; and
   every longer part of the buffer's end is over budget. So it keeps the longest end that fits.
   */
  lemma SplitIsLongest(buffer: seq<Turn>, budget: int)
    ensures Evicted(buffer, budget) + Kept(buffer, budget) == buffer
    ensures buffer != [] ==> Kept(buffer, budget) != []
    ensures |Kept(buffer, budget)| > 1 ==> Tokens(Kept(buffer, budget)) <= budget
    ensures forall k :: 0 <= k < |Evicted(buffer, budget)| ==> Tokens(buffer[k..]) > budget
  {
    hide KeepFrom, Tokens;
    KeepFromFits(buffer, budget, |buffer|);
    KeepFromStops(buffer, budget, |buffer|);
    var at := |Evicted(buffer, budget)|;
    forall k | 0 <= k < at ensures Tokens(buffer[k..]) > budget {
      SuffixTokens(buffer, k, at - 1);
    }
  }

  lemma {:induction false} KeepsAll(buffer: seq<Turn>, budget: int, at: nat)
    requires at <= |buffer| && (|buffer| <= 1 || Tokens(buffer) <= budget)
    ensures KeepFrom(buffer, budget, at) == 0
    decreases at
  {
    if at > 0 {
      OneMore(buffer, at - 1);
      assert buffer[0..] == buffer;
      SuffixTokens(buffer, 0, at - 1);
      KeepsAll(buffer, budget, at - 1);
    }
  }

  /** The split evicts something exactly from a buffer that is over budget and has more than one turn. */
  lemma EvictsIff(buffer: seq<Turn>, budget: int)
    ensures Evicted(buffer, budget) != [] <==> |buffer| > 1 && Tokens(buffer) > budget
  {
    hide KeepFrom, Tokens;
    SplitIsLongest(buffer, budget);
    assert Evicted(buffer, budget) == [] ==> Kept(buffer, budget) == buffer;
    if |buffer| <= 1 || Tokens(buffer) <= budget {
      KeepsAll(buffer, budget, |buffer|);
    }
  }

  /** Splitting the kept part again evicts nothing. */
  lemma SplitAgain(buffer: seq<Turn>, budget: int)
    ensures Evicted(Kept(buffer, budget), budget) == []
  {
    SplitIsLongest(buffer, budget);
    KeepsAll(Kept(buffer, budget), budget, |Kept(buffer, budget)|);
  }

  // ---- When a rollover happens ----

  lemma {:induction false} SpokenIff(turns: seq<Turn>)
    ensures SpokenLines(turns) != [] <==> AnySpoken(turns)
    ensures forall i :: 0 <= i < |SpokenLines(turns)| ==> SpokenLines(turns)[i] != ""
  {
    if turns != [] {
      SpokenIff(turns[1..]);
      assert forall i :: 1 <= i < |turns| ==> turns[i] == turns[1..][i - 1];
      if AnySpoken(turns[1..]) {
        var i :| 0 <= i < |turns[1..]| && turns[1..][i].text != "";
        assert turns[i + 1].text != "";
      }
    }
  }

  lemma JoinedIff(parts: seq<string>)
    requires forall i :: 0 <= i < |parts| ==> parts[i] != ""
    ensures Join(parts, "\n") == "" <==> parts == []
  {
  }

  /**
   A rollover happens exactly when the buffer is over budget with more than one turn, some turn to be evicted has text,
   and the model returns a summary that is neither empty nor the present one. That summary then replaces the present one
   and the longest end that fits replaces the buffer; nothing else of the session changes.
   */
  lemma RollsIff(state: SessionState, budget: int, reply: Reply)
    ensures Rolled(state, budget, reply).Some? <==>
              && |state.workingBuffer| > 1 && Tokens(state.workingBuffer) > budget
              && AnySpoken(Evicted(state.workingBuffer, budget))
              && reply.Summary? && reply.text != "" && reply.text != state.rollingSummary
    ensures Rolled(state, budget, reply).Some? ==>
              var rolled := Rolled(state, budget, reply).value;
              && rolled.rollingSummary == reply.text && rolled.workingBuffer == Kept(state.workingBuffer, budget)
              && rolled.(rollingSummary := state.rollingSummary, workingBuffer := state.workingBuffer) == state
  {
    hide KeepFrom, Tokens, Join, SpokenLines, Evicted, Kept, AnySpoken;
    var evicted := Evicted(state.workingBuffer, budget);
    EvictsIff(state.workingBuffer, budget);
    SpokenIff(evicted);
    JoinedIff(SpokenLines(evicted));
  }

  /** An uninterrupted rollover: what it saves, when, and what it leaves alone. */
  lemma RolloverLeaves(d: Table, ttl: Option<real>, budget: int, id: string, userId: string, reply: Reply,
      loaded: real, saved: real, k: string)
    requires Distinct(d)
    ensures var found := Get(d, id);
            var gone := found.Some? && ttl.Some? && loaded > found.value.updatedAt + ttl.value;
            Get(RollStep(d, ttl, budget, id, userId, reply, loaded, saved), k) ==
            if k != id then Get(d, k)
            else if gone then None
            else if found.Some? && found.value.userId == userId && Rolled(found.value, budget, reply).Some?
            then Some(Rolled(found.value, budget, reply).value.(updatedAt := saved, finalizedAt := None))
            else found
  {
    hide Rolled, Put, Remove;
    var (d', result) := LoadStep(d, ttl, id, userId, loaded);
    RemoveProperties(d, id, k);
    if result.Loaded? && Rolled(result.state, budget, reply).Some? {
      PutProperties(d', id, Touched(Rolled(result.state, budget, reply).value, saved), k);
    }
  }
}
