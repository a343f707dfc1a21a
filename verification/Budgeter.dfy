/** Tiered allocation of the context sources under a token budget (agent/budgeter.py). */
module Budgeter {
  import opened Types
  import opened Text
  import opened Sorting
  import opened WorkingMemories

  datatype BudgetInputs = BudgetInputs(
    systemFixed: string,
    currentMessage: string,
    toolText: string,
    factualBlock: string,
    buffer: seq<Turn>,
    summary: string,
    episodic: seq<MemoryHit>)

  datatype BudgetResult = BudgetResult(
    factualBlock: string,
    buffer: seq<Turn>,
    summary: string,
    episodic: seq<MemoryHit>,
    usedTokens: int,
    budgetTokens: int)

  function Tier0(inputs: BudgetInputs): nat {
    Estimate(inputs.systemFixed) + Estimate(inputs.currentMessage) + Estimate(inputs.toolText)
  }

  /** A block is kept whole if it fits, and dropped otherwise. */
  function Whole(block: string, remaining: int): string {
    if Estimate(block) <= remaining then block else ""
  }

  /** Where the newest turns that fit begin: the loop walks back from the newest and stops at the first misfit. */
  function NewestFrom(buffer: seq<Turn>, remaining: int, at: nat): (k: nat)
    requires at <= |buffer|
    ensures k <= at
    decreases at
  {
    if at == 0 then 0
    else if Estimate(buffer[at - 1].text) + Tokens(buffer[at..]) <= remaining then NewestFrom(buffer, remaining, at - 1)
    else at
  }

  function HitTokens(hits: seq<MemoryHit>): nat {
    if hits == [] then 0 else HitTokens(hits[..|hits| - 1]) + Estimate(hits[|hits| - 1].point.payload.text)
  }

  /** How many of the hits from the first on fit. */
  function HitsFitting(hits: seq<MemoryHit>, remaining: int, from: nat): (n: nat)
    requires from <= |hits|
    ensures from <= n <= |hits|
    decreases |hits| - from
  {
    if from < |hits| && HitTokens(hits[..from]) + Estimate(hits[from].point.payload.text) <= remaining
    then HitsFitting(hits, remaining, from + 1) else from
  }

  function Allocation(inputs: BudgetInputs, budget: int): Option<BudgetResult> {
    if Tier0(inputs) > budget then None
    else
      var r0 := budget - Tier0(inputs);
      var factual := Whole(inputs.factualBlock, r0);
      var r1 := r0 - Estimate(factual);
      var summary := Whole(inputs.summary, r1);
      var r2 := r1 - Estimate(summary);
      var buffer := inputs.buffer[NewestFrom(inputs.buffer, r2, |inputs.buffer|)..];
      var r3 := r2 - Tokens(buffer);
      var ranked := SortBy(inputs.episodic, BestFirst);
      var episodic := ranked[..HitsFitting(ranked, r3, 0)];
      var r4 := r3 - HitTokens(episodic);
      Some(BudgetResult(factual, buffer, summary, episodic, budget - r4, budget))
  }

  class ContextBudgeter {
    const maxInputTokens: int
    const outputReserveTokens: int
    const safetyMargin: int

    constructor (maxInputTokens: int, outputReserveTokens: int, safetyMargin: int)
      ensures this.maxInputTokens == maxInputTokens
      ensures this.outputReserveTokens == outputReserveTokens && this.safetyMargin == safetyMargin
    {
      this.maxInputTokens := maxInputTokens;
      this.outputReserveTokens := outputReserveTokens;
      this.safetyMargin := safetyMargin;
    }

    function Budget(): int { maxInputTokens - outputReserveTokens - safetyMargin }

    /** None is the context-overflow error. */
    method Allocate(inputs: BudgetInputs) returns (result: Option<BudgetResult>)
      ensures result == Allocation(inputs, maxInputTokens - outputReserveTokens - safetyMargin)
    {
      hide NewestFrom, HitsFitting, SortBy, Tokens, HitTokens;
      var budget := Budget();
      var tier0 := Estimate(inputs.systemFixed) + Estimate(inputs.currentMessage) + Estimate(inputs.toolText);
      if tier0 > budget {
        return None;
      }
      var remaining := budget - tier0;
      var factual := inputs.factualBlock;
      var cost := Estimate(factual);
      if cost <= remaining {
        remaining := remaining - cost;
      } else {
        factual := "";
      }
      var summary := inputs.summary;
      cost := Estimate(summary);
      if cost <= remaining {
        remaining := remaining - cost;
      } else {
        summary := "";
      }
      var buffer: seq<Turn>;
      buffer, remaining := TakeNewest(inputs.buffer, remaining);
      var episodic: seq<MemoryHit>;
      episodic, remaining := TakeBest(SortBy(inputs.episodic, BestFirst), remaining);
      result := Some(BudgetResult(factual, buffer, summary, episodic, budget - remaining, budget));
    }

    method TakeNewest(turns: seq<Turn>, available: int) returns (buffer: seq<Turn>, remaining: int)
      ensures buffer == turns[NewestFrom(turns, available, |turns|)..]
      ensures remaining == available - Tokens(buffer)
    {
      buffer, remaining := [], available;
      var at := |turns|;
      while at > 0
        invariant 0 <= at <= |turns|
        invariant buffer == turns[at..] && remaining == available - Tokens(buffer)
        invariant NewestFrom(turns, available, at) == NewestFrom(turns, available, |turns|)
      {
        var cost := Estimate(turns[at - 1].text);
        if cost > remaining {
          break;
        }
        remaining := remaining - cost;
        OneMore(turns, at - 1);
        buffer := [turns[at - 1]] + buffer;
        at := at - 1;
      }
    }

    method TakeBest(ranked: seq<MemoryHit>, available: int) returns (episodic: seq<MemoryHit>, remaining: int)
      ensures episodic == ranked[..HitsFitting(ranked, available, 0)]
      ensures remaining == available - HitTokens(episodic)
    {
      episodic, remaining := [], available;
      var n := 0;
      while n < |ranked|
        invariant 0 <= n <= |ranked|
        invariant episodic == ranked[..n] && remaining == available - HitTokens(episodic)
        invariant HitsFitting(ranked, available, n) == HitsFitting(ranked, available, 0)
      {
        var cost := Estimate(ranked[n].point.payload.text);
        if cost > remaining {
          break;
        }
        remaining := remaining - cost;
        assert ranked[..n + 1][..n] == ranked[..n];
        episodic := episodic + [ranked[n]];
        n := n + 1;
      }
    }
  }

  // ---- What the allocation promises ----

  lemma {:induction false} NewestFits(buffer: seq<Turn>, remaining: int, at: nat)
    requires at <= |buffer| && Tokens(buffer[at..]) <= remaining
    ensures var k := NewestFrom(buffer, remaining, at);
            Tokens(buffer[k..]) <= remaining && (k > 0 ==> Tokens(buffer[k - 1..]) > remaining)
    decreases at
  {
    if at > 0 {
      OneMore(buffer, at - 1);
      if Estimate(buffer[at - 1].text) + Tokens(buffer[at..]) <= remaining {
        NewestFits(buffer, remaining, at - 1);
      }
    }
  }

  lemma {:induction false} BestFit(hits: seq<MemoryHit>, remaining: int, from: nat)
    requires from <= |hits| && HitTokens(hits[..from]) <= remaining
    ensures var n := HitsFitting(hits, remaining, from);
            HitTokens(hits[..n]) <= remaining && (n < |hits| ==> HitTokens(hits[..n + 1]) > remaining)
    decreases |hits| - from
  {
    if from < |hits| {
      assert hits[..from + 1][..from] == hits[..from];
      if HitTokens(hits[..from]) + Estimate(hits[from].point.payload.text) <= remaining {
        BestFit(hits, remaining, from + 1);
      }
    }
  }

  lemma {:induction false} PrefixTokens(hits: seq<MemoryHit>, i: nat, j: nat)
    requires i <= j <= |hits|
    ensures HitTokens(hits[..i]) <= HitTokens(hits[..j])
    decreases j - i
  {
    if i < j {
      assert hits[..j][..j - 1] == hits[..j - 1];
      PrefixTokens(hits, i, j - 1);
    }
  }

  lemma WholeFits(block: string, remaining: int)
    requires remaining >= 0
    ensures Estimate(Whole(block, remaining)) <= remaining
  {
  }

  /** What the whole blocks leave for the buffer. */
  lemma LeftForBuffer(inputs: BudgetInputs, budget: int)
    requires Allocation(inputs, budget).Some?
    ensures var r := Allocation(inputs, budget).value;
            Tier0(inputs) + Estimate(r.factualBlock) + Estimate(r.summary) <= budget
  {
    hide SortBy, NewestFrom, HitsFitting, Estimate;
    var r0 := budget - Tier0(inputs);
    WholeFits(inputs.factualBlock, r0);
    WholeFits(inputs.summary, r0 - Estimate(Whole(inputs.factualBlock, r0)));
  }

  /**
   The factual block and then the rolling summary are each kept whole if and only if they fit after what comes before,
   and dropped otherwise.
   */
  lemma BlocksKeptIff(inputs: BudgetInputs, budget: int)
    requires Allocation(inputs, budget).Some?
    ensures var r := Allocation(inputs, budget).value;
            && (r.factualBlock == inputs.factualBlock <==> Tier0(inputs) + Estimate(inputs.factualBlock) <= budget)
            && (r.factualBlock == inputs.factualBlock || r.factualBlock == "")
            && (r.summary == inputs.summary <==>
                  Tier0(inputs) + Estimate(r.factualBlock) + Estimate(inputs.summary) <= budget)
            && (r.summary == inputs.summary || r.summary == "")
  {
    hide SortBy, NewestFrom, HitsFitting;
    LeftForBuffer(inputs, budget);
  }

  /** The parts of an allocation account for the tokens it uses, and they never exceed the budget. */
  lemma AllocationWithinBudget(inputs: BudgetInputs, budget: int)
    ensures var fixed := Estimate(inputs.systemFixed) + Estimate(inputs.currentMessage) + Estimate(inputs.toolText);
            && (Allocation(inputs, budget).None? <==> fixed > budget)
            && (Allocation(inputs, budget).Some? ==>
                  var r := Allocation(inputs, budget).value;
                  && r.usedTokens <= budget == r.budgetTokens
                  && r.usedTokens == fixed + Estimate(r.factualBlock) + Estimate(r.summary)
                                     + Tokens(r.buffer) + HitTokens(r.episodic))
  {
    hide SortBy, NewestFrom, HitsFitting, Estimate;
    if Tier0(inputs) <= budget {
      var r := Allocation(inputs, budget).value;
      var r2 := budget - Tier0(inputs) - Estimate(r.factualBlock) - Estimate(r.summary);
      LeftForBuffer(inputs, budget);
      assert inputs.buffer[|inputs.buffer|..] == [];
      NewestFits(inputs.buffer, r2, |inputs.buffer|);
      BestFit(SortBy(inputs.episodic, BestFirst), r2 - Tokens(r.buffer), 0);
    }
  }

  /** The buffer part is the longest end of the buffer that fits in what the earlier tiers left. */
  lemma KeepsLongestBuffer(inputs: BudgetInputs, budget: int, k: nat)
    requires Allocation(inputs, budget).Some? && k <= |inputs.buffer|
    ensures var r := Allocation(inputs, budget).value;
            && |r.buffer| <= |inputs.buffer| && r.buffer == inputs.buffer[|inputs.buffer| - |r.buffer|..]
            && (Tier0(inputs) + Estimate(r.factualBlock) + Estimate(r.summary) + Tokens(inputs.buffer[k..]) <= budget
                <==> |inputs.buffer| - k <= |r.buffer|)
  {
    hide SortBy, NewestFrom, HitsFitting, Estimate;
    var r := Allocation(inputs, budget).value;
    var r2 := budget - Tier0(inputs) - Estimate(r.factualBlock) - Estimate(r.summary);
    LeftForBuffer(inputs, budget);
    assert inputs.buffer[|inputs.buffer|..] == [];
    NewestFits(inputs.buffer, r2, |inputs.buffer|);
    var from := NewestFrom(inputs.buffer, r2, |inputs.buffer|);
    if k < from {
      SuffixTokens(inputs.buffer, k, from - 1);
    } else {
      SuffixTokens(inputs.buffer, from, k);
    }
  }

  /** The episodic part is the longest beginning, best score first, that fits in what all earlier tiers left. */
  lemma KeepsBestHits(inputs: BudgetInputs, budget: int, n: nat)
    requires Allocation(inputs, budget).Some? && n <= |inputs.episodic|
    ensures var r := Allocation(inputs, budget).value;
            var ranked := SortBy(inputs.episodic, BestFirst);
            && |ranked| == |inputs.episodic| && SortedBy(ranked, BestFirst)
            && r.episodic <= ranked
            && (Tier0(inputs) + Estimate(r.factualBlock) + Estimate(r.summary) + Tokens(r.buffer)
                + HitTokens(ranked[..n]) <= budget
                <==> n <= |r.episodic|)
  {
    hide SortBy, SortedBy, NewestFrom, HitsFitting, Tokens, Estimate;
    var r := Allocation(inputs, budget).value;
    var ranked := SortBy(inputs.episodic, BestFirst);
    SortBySorts(inputs.episodic, BestFirst);
    var r3 := budget - Tier0(inputs) - Estimate(r.factualBlock) - Estimate(r.summary) - Tokens(r.buffer);
    AllocationWithinBudget(inputs, budget);
    BestFit(ranked, r3, 0);
    var fit := HitsFitting(ranked, r3, 0);
    if n <= fit {
      PrefixTokens(ranked, n, fit);
    } else {
      PrefixTokens(ranked, fit + 1, n);
    }
  }
}
