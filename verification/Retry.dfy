/** Retrying store writes (retry.py), over the vector store's two writes. */
module Retry {
  import opened Types
  import opened VectorStores

  /**
   What a failing attempt raised: cancellation or shutdown, one of the package's own errors, an LLM error, or anything
   else.
   */
  datatype Error = ControlFlow | Semantic | Llm(retryable: bool) | Backend

  predicate DefaultRetryable(error: Error) {
    match error
    case ControlFlow => false
    case Semantic => false
    case Llm(retryable) => retryable
    case Backend => true
  }

  /** An attempt succeeds, or raises after the first `applied` parts of its effect reached the store. */
  datatype Attempt = Succeeds | Fails(applied: nat, error: Error)

  datatype Write = AddPoints(points: seq<MemoryPoint>) | DeletePoints(ids: seq<string>, userId: string)

  /** Control-flow errors pass through; every other terminal failure surfaces as one typed error. */
  datatype WriteResult = Written | PassedThrough | StoreWriteError

  function Apply(w: Write, d: Points): Points {
    match w
    case AddPoints(points) => AddAll(d, points)
    case DeletePoints(ids, userId) => DeleteAll(d, ids, userId)
  }

  function Part(w: Write, n: nat): Write {
    match w
    case AddPoints(points) => if n < |points| then AddPoints(points[..n]) else w
    case DeletePoints(ids, userId) => if n < |ids| then DeletePoints(ids[..n], userId) else w
  }

  /** The attempts from number `n` on: the final store, the result, and how many attempts were made in all. */
  function Attempts(d: Points, w: Write, maxRetries: int, attempts: nat -> Attempt, n: nat): (Points, WriteResult, nat)
    decreases maxRetries - n
  {
    if n > maxRetries then (d, StoreWriteError, n)
    else match attempts(n)
      case Succeeds => (Apply(w, d), Written, n + 1)
      case Fails(applied, error) =>
        var d' := Apply(Part(w, applied), d);
        if n >= maxRetries || !DefaultRetryable(error)
        then (d', if error == ControlFlow then PassedThrough else StoreWriteError, n + 1)
        else Attempts(d', w, maxRetries, attempts, n + 1)
  }

  /** store_write over retry_async. `attempts` says how each attempt would go; the waits in between are not modelled. */
  method StoreWrite(store: InMemoryVectorStore, w: Write, maxRetries: int, attempts: nat -> Attempt)
    returns (result: WriteResult, tries: nat)
    modifies store
    ensures (store.points, result, tries) == Attempts(old(store.points), w, maxRetries, attempts, 0)
  {
    tries := 0;
    while tries <= maxRetries
      invariant Attempts(store.points, w, maxRetries, attempts, tries)
          == Attempts(old(store.points), w, maxRetries, attempts, 0)
    {
      var attempt := attempts(tries);
      match attempt
      case Succeeds =>
        Perform(store, w);
        return Written, tries + 1;
      case Fails(applied, error) =>
        Perform(store, Part(w, applied));
        if tries >= maxRetries || !DefaultRetryable(error) {
          return if error == ControlFlow then PassedThrough else StoreWriteError, tries + 1;
        }
        tries := tries + 1;
    }
    result := StoreWriteError;
  }

  method Perform(store: InMemoryVectorStore, w: Write)
    modifies store
    ensures store.points == Apply(w, old(store.points))
  {
    match w
    case AddPoints(points) => store.Add(points);
    case DeletePoints(ids, userId) => store.Delete(ids, userId);
  }

  // ---- Transparency ----

  lemma ApplyOk(w: Write, d: Points)
    requires PointsOk(d)
    ensures PointsOk(Apply(w, d))
  {
    match w
    case AddPoints(points) => AddAllOk(d, points);
    case DeletePoints(ids, userId) =>
      DeleteAllLeaves(d, ids, userId);
      SurvivorsOk(d, ids, userId);
  }

  /** A write after any part of itself is the write alone. */
  lemma PartThenWhole(w: Write, d: Points, n: nat)
    requires PointsOk(d)
    ensures Apply(w, Apply(Part(w, n), d)) == Apply(w, d)
  {
    match w
    case AddPoints(points) =>
      var front := if n < |points| then points[..n] else points;
      var back := points[|front|..];
      assert points == front + back;
      AddAllOk(d, front);
      AddAllAgain(d, front);
      AddAllAppend(AddAll(d, front), front, back);
      AddAllAppend(d, front, back);
    case DeletePoints(ids, userId) =>
      var front := if n < |ids| then ids[..n] else ids;
      assert forall id :: id in front ==> id in ids;
      DeleteAllLeaves(d, front, userId);
      SurvivorsOk(d, front, userId);
      DeleteAllLeaves(Survivors(d, front, userId), ids, userId);
      SurvivorsTwice(d, front, ids, userId);
      DeleteAllLeaves(d, ids, userId);
  }

  /**
   For any sequence of attempts, failing ones having applied any part of their effect, a write that eventually succeeds
   leaves the store as one successful application would.
   */
  lemma {:induction false} RetryIsTransparent(d: Points, w: Write, maxRetries: int, attempts: nat -> Attempt, n: nat)
    requires PointsOk(d)
    ensures Attempts(d, w, maxRetries, attempts, n).1 == Written ==>
              Attempts(d, w, maxRetries, attempts, n).0 == Apply(w, d)
    decreases maxRetries - n
  {
    hide PointsOk, Apply, Part;
    if n <= maxRetries && attempts(n).Fails? {
      var applied := attempts(n).applied;
      ApplyOk(Part(w, applied), d);
      PartThenWhole(w, d, applied);
      if n < maxRetries && DefaultRetryable(attempts(n).error) {
        RetryIsTransparent(Apply(Part(w, applied), d), w, maxRetries, attempts, n + 1);
      }
    }
  }

  /** A backend's fault, or one that the model library says may pass. */
  predicate Transient(error: Error) { error == Backend || error == Llm(true) }

  /** Every attempt but the last failed with an error that may be retried. */
  ghost predicate RetriedOnly(attempts: nat -> Attempt, from: nat, tries: nat) {
    forall i: nat :: from <= i && i + 1 < tries ==> attempts(i).Fails? && Transient(attempts(i).error)
  }

  /**
   A write succeeds exactly when its last attempt does; no attempt follows a terminal error, and there are at most
   maxRetries + 1 of them; a control-flow error is the only one that passes through as it is. A write is given up only
   at a terminal error or when no retry is left.
   */
  lemma {:induction false} AttemptsAccount(d: Points, w: Write, maxRetries: int, attempts: nat -> Attempt, n: nat)
    ensures var (d', result, tries) := Attempts(d, w, maxRetries, attempts, n);
            && n <= tries && (tries > n ==> tries <= maxRetries + 1)
            && (result == Written <==> tries > n && attempts(tries - 1).Succeeds?)
            && RetriedOnly(attempts, n, tries)
            && (result == PassedThrough <==>
                tries > n && attempts(tries - 1).Fails? && attempts(tries - 1).error == ControlFlow)
            && (tries > n && attempts(tries - 1).Fails? && Transient(attempts(tries - 1).error) ==>
                tries == maxRetries + 1)
            && (tries == n <==> n > maxRetries)
    decreases maxRetries - n
  {
    hide Apply, Part;
    if n < maxRetries && attempts(n).Fails? && DefaultRetryable(attempts(n).error) {
      AttemptsAccount(Apply(Part(w, attempts(n).applied), d), w, maxRetries, attempts, n + 1);
    }
  }
}
