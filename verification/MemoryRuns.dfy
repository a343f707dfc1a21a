/** Runs of the vector store that mix finalizations, forgets and deduplication (memory/episodic.py, jobs/dedup.py). */
module MemoryRuns {
  import opened Types
  import opened VectorStores
  import opened Retry
  import opened Deduplication
  import opened EpisodicMemories

  /** A finalization or a forget, or one user's deduplication run with the groups it found. */
  datatype Job =
    | Memory(event: Event)
    | Deduplicated(userId: string, max: int, groups: seq<seq<nat>>, env: Environment)

  ghost predicate Orderly(jobs: seq<Job>) {
    forall i :: 0 <= i < |jobs| && jobs[i].Deduplicated? ==>
        Arrangement(jobs[i].env.arrival(|jobs[i].groups|), |jobs[i].groups|)
  }

  ghost function StoreAfter(jobs: seq<Job>, maxMoments: int, maxRetries: int): Points
    requires Orderly(jobs)
  {
    if jobs == [] then []
    else
      var d, job := StoreAfter(jobs[..|jobs| - 1], maxMoments, maxRetries), jobs[|jobs| - 1];
      match job
      case Memory(event) => Step(d, event, maxMoments, maxRetries)
      case Deduplicated(userId, max, groups, env) =>
        MergesTried(d, RunMerges(d, userId, max, groups, env), userId, maxRetries, env).0
  }

  ghost predicate AllFromMerges(merges: seq<Merge>) {
    forall i :: 0 <= i < |merges| ==> FromMerge(merges[i].point)
  }

  lemma {:induction false} MergesAreFromMerges(userId: string, conv: seq<MemoryPoint>, moments: seq<MemoryPoint>,
      env: Environment, texts: Merged)
    ensures AllFromMerges(Merges(userId, conv, moments, env, texts))
  {
    if texts != [] {
      MergesAreFromMerges(userId, conv, moments, env, texts[..|texts| - 1]);
    }
  }

  lemma MergeKeepsScheme(d: Points, m: Merge, userId: string, maxMoments: int, maxRetries: int,
      add: nat -> Attempt, delete: nat -> Attempt)
    requires Scheme(d, maxMoments) && FromMerge(m.point)
    ensures Scheme(MergeTried(d, m, userId, maxRetries, add, delete).0, maxMoments)
  {
    hide Scheme, Attempts;
    AttemptsKeepScheme(d, AddPoints([m.point]), maxRetries, add, 0, maxMoments);
    var added := Attempts(d, AddPoints([m.point]), maxRetries, add, 0).0;
    AttemptsKeepScheme(added, DeletePoints(m.doomed, userId), maxRetries, delete, 0, maxMoments);
  }

  lemma {:induction false} MergesKeepScheme(d: Points, merges: seq<Merge>, userId: string, maxMoments: int,
      maxRetries: int, env: Environment)
    requires Scheme(d, maxMoments) && AllFromMerges(merges)
    ensures Scheme(MergesTried(d, merges, userId, maxRetries, env).0, maxMoments)
  {
    hide Scheme, MergeTried;
    if merges != [] {
      var front, m := merges[..|merges| - 1], merges[|merges| - 1];
      MergesKeepScheme(d, front, userId, maxMoments, maxRetries, env);
      var (before, done, _) := MergesTried(d, front, userId, maxRetries, env);
      MergeKeepsScheme(before, m, userId, maxMoments, maxRetries, env.adding(done), env.deleting(done));
    }
  }

  /**
   Over every run that mixes finalizations, forgets and deduplication runs, raising ones included, the store keeps to
   the scheme: a conversation has at most one point of its own, moments only at indices below the maximum, and
   everything else is a merged point.
   */
  lemma {:induction false} MixedRunKeepsScheme(jobs: seq<Job>, maxMoments: int, maxRetries: int)
    requires Orderly(jobs) && maxMoments >= 0
    ensures Scheme(StoreAfter(jobs, maxMoments, maxRetries), maxMoments)
  {
    if jobs != [] {
      hide Scheme;
      var front, job := jobs[..|jobs| - 1], jobs[|jobs| - 1];
      MixedRunKeepsScheme(front, maxMoments, maxRetries);
      var d := StoreAfter(front, maxMoments, maxRetries);
      match job
      case Memory(event) => StepKeepsScheme(d, event, maxMoments, maxRetries);
      case Deduplicated(userId, max, groups, env) =>
        assert Arrangement(env.arrival(|groups|), |groups|);
        ArrivesWithin(env.arrival(|groups|), |groups|);
        var items := Items(Considered(d, userId, max), groups, env.uuid);
        MergesAreFromMerges(userId, Considered(d, userId, max), Loaded(d, userId, Moment), env,
                            Collected(items, env.arrival(|groups|), env.merged));
        MergesKeepScheme(d, RunMerges(d, userId, max, groups, env), userId, maxMoments, maxRetries, env);
    }
  }

  /**
   So after any such run, a forget that returns leaves nothing of the user's that mentions the conversation if and only
   if no merge that is stored listed it.
   */
  lemma ForgetAfterRunClearsIff(jobs: seq<Job>, userId: string, cid: string, maxMoments: nat, maxRetries: int,
      attempts: nat -> Attempt)
    requires Orderly(jobs)
    requires Attempts(StoreAfter(jobs, maxMoments, maxRetries), DeletePoints(ForgetIds(cid, maxMoments), userId),
              maxRetries, attempts, 0).1
             == Written
    ensures var d := StoreAfter(jobs, maxMoments, maxRetries);
            var d' := Attempts(d, DeletePoints(ForgetIds(cid, maxMoments), userId), maxRetries, attempts, 0).0;
            NoneMentions(d', userId, cid) <==> NeverMerged(d, userId, cid)
  {
    hide Attempts, NoneMentions, NeverMerged, Scheme;
    MixedRunKeepsScheme(jobs, maxMoments, maxRetries);
    ForgetClearsIff(StoreAfter(jobs, maxMoments, maxRetries), userId, cid, maxMoments, maxRetries, attempts);
  }
}
