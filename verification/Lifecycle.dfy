/**
 Ending a conversation (agent/loop.py, memory/working.py): read its transcript, embed it, mark it finalized; and the
 sweep that does so for every idle conversation. This file has the steps and their uninterrupted sequence.
 */
module Lifecycle {
  import opened Types
  import opened Text
  import opened Sequences
  import opened OrderedDict
  import opened Sessions

  /** The text that is embedded for a conversation. */
  function Transcript(state: SessionState): string {
    Compose(state.rollingSummary, state.workingBuffer)
  }

  /** `embedded` holds the last transcript embedded for each conversation. */
  datatype Life = Life(sessions: Table, embedded: map<string, string>)

  /** How the awaits of one ending go: all return, or writing the episodic points or setting the mark raises. */
  datatype Fate = Works | RaisesEmbedding | RaisesMarking

  /** Reads the transcript of a session that is there and the user's; like every load it evicts an expired one. */
  function PeekStep(l: Life, ttl: Option<real>, id: string, userId: string, now: real): (Life, Option<string>) {
    var (d, result) := LoadStep(l.sessions, ttl, id, userId, now);
    (l.(sessions := d), if result.Loaded? then Some(Transcript(result.state)) else None)
  }

  /** Without an episodic memory, or with nothing to say, nothing is embedded. */
  function EmbedStep(l: Life, remembers: bool, id: string, text: string): Life {
    if remembers && text != "" then l.(embedded := l.embedded[id := text]) else l
  }

  function FinalizeStep(l: Life, id: string, now: real): Life {
    l.(sessions := MarkStep(l.sessions, id, now))
  }

  /** An ending with nothing in between: peeked at `peeked`, marked at `marked`. */
  function EndStep(l: Life, ttl: Option<real>, remembers: bool, id: string, userId: string, fate: Fate, peeked: real,
      marked: real)
    : Life
  {
    var (l1, text) := PeekStep(l, ttl, id, userId, peeked);
    if text.None? || fate == RaisesEmbedding then l1
    else
      var l2 := EmbedStep(l1, remembers, id, text.value);
      if fate == RaisesMarking then l2 else FinalizeStep(l2, id, marked)
  }

  /** The clock of a sweep: when the n-th conversation of its queue is peeked, and when it is marked. */
  type Clock = nat -> (real, real)

  /** One sweep over its work queue; a conversation that fails to finalize does not stop the others. */
  function SweepStep(l: Life, ttl: Option<real>, remembers: bool, due: seq<(string, string)>, fates: string -> Fate,
      clock: Clock): Life {
    if due == [] then l
    else
      var n := |due| - 1;
      var (id, userId) := due[n];
      EndStep(SweepStep(l, ttl, remembers, due[..n], fates, clock), ttl, remembers, id, userId, fates(id), clock(n).0,
          clock(n).1)
  }

  lemma SweepNext(l: Life, ttl: Option<real>, remembers: bool, due: seq<(string, string)>, n: nat,
      fates: string -> Fate, clock: Clock)
    requires n < |due|
    ensures SweepStep(l, ttl, remembers, due[..n + 1], fates, clock)
         == EndStep(SweepStep(l, ttl, remembers, due[..n], fates, clock), ttl, remembers, due[n].0, due[n].1,
                    fates(due[n].0), clock(n).0, clock(n).1)
  {
    PrefixOfPrefix(due, n, n + 1);
  }

  lemma NoSweep(l: Life, ttl: Option<real>, remembers: bool, fates: string -> Fate, clock: Clock)
    ensures SweepStep(l, ttl, remembers, [], fates, clock) == l
  {
  }

  class ConversationKeeper {
    const store: InMemorySessionStore
    const remembers: bool
    ghost var embedded: map<string, string>

    constructor (store: InMemorySessionStore, remembers: bool)
      ensures this.store == store && this.remembers == remembers && embedded == map[]
    {
      this.store := store;
      this.remembers := remembers;
      embedded := map[];
    }

    ghost function Now(): Life reads this, store { Life(store.sessions, embedded) }

    method Peek(id: string, userId: string, now: real) returns (text: Option<string>)
      modifies store
      ensures (Now(), text) == PeekStep(old(Now()), store.ttl, id, userId, now)
    {
      var snapshot := store.Load(id, userId, now);
      if !snapshot.Loaded? {
        return None;
      }
      text := Some(Transcript(snapshot.state));
    }

    method EndConversation(id: string, userId: string, fate: Fate, peeked: real, marked: real)
      modifies this, store
      ensures Now() == EndStep(old(Now()), store.ttl, remembers, id, userId, fate, peeked, marked)
    {
      var text := Peek(id, userId, peeked);
      if text.None? {
        return;
      }
      if fate == RaisesEmbedding {
        return;
      }
      if remembers && text.value != "" {
        embedded := embedded[id := text.value];
      }
      if fate == RaisesMarking {
        return;
      }
      store.MarkFinalized(id, marked);
    }

    method SweepIdle(idle: real, began: real, fates: string -> Fate, clock: Clock)
      modifies this, store
      ensures Now() == SweepStep(old(Now()), store.ttl, remembers, Due(old(store.sessions), idle, began), fates, clock)
    {
      hide SweepStep, EndStep, Due, Distinct;
      var due := store.DueForFinalize(idle, began);
      ghost var l := Now();
      NoSweep(l, store.ttl, remembers, fates, clock);
      for n := 0 to |due|
        invariant Now() == SweepStep(l, store.ttl, remembers, due[..n], fates, clock)
      {
        SweepNext(l, store.ttl, remembers, due, n, fates, clock);
        EndConversation(due[n].0, due[n].1, fates(due[n].0), clock(n).0, clock(n).1);
      }
      assert due[..|due|] == due;
    }
  }

  // ---- What the steps do to a conversation ----

  /** This text is what the episodic memory holds for the conversation, or there is no text to hold. */
  predicate Recorded(l: Life, id: string, text: string) {
    text == "" || (id in l.embedded && l.embedded[id] == text)
  }

  /** The transcript of the session is embedded, or there is nothing in it to embed. */
  predicate Embedded(l: Life, id: string, state: SessionState) {
    Recorded(l, id, Transcript(state))
  }

  ghost predicate SameFor(l: Life, l': Life, id: string) {
    Get(l'.sessions, id) == Get(l.sessions, id) && SameRecord(l, l', id)
  }

  ghost predicate SameRecord(l: Life, l': Life, id: string) {
    && (id in l'.embedded <==> id in l.embedded)
    && (id in l.embedded ==> l'.embedded[id] == l.embedded[id])
  }

  lemma MarkedIsSame(state: SessionState, at: Option<real>)
    ensures Transcript(state.(finalizedAt := at)) == Transcript(state)
  {
  }

  lemma MarkOthers(d: Table, id: string, now: real, other: string)
    requires Distinct(d)
    ensures Distinct(MarkStep(d, id, now))
    ensures Get(MarkStep(d, id, now), other) ==
              if other == id && Has(d, id) then Some(Get(d, id).value.(finalizedAt := Some(now))) else Get(d, other)
  {
    if Has(d, id) {
      var marked := Get(d, id).value.(finalizedAt := Some(now));
      PutProperties(d, id, marked, other);
      PutDistinct(d, id, marked);
    }
  }

  /** The session is as it was up to its mark. */
  predicate SameButMark(a: Option<SessionState>, b: Option<SessionState>) {
    a.Some? && b.Some? && a.value.(finalizedAt := None) == b.value.(finalizedAt := None)
  }

  /** What an ending of a session that is there and has not expired leaves of it. */
  ghost predicate Ended(l: Life, l': Life, remembers: bool, id: string, fate: Fate) {
    match fate
    case RaisesEmbedding => SameFor(l, l', id)
    case RaisesMarking =>
      && Get(l'.sessions, id) == Get(l.sessions, id) && Has(l.sessions, id)
      && (remembers ==> Embedded(l', id, Get(l.sessions, id).value))
    case Works =>
      && SameButMark(Get(l.sessions, id), Get(l'.sessions, id)) && Get(l'.sessions, id).value.finalizedAt.Some?
      && (remembers ==> Embedded(l', id, Get(l'.sessions, id).value))
  }

  lemma EndOthers(l: Life, ttl: Option<real>, remembers: bool, id: string, userId: string, fate: Fate, peeked: real,
      marked: real, other: string)
    requires Distinct(l.sessions)
    ensures var l' := EndStep(l, ttl, remembers, id, userId, fate, peeked, marked);
            Distinct(l'.sessions) && (other != id ==> SameFor(l, l', other))
  {
    hide Transcript, Distinct, MarkStep;
    RemoveProperties(l.sessions, id, other);
    MarkOthers(l.sessions, id, marked, other);
  }

  lemma EndOwn(l: Life, ttl: Option<real>, remembers: bool, id: string, userId: string, fate: Fate, peeked: real,
      marked: real)
    requires Distinct(l.sessions) && Has(l.sessions, id)
    requires Get(l.sessions, id).value.userId == userId && !Expired(Get(l.sessions, id).value, ttl, peeked)
    ensures Ended(l, EndStep(l, ttl, remembers, id, userId, fate, peeked, marked), remembers, id, fate)
  {
    hide Transcript, Distinct, MarkStep;
    MarkOthers(l.sessions, id, marked, id);
    MarkedIsSame(Get(l.sessions, id).value, Some(marked));
  }

  // ---- The sweep ----

  /** Each conversation is queued once; its session is there, the user's, and not expired when its turn comes. */
  ghost predicate Sweepable(d: Table, ttl: Option<real>, due: seq<(string, string)>, clock: Clock) {
    && (forall i :: 0 <= i < |due| ==>
          Has(d, due[i].0) && Get(d, due[i].0).value.userId == due[i].1
              && !Expired(Get(d, due[i].0).value, ttl, clock(i).0))
    && (forall i, j :: 0 <= i < j < |due| ==> due[i].0 != due[j].0)
  }

  ghost predicate Queued(due: seq<(string, string)>, id: string) {
    exists e :: e in due && e.0 == id
  }

  /**
   A sweep ends every queued conversation as its own fate says, whatever happens to the others, and touches no other.
   */
  lemma {:induction false} SweepFacts(l: Life, ttl: Option<real>, remembers: bool, due: seq<(string, string)>,
      fates: string -> Fate, clock: Clock, id: string)
    requires Distinct(l.sessions) && Sweepable(l.sessions, ttl, due, clock)
    ensures var l' := SweepStep(l, ttl, remembers, due, fates, clock);
            && Distinct(l'.sessions)
            && if Queued(due, id) then Ended(l, l', remembers, id, fates(id)) else SameFor(l, l', id)
    decreases |due|
  {
    if due != [] {
      hide Ended, EndStep;
      var n := |due| - 1;
      var front := due[..n];
      var (last, userId) := due[n];
      SplitLast(due);
      assert Sweepable(l.sessions, ttl, front, clock);
      SweepFacts(l, ttl, remembers, front, fates, clock, id);
      var l1 := SweepStep(l, ttl, remembers, front, fates, clock);
      EndOthers(l1, ttl, remembers, last, userId, fates(last), clock(n).0, clock(n).1, id);
      QueuedSplit(front, last, userId, id);
      if last == id {
        NotQueuedBefore(due, n);
        EndOwn(l1, ttl, remembers, last, userId, fates(last), clock(n).0, clock(n).1);
        EndedFrom(l, l1, SweepStep(l, ttl, remembers, due, fates, clock), remembers, id, fates(id));
      } else {
        EndedStays(l, l1, SweepStep(l, ttl, remembers, due, fates, clock), remembers, id, fates(id));
      }
    }
  }

  lemma NotQueuedBefore(due: seq<(string, string)>, n: nat)
    requires n < |due| && forall i, j :: 0 <= i < j < |due| ==> due[i].0 != due[j].0
    ensures !Queued(due[..n], due[n].0)
  {
    assert forall i :: 0 <= i < n ==> due[..n][i] == due[i];
  }

  lemma QueuedSplit(front: seq<(string, string)>, last: string, userId: string, id: string)
    ensures Queued(front + [(last, userId)], id) <==> Queued(front, id) || last == id
  {
    if last == id {
      assert (last, userId) in front + [(last, userId)];
    }
    if Queued(front, id) {
      var e :| e in front && e.0 == id;
      assert e in front + [(last, userId)];
    }
  }

  lemma EndedStays(l: Life, l1: Life, l2: Life, remembers: bool, id: string, fate: Fate)
    requires SameFor(l1, l2, id)
    ensures Ended(l, l1, remembers, id, fate) ==> Ended(l, l2, remembers, id, fate)
    ensures SameFor(l, l1, id) ==> SameFor(l, l2, id)
  {
    hide Transcript;
  }

  lemma EndedFrom(l: Life, l1: Life, l2: Life, remembers: bool, id: string, fate: Fate)
    requires SameFor(l, l1, id) && Ended(l1, l2, remembers, id, fate)
    ensures Ended(l, l2, remembers, id, fate)
  {
    hide Transcript;
  }
}
