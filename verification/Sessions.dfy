/** The in-memory session store (stores/memory_session.py). Times are seconds on the wall clock. */
module Sessions {
  import opened Types
  import opened OrderedDict
  import opened Sequences
  import opened Sorting

  const PREVIEW_LEN: nat := 200

  datatype LoadResult = Absent | Unauthorized | Loaded(state: SessionState)

  type Table = Dict<string, SessionState>

  predicate Expired(state: SessionState, ttl: Option<real>, now: real) {
    ttl.Some? && now - state.updatedAt > ttl.value
  }

  function LoadStep(d: Table, ttl: Option<real>, id: string, userId: string, now: real): (Table, LoadResult) {
    match Get(d, id)
    case None => (d, Absent)
    case Some(state) =>
      if Expired(state, ttl, now) then (Remove(d, id), Absent)
      else if state.userId != userId then (d, Unauthorized)
      else (d, Loaded(state))
  }

  function Touched(state: SessionState, now: real): SessionState {
    state.(updatedAt := now, finalizedAt := None)
  }

  function SaveStep(d: Table, id: string, state: SessionState, now: real): Table {
    Put(d, id, Touched(state, now))
  }

  /** The second part is false when there is no session to append to. */
  function AppendStep(d: Table, id: string, turn: Turn, now: real): (Table, bool) {
    match Get(d, id)
    case None => (d, false)
    case Some(state) => (Put(d, id, Touched(state.(workingBuffer := state.workingBuffer + [turn]), now)), true)
  }

  predicate IsDue(state: SessionState, idle: real, now: real) {
    state.finalizedAt == None && now - state.updatedAt >= idle
  }

  function Due(d: Table, idle: real, now: real): seq<(string, string)> {
    if d == [] then []
    else (if IsDue(d[0].1, idle, now) then [(d[0].0, d[0].1.userId)] else []) + Due(d[1..], idle, now)
  }

  function MarkStep(d: Table, id: string, now: real): Table {
    match Get(d, id)
    case None => d
    case Some(state) => Put(d, id, state.(finalizedAt := Some(now)))
  }

  function Preview(summary: string): string {
    if |summary| <= PREVIEW_LEN then summary else summary[..PREVIEW_LEN]
  }

  function MetaOf(id: string, state: SessionState): ConversationMeta {
    ConversationMeta(id, state.userId, state.createdAt, state.updatedAt, state.finalizedAt, |state.workingBuffer|,
                     Preview(state.rollingSummary), state.modelName)
  }

  function MetasOf(d: Table, ttl: Option<real>, userId: string, now: real): seq<ConversationMeta> {
    if d == [] then []
    else (if d[0].1.userId == userId && !Expired(d[0].1, ttl, now) then [MetaOf(d[0].0, d[0].1)] else [])
         + MetasOf(d[1..], ttl, userId, now)
  }

  function Newest(meta: ConversationMeta): real { -meta.updatedAt }

  function Listing(d: Table, ttl: Option<real>, userId: string, now: real): seq<ConversationMeta> {
    SortBy(MetasOf(d, ttl, userId, now), Newest)
  }

  // ---- What the queries promise ----

  /** Not marked as finalized, and without a save for the idle time. */
  predicate Waiting(state: SessionState, idle: real, now: real) {
    state.finalizedAt.None? && now >= state.updatedAt + idle
  }

  predicate IdleSince(d: Table, idle: real, now: real, e: (string, string)) {
    Has(d, e.0) && Get(d, e.0).value.userId == e.1 && Waiting(Get(d, e.0).value, idle, now)
  }

  ghost predicate QueuesIdle(d: Table, idle: real, now: real, due: seq<(string, string)>) {
    forall e :: e in due <==> IdleSince(d, idle, now, e)
  }

  /** The metadata of this session; the preview is its whole summary or the first 200 characters. */
  predicate Describes(meta: ConversationMeta, id: string, state: SessionState) {
    && meta.conversationId == id && meta.userId == state.userId && meta.modelName == state.modelName
    && meta.createdAt == state.createdAt && meta.updatedAt == state.updatedAt && meta.finalizedAt == state.finalizedAt
    && meta.turnCount == |state.workingBuffer|
    && meta.summaryPreview <= state.rollingSummary
    && |meta.summaryPreview| == if |state.rollingSummary| < 200 then |state.rollingSummary| else 200
  }

  lemma DescribesIff(meta: ConversationMeta, id: string, state: SessionState)
    ensures Describes(meta, id, state) <==> meta == MetaOf(id, state)
  {
    if Describes(meta, id, state) {
      assert meta.summaryPreview == Preview(state.rollingSummary);
    }
  }

  /** The metadata of a stored session of the user's that has not expired. */
  predicate ListedAs(d: Table, ttl: Option<real>, userId: string, now: real, meta: ConversationMeta) {
    var id := meta.conversationId;
    && Has(d, id) && Get(d, id).value.userId == userId
    && (ttl.Some? ==> now <= Get(d, id).value.updatedAt + ttl.value)
    && Describes(meta, id, Get(d, id).value)
  }

  /** No conversation is listed twice. */
  ghost predicate Unrepeated(metas: seq<ConversationMeta>) {
    forall i, j :: 0 <= i < j < |metas| ==> metas[i].conversationId != metas[j].conversationId
  }

  ghost predicate NewestFirst(metas: seq<ConversationMeta>) {
    forall i, j :: 0 <= i < j < |metas| ==> metas[i].updatedAt >= metas[j].updatedAt
  }

  lemma SortedNewest(metas: seq<ConversationMeta>)
    ensures SortedBy(metas, Newest) <==> NewestFirst(metas)
  {
    forall i, j | 0 <= i < j < |metas|
      ensures Newest(metas[i]) <= Newest(metas[j]) <==> metas[i].updatedAt >= metas[j].updatedAt
    {
    }
  }

  ghost predicate ListsSessions(d: Table, ttl: Option<real>, userId: string, now: real, metas: seq<ConversationMeta>) {
    && (forall meta :: meta in metas <==> ListedAs(d, ttl, userId, now, meta))
    && Unrepeated(metas)
    && NewestFirst(metas)
  }

  class InMemorySessionStore {
    var sessions: Table
    const ttl: Option<real>

    constructor (ttl: Option<real>)
      ensures this.ttl == ttl && sessions == []
    {
      this.ttl := ttl;
      sessions := [];
    }

    /** Reads a session; one idle past the time to live is evicted here and nowhere else. */
    method Load(id: string, userId: string, now: real) returns (result: LoadResult)
      modifies this
      ensures (sessions, result) == LoadStep(old(sessions), ttl, id, userId, now)
    {
      var found := Get(sessions, id);
      if found.None? {
        return Absent;
      }
      if ttl.Some? && now - found.value.updatedAt > ttl.value {
        sessions := Remove(sessions, id);
        return Absent;
      }
      if found.value.userId != userId {
        return Unauthorized;
      }
      result := Loaded(found.value);
    }

    method Save(id: string, state: SessionState, now: real)
      modifies this
      ensures sessions == SaveStep(old(sessions), id, state, now)
    {
      var stamped := state.(updatedAt := now);
      stamped := stamped.(finalizedAt := None);
      sessions := Put(sessions, id, stamped);
    }

    method AppendTurn(id: string, turn: Turn, now: real) returns (ok: bool)
      modifies this
      ensures (sessions, ok) == AppendStep(old(sessions), id, turn, now)
    {
      var found := Get(sessions, id);
      if found.None? {
        return false;
      }
      var state := found.value;
      state := state.(workingBuffer := state.workingBuffer + [turn]);
      state := state.(updatedAt := now);
      state := state.(finalizedAt := None);
      sessions := Put(sessions, id, state);
      return true;
    }

    /**
     Scans all sessions; the queue holds exactly the unmarked ones that have been idle long enough, with their owners.
     */
    method DueForFinalize(idle: real, now: real) returns (due: seq<(string, string)>)
      ensures due == Due(sessions, idle, now)
      ensures Distinct(sessions) ==> QueuesIdle(sessions, idle, now, due)
    {
      hide Due, Distinct, QueuesIdle;
      due := [];
      for n := 0 to |sessions|
        invariant due + Due(sessions[n..], idle, now) == Due(sessions, idle, now)
      {
        var (id, state) := sessions[n];
        DueFrom(sessions, n, idle, now);
        if state.finalizedAt == None && now - state.updatedAt >= idle {
          AppendAssociative(due, [(id, state.userId)], Due(sessions[n + 1..], idle, now));
          due := due + [(id, state.userId)];
        }
      }
      DueFrom(sessions, |sessions|, idle, now);
      assert due + [] == due;
      if Distinct(sessions) {
        AllDueExactly(sessions, idle, now);
      }
    }

    method MarkFinalized(id: string, now: real)
      modifies this
      ensures sessions == MarkStep(old(sessions), id, now)
    {
      var found := Get(sessions, id);
      if found.Some? {
        sessions := Put(sessions, id, found.value.(finalizedAt := Some(now)));
      }
    }

    /** The user's sessions that have not expired, each once, newest first. */
    method List(userId: string, now: real) returns (metas: seq<ConversationMeta>)
      ensures metas == Listing(sessions, ttl, userId, now)
      ensures Distinct(sessions) ==> ListsSessions(sessions, ttl, userId, now, metas)
    {
      hide MetasOf, Distinct, ListsSessions, SortBy;
      metas := [];
      for n := 0 to |sessions|
        invariant metas + MetasOf(sessions[n..], ttl, userId, now) == MetasOf(sessions, ttl, userId, now)
      {
        var (id, state) := sessions[n];
        MetasFrom(sessions, n, ttl, userId, now);
        if state.userId == userId && !(ttl.Some? && now - state.updatedAt > ttl.value) {
          AppendAssociative(metas, [MetaOf(id, state)], MetasOf(sessions[n + 1..], ttl, userId, now));
          metas := metas + [MetaOf(id, state)];
        }
      }
      MetasFrom(sessions, |sessions|, ttl, userId, now);
      assert metas + [] == metas;
      metas := SortBy(metas, Newest);
      if Distinct(sessions) {
        ListingExactly(sessions, ttl, userId, now);
      }
    }
  }

  // ---- What the writes leave ----

  /**
   A save stores the whole session, an append adds one turn to a stored one, both as of now and without a mark; a mark
   sets only itself; and none of them touches another session.
   */
  lemma WritesLeave(d: Table, id: string, state: SessionState, turn: Turn, now: real, k: string)
    ensures Get(SaveStep(d, id, state, now), k) ==
              if k == id then Some(state.(updatedAt := now, finalizedAt := None)) else Get(d, k)
    ensures AppendStep(d, id, turn, now).1 <==> Has(d, id)
    ensures Get(AppendStep(d, id, turn, now).0, k) ==
              if k == id && Has(d, id)
              then Some(Get(d, id).value.(workingBuffer := Get(d, id).value.workingBuffer + [turn], updatedAt := now,
                  finalizedAt := None))
              else Get(d, k)
    ensures Get(MarkStep(d, id, now), k) ==
              if k == id && Has(d, id) then Some(Get(d, id).value.(finalizedAt := Some(now))) else Get(d, k)
  {
    hide Put;
    PutProperties(d, id, Touched(state, now), k);
    if Has(d, id) {
      var found := Get(d, id).value;
      PutProperties(d, id, Touched(found.(workingBuffer := found.workingBuffer + [turn]), now), k);
      PutProperties(d, id, found.(finalizedAt := Some(now)), k);
    }
  }

  // ---- What the queries return ----

  /** The scan from position n on. */
  lemma DueFrom(d: Table, n: nat, idle: real, now: real)
    requires n <= |d|
    ensures Due(d[n..], idle, now) ==
              if n == |d| then []
              else if IsDue(d[n].1, idle, now) then [(d[n].0, d[n].1.userId)] + Due(d[n + 1..], idle, now)
              else Due(d[n + 1..], idle, now)
  {
    if n < |d| {
      assert d[n..][1..] == d[n + 1..];
    }
  }

  lemma MetasFrom(d: Table, n: nat, ttl: Option<real>, userId: string, now: real)
    requires n <= |d|
    ensures MetasOf(d[n..], ttl, userId, now) ==
              if n == |d| then []
              else if d[n].1.userId == userId && !Expired(d[n].1, ttl, now)
              then [MetaOf(d[n].0, d[n].1)] + MetasOf(d[n + 1..], ttl, userId, now)
              else MetasOf(d[n + 1..], ttl, userId, now)
  {
    hide MetaOf;
    if n < |d| {
      assert d[n..][1..] == d[n + 1..];
    }
  }

  lemma AllDueExactly(d: Table, idle: real, now: real)
    requires Distinct(d)
    ensures QueuesIdle(d, idle, now, Due(d, idle, now))
  {
    hide Due, Distinct, IdleSince;
    forall e ensures e in Due(d, idle, now) <==> IdleSince(d, idle, now, e) {
      DueExactly(d, idle, now, e.0, e.1);
    }
  }

  lemma {:induction false} DueExactly(d: Table, idle: real, now: real, id: string, userId: string)
    requires Distinct(d)
    ensures (id, userId) in Due(d, idle, now) <==> IdleSince(d, idle, now, (id, userId))
  {
    if d != [] {
      DueExactly(d[1..], idle, now, id, userId);
      if d[0].0 == id {
        HasIsMembership(d[1..], id);
        assert !Has(d[1..], id);
      }
    }
  }

  lemma {:induction false} MetasExactly(d: Table, ttl: Option<real>, userId: string, now: real, meta: ConversationMeta)
    requires Distinct(d)
    ensures meta in MetasOf(d, ttl, userId, now) <==> ListedAs(d, ttl, userId, now, meta)
  {
    hide Describes;
    if d != [] {
      DescribesIff(meta, d[0].0, d[0].1);
      MetasExactly(d[1..], ttl, userId, now, meta);
      if d[0].0 == meta.conversationId {
        HasIsMembership(d[1..], meta.conversationId);
        assert !Has(d[1..], meta.conversationId);
      }
    }
  }

  lemma {:induction false} MetasUnrepeated(d: Table, ttl: Option<real>, userId: string, now: real)
    requires Distinct(d)
    ensures Unrepeated(MetasOf(d, ttl, userId, now))
  {
    if d != [] {
      MetasUnrepeated(d[1..], ttl, userId, now);
      var rest := MetasOf(d[1..], ttl, userId, now);
      forall i | 0 <= i < |rest| ensures rest[i].conversationId != d[0].0 {
        MetasExactly(d[1..], ttl, userId, now, rest[i]);
        HasIsMembership(d[1..], rest[i].conversationId);
      }
    }
  }

  lemma SortedUnrepeated(metas: seq<ConversationMeta>, sorted: seq<ConversationMeta>)
    requires Unrepeated(metas) && multiset(sorted) == multiset(metas)
    ensures Unrepeated(sorted)
  {
    forall i, j | 0 <= i < j < |sorted| ensures sorted[i].conversationId != sorted[j].conversationId {
      var a, b := sorted[i], sorted[j];
      if a == b {
        TwiceCounted(sorted, i, j);
        OnceInUnrepeated(metas, a);
      } else {
        SameMembers(sorted, metas, a);
        SameMembers(sorted, metas, b);
        var k :| 0 <= k < |metas| && metas[k] == a;
        var l :| 0 <= l < |metas| && metas[l] == b;
      }
    }
  }

  lemma {:induction false} OnceInUnrepeated(metas: seq<ConversationMeta>, m: ConversationMeta)
    requires Unrepeated(metas)
    ensures multiset(metas)[m] <= 1
  {
    if metas != [] {
      SplitLast(metas);
      var front := metas[..|metas| - 1];
      OnceInUnrepeated(front, m);
      if metas[|metas| - 1] == m {
        assert m !in front;
        assert m !in multiset(front);
      }
    }
  }

  /** The listing holds exactly the caller's sessions that have not expired, each once, newest first. */
  lemma ListingExactly(d: Table, ttl: Option<real>, userId: string, now: real)
    requires Distinct(d)
    ensures ListsSessions(d, ttl, userId, now, Listing(d, ttl, userId, now))
    ensures multiset(Listing(d, ttl, userId, now)) == multiset(MetasOf(d, ttl, userId, now))
  {
    hide SortBy, SortedBy, MetasOf, Unrepeated, Distinct;
    var metas, sorted := MetasOf(d, ttl, userId, now), Listing(d, ttl, userId, now);
    SortBySorts(metas, Newest);
    SortedNewest(sorted);
    MetasUnrepeated(d, ttl, userId, now);
    SortedUnrepeated(metas, sorted);
    forall meta ensures meta in sorted <==> ListedAs(d, ttl, userId, now, meta) {
      SameMembers(sorted, metas, meta);
      MetasExactly(d, ttl, userId, now, meta);
    }
  }
}
