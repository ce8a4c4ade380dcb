/**
 The two event stores: the in-memory reference store and the SQLite store, whose
 transaction keeps a version row, the event rows and a cached projection together
 (store/memory/store.go, store/sqlite/store.go).
 */
module Stores {
  import opened Types
  import opened Policy
  import opened Routing
  import opened Projection

  /** What the environment gives a new event: an identifier and a time. Zero values stand for their failure. */
  datatype Stamp = Stamp(id: ID, at: int)

  /** One append call. */
  datatype Write = Write(
    aggregate: Aggregate, expected: nat, drafts: seq<Draft>, stamps: seq<Stamp>, cancelled: bool)

  datatype Outcome = Appended(events: seq<Event>) | Conflict(actual: nat) | Refused

  predicate ValidDraft(d: Draft) {
    d.wellFormed && d.schema != 0
  }

  /** The checks both stores make before they look at the stream. */
  predicate Admissible(w: Write) {
    !w.cancelled && ValidAggregate(w.aggregate) && forall i :: 0 <= i < |w.drafts| ==> ValidDraft(w.drafts[i])
  }

  predicate Stamped(w: Write) {
    |w.stamps| == |w.drafts| && forall i :: 0 <= i < |w.stamps| ==> w.stamps[i].id != ZERO_ID && w.stamps[i].at != 0
  }

  function EventAt(w: Write, i: nat): Event
    requires i < |w.drafts| && Stamped(w)
  {
    Event(w.stamps[i].id, w.aggregate, w.expected + i + 1, w.drafts[i], w.stamps[i].at, true)
  }

  /** The events of a write: its drafts, numbered on from the expected sequence. */
  function EventsOf(w: Write): (es: seq<Event>)
    requires Stamped(w)
    ensures |es| == |w.drafts|
  {
    seq(|w.drafts|, i requires 0 <= i < |w.drafts| => EventAt(w, i))
  }

  // ---- The in-memory store ------------------------------------------------------

  type Streams = map<Aggregate, seq<Event>>

  function StreamOf(s: Streams, a: Aggregate): seq<Event> {
    if a in s then s[a] else []
  }

  /** The reference meaning of an append: all the drafts at the expected version, or nothing. */
  function Reference(s: Streams, w: Write): (Streams, Outcome) {
    if !Admissible(w) then (s, Refused)
    else if w.drafts == [] then (s, Appended([]))
    else if |StreamOf(s, w.aggregate)| != w.expected then (s, Conflict(|StreamOf(s, w.aggregate)|))
    else if !Stamped(w) then (s, Refused)
    else (s[w.aggregate := StreamOf(s, w.aggregate) + EventsOf(w)], Appended(EventsOf(w)))
  }

  class MemoryStore {
    var streams: Streams

    constructor ()
      ensures streams == map[]
    {
      streams := map[];
    }

    method Append(w: Write) returns (r: Outcome)
      modifies this
      ensures (streams, r) == Reference(old(streams), w)
    {
      if !Admissible(w) { return Refused; }
      if w.drafts == [] { return Appended([]); }
      var stream := StreamOf(streams, w.aggregate);
      var actual := |stream|;
      if actual != w.expected { return Conflict(actual); }
      if |w.stamps| != |w.drafts| { return Refused; }
      var created: seq<Event> := [];
      for i := 0 to |w.drafts|
        invariant |created| == i
        invariant forall j :: 0 <= j < i ==> w.stamps[j].id != ZERO_ID && w.stamps[j].at != 0
        invariant forall j :: 0 <= j < i ==>
          created[j] == Event(w.stamps[j].id, w.aggregate, w.expected + j + 1, w.drafts[j], w.stamps[j].at, true)
      {
        if w.stamps[i].id == ZERO_ID || w.stamps[i].at == 0 { return Refused; }
        created := created + [Event(w.stamps[i].id, w.aggregate, actual + i + 1, w.drafts[i], w.stamps[i].at, true)];
      }
      assert created == EventsOf(w);
      streams := streams[w.aggregate := stream + created];
      return Appended(created);
    }

    method Load(a: Aggregate, after: nat) returns (events: seq<Event>)
      ensures events == if after >= |StreamOf(streams, a)| then [] else StreamOf(streams, a)[after..]
    {
      var stream := StreamOf(streams, a);
      if after >= |stream| { return []; }
      return stream[after..];
    }
  }

  // ---- The SQLite tables ----------------------------------------------------------

  /** The cached projection row: its sequence column and the decoded document. */
  datatype Document = Document(sequence: nat, view: View)

  datatype Tables = Tables(
    versions: map<Aggregate, nat>, rows: map<(Aggregate, nat), Event>, documents: map<Aggregate, Document>)

  const EMPTY := Tables(map[], map[], map[])

  function Version(t: Tables, a: Aggregate): nat {
    if a in t.versions then t.versions[a] else 0
  }

  /** The event identifier is new to the table (event_id is unique). */
  predicate NewID(rows: map<(Aggregate, nat), Event>, id: ID) {
    forall k :: k in rows ==> rows[k].id != id
  }

  /** Insert the events row by row; nothing when a row or an identifier is already there. */
  function Inserted(rows: map<(Aggregate, nat), Event>, es: seq<Event>): Option<map<(Aggregate, nat), Event>> {
    if es == [] then Some(rows)
    else
      var before := Inserted(rows, es[..|es| - 1]);
      var e := es[|es| - 1];
      if before.None? || (e.aggregate, e.sequence) in before.value || !NewID(before.value, e.id) then None
      else Some(before.value[(e.aggregate, e.sequence) := e])
  }

  /** loadWorkloadProjectionTx: the cached projection to extend, or nothing when the row is missing or disagrees. */
  function Cached(t: Tables, a: Aggregate, expected: nat): Option<View> {
    if a !in t.documents then
      if expected != 0 || !ValidAggregate(a) || a.kind != WORKLOAD then None else Some(Fresh(a))
    else
      var d := t.documents[a];
      if d.sequence < 1 || d.sequence != expected || d.view.aggregate != a || d.view.version != expected then None
      else Some(d.view)
  }

  function Refreshed(env: Env, t: Tables, a: Aggregate, expected: nat, es: seq<Event>): Option<map<Aggregate, Document>> {
    if a.kind != WORKLOAD then Some(t.documents)
    else
      var cached := Cached(t, a, expected);
      if cached.None? then None
      else
        var view := Replay(env, cached.value, es);
        if view.None? then None else Some(t.documents[a := Document(view.value.version, view.value)])
  }

  /** The transaction: claim the version, insert the rows, refresh the projection, and commit all or nothing. */
  function Transaction(env: Env, t: Tables, w: Write): (Tables, Outcome) {
    if !Admissible(w) then (t, Refused)
    else if w.drafts == [] then (t, Appended([]))
    else if w.expected + |w.drafts| > MAX_INT64 then (t, Refused)
    else if Version(t, w.aggregate) != w.expected then (t, Conflict(Version(t, w.aggregate)))
    else if !Stamped(w) then (t, Refused)
    else
      var es := EventsOf(w);
      var rows := Inserted(t.rows, es);
      var documents := Refreshed(env, t, w.aggregate, w.expected, es);
      if rows.None? || documents.None? then (t, Refused)
      else (Tables(t.versions[w.aggregate := w.expected + |w.drafts|], rows.value, documents.value), Appended(es))
  }

  // ---- What the tables always agree on -------------------------------------------

  predicate RowsMatch(t: Tables) {
    && (forall k :: k in t.rows ==> 1 <= k.1 <= Version(t, k.0) && t.rows[k].aggregate == k.0 && t.rows[k].sequence == k.1)
    && (forall a, n :: a in t.versions && 1 <= n <= t.versions[a] ==> (a, n) in t.rows)
  }

  function TableStream(t: Tables, a: Aggregate): (es: seq<Event>)
    requires RowsMatch(t)
    ensures |es| == Version(t, a)
  {
    seq(Version(t, a), i requires 0 <= i < Version(t, a) => t.rows[(a, i + 1)])
  }

  predicate UniqueIDs(rows: map<(Aggregate, nat), Event>) {
    forall j, k :: j in rows && k in rows && rows[j].id == rows[k].id ==> j == k
  }

  predicate IDsUnique(t: Tables) {
    UniqueIDs(t.rows)
  }

  /** Version row, event count and projection version agree, and the cached projection is the replay of the rows. */
  predicate CacheIsReplay(env: Env, t: Tables) {
    && RowsMatch(t) && IDsUnique(t)
    && (forall a :: a in t.versions ==> t.versions[a] > 0 && ValidAggregate(a))
    && (forall a :: a in t.documents ==> a in t.versions)
    && (forall a :: a in t.versions && a.kind == WORKLOAD ==> CachedReplay(env, t, a))
  }

  /** out holds the old rows and es, numbered on from base. */
  ghost predicate AddsRows(rows: map<(Aggregate, nat), Event>, out: map<(Aggregate, nat), Event>, a: Aggregate, base: nat, es: seq<Event>) {
    && (forall k :: k in out <==> k in rows || (k.0 == a && base < k.1 <= base + |es|))
    && (forall k :: k in rows ==> k in out && out[k] == rows[k])
    && (forall n :: base < n <= base + |es| ==> (a, n) in out && out[(a, n)] == es[n - base - 1])
  }

  lemma {:induction false} InsertedRows(rows: map<(Aggregate, nat), Event>, es: seq<Event>, a: Aggregate, base: nat)
    requires Inserted(rows, es).Some?
    requires forall i :: 0 <= i < |es| ==> es[i].aggregate == a && es[i].sequence == base + i + 1
    ensures AddsRows(rows, Inserted(rows, es).value, a, base, es)
  {
    if es != [] { InsertedRows(rows, es[..|es| - 1], a, base); }
  }

  lemma {:induction false} InsertedUnique(rows: map<(Aggregate, nat), Event>, es: seq<Event>)
    requires Inserted(rows, es).Some? && UniqueIDs(rows)
    ensures UniqueIDs(Inserted(rows, es).value)
  {
    if es != [] { InsertedUnique(rows, es[..|es| - 1]); }
  }

  /** A transaction that wrote something. */
  predicate Commits(env: Env, t: Tables, w: Write) {
    Transaction(env, t, w).1.Appended? && w.drafts != []
  }

  /** What a commit consists of. */
  lemma CommitShape(env: Env, t: Tables, w: Write)
    requires Commits(env, t, w)
    ensures Stamped(w) && ValidAggregate(w.aggregate) && Version(t, w.aggregate) == w.expected && w.drafts != []
    ensures Inserted(t.rows, EventsOf(w)).Some? && Refreshed(env, t, w.aggregate, w.expected, EventsOf(w)).Some?
    ensures Transaction(env, t, w) ==
      (Tables(t.versions[w.aggregate := w.expected + |w.drafts|], Inserted(t.rows, EventsOf(w)).value,
              Refreshed(env, t, w.aggregate, w.expected, EventsOf(w)).value), Appended(EventsOf(w)))
  {
    hide Inserted, Refreshed, ValidDraft;
  }

  /** The rows of t' are those of t plus es, numbered on, for one aggregate. */
  ghost predicate Grows(t: Tables, t': Tables, a: Aggregate, es: seq<Event>) {
    && t'.versions == t.versions[a := Version(t, a) + |es|] && AddsRows(t.rows, t'.rows, a, Version(t, a), es)
    && forall i :: 0 <= i < |es| ==> es[i].aggregate == a && es[i].sequence == Version(t, a) + i + 1
  }

  lemma RowsExtend(t: Tables, t': Tables, a: Aggregate, es: seq<Event>)
    requires RowsMatch(t) && Grows(t, t', a, es)
    ensures RowsMatch(t')
  {
    var base := Version(t, a);
    forall k | k in t'.rows
      ensures 1 <= k.1 <= Version(t', k.0) && t'.rows[k].aggregate == k.0 && t'.rows[k].sequence == k.1
    {
      if k !in t.rows {
        assert t'.rows[(a, k.1)] == es[k.1 - base - 1];
      }
    }
    forall b, n | b in t'.versions && 1 <= n <= t'.versions[b] ensures (b, n) in t'.rows {
      if b != a || n <= base { assert (b, n) in t.rows; }
    }
  }

  /** The n-th event of a stream is the row numbered n. */
  lemma RowAt(t: Tables, a: Aggregate, n: nat)
    requires RowsMatch(t) && 1 <= n <= Version(t, a)
    ensures (a, n) in t.rows && TableStream(t, a)[n - 1] == t.rows[(a, n)]
  {
  }

  lemma StreamsExtend(t: Tables, t': Tables, a: Aggregate, es: seq<Event>, b: Aggregate)
    requires RowsMatch(t) && RowsMatch(t') && Grows(t, t', a, es)
    ensures TableStream(t', b) == if a == b then TableStream(t, b) + es else TableStream(t, b)
  {
    var old_, new_, base := TableStream(t, b), TableStream(t', b), Version(t, a);
    var want := if a == b then old_ + es else old_;
    assert |new_| == |want|;
    forall i | 0 <= i < |want| ensures new_[i] == want[i] {
      RowAt(t', b, i + 1);
      if i < |old_| {
        RowAt(t, b, i + 1);
      } else {
        assert t'.rows[(a, i + 1)] == es[i - base];
      }
      hide RowsMatch, TableStream;
    }
  }

  lemma CommitGrows(env: Env, t: Tables, w: Write)
    requires IDsUnique(t) && Commits(env, t, w)
    ensures Stamped(w) && Grows(t, Transaction(env, t, w).0, w.aggregate, EventsOf(w)) && IDsUnique(Transaction(env, t, w).0)
  {
    hide Transaction, Refreshed, Inserted, AddsRows, UniqueIDs, Commits, ValidAggregate;
    CommitShape(env, t, w);
    InsertedRows(t.rows, EventsOf(w), w.aggregate, w.expected);
    InsertedUnique(t.rows, EventsOf(w));
  }

  /** What a committed write does to the streams: one stream grows by the new events, the others stay. */
  lemma CommitExtends(env: Env, t: Tables, w: Write)
    requires RowsMatch(t) && IDsUnique(t) && Commits(env, t, w)
    ensures var t' := Transaction(env, t, w).0;
      && RowsMatch(t') && IDsUnique(t') && Stamped(w)
      && TableStream(t', w.aggregate) == TableStream(t, w.aggregate) + EventsOf(w)
      && forall a :: a != w.aggregate ==> TableStream(t', a) == TableStream(t, a)
  {
    CommitGrows(env, t, w);
    hide Transaction, Refreshed, RowsMatch, IDsUnique, Inserted, Grows, Commits, TableStream;
    var t' := Transaction(env, t, w).0;
    RowsExtend(t, t', w.aggregate, EventsOf(w));
    forall a ensures TableStream(t', a) == if a == w.aggregate then TableStream(t, a) + EventsOf(w) else TableStream(t, a) {
      StreamsExtend(t, t', w.aggregate, EventsOf(w), a);
    }
  }

  /** The cached projection of one aggregate. */
  predicate CachedReplay(env: Env, t: Tables, a: Aggregate)
    requires RowsMatch(t)
  {
    && a in t.documents && a in t.versions && t.documents[a].sequence == t.versions[a]
    && t.documents[a].view.version == t.versions[a]
    && Replay(env, Fresh(a), TableStream(t, a)) == Some(t.documents[a].view)
  }

  /** The cached projection extended by the new events is the replay of the extended stream. */
  lemma CacheExtends(env: Env, t: Tables, w: Write)
    requires CacheIsReplay(env, t) && Commits(env, t, w) && w.aggregate.kind == WORKLOAD
    requires RowsMatch(Transaction(env, t, w).0)
    requires TableStream(Transaction(env, t, w).0, w.aggregate) == TableStream(t, w.aggregate) + EventsOf(w)
    ensures CachedReplay(env, Transaction(env, t, w).0, w.aggregate)
  {
    var a, es := w.aggregate, EventsOf(w);
    CommitShape(env, t, w);
    ReplayAppend(env, Fresh(a), TableStream(t, a), es);
    if a !in t.versions {
      assert TableStream(t, a) == [];
    } else {
      assert CachedReplay(env, t, a);
    }
    hide Inserted, ValidDraft, Applied, Transaction, RowsMatch, IDsUnique;
  }

  lemma RejectedChangesNothing(env: Env, t: Tables, w: Write)
    requires !Commits(env, t, w)
    ensures Transaction(env, t, w).0 == t
  {
    hide Inserted, Refreshed, ValidDraft;
  }

  /** Every append, committed or not, keeps the cache equal to the replay. */
  lemma AppendKeepsCache(env: Env, t: Tables, w: Write)
    requires CacheIsReplay(env, t)
    ensures CacheIsReplay(env, Transaction(env, t, w).0)
    ensures !Transaction(env, t, w).1.Appended? ==> Transaction(env, t, w).0 == t
  {
    hide Transaction, Replay, Inserted, RowsMatch, IDsUnique, TableStream, Commits;
    if !Commits(env, t, w) {
      RejectedChangesNothing(env, t, w);
    } else {
      CommitShape(env, t, w);
      CommitExtends(env, t, w);
      if w.aggregate.kind == WORKLOAD { CacheExtends(env, t, w); }
      var t' := Transaction(env, t, w).0;
      forall a | a in t'.versions && a.kind == WORKLOAD ensures CachedReplay(env, t', a) {
        if a != w.aggregate { assert CachedReplay(env, t, a); }
      }
    }
  }

  // ---- When a write commits, and what it leaves ---------------------------------------

  /** The identifiers given to a write are new to the table and distinct. */
  predicate FreshIDs(rows: map<(Aggregate, nat), Event>, w: Write) {
    && (forall i :: 0 <= i < |w.stamps| ==> NewID(rows, w.stamps[i].id))
    && (forall i, j :: 0 <= i < j < |w.stamps| ==> w.stamps[i].id != w.stamps[j].id)
  }

  lemma {:induction false} InsertedIff(rows: map<(Aggregate, nat), Event>, es: seq<Event>, a: Aggregate, base: nat)
    requires forall i :: 0 <= i < |es| ==> es[i].aggregate == a && es[i].sequence == base + i + 1
    requires forall n :: n > base ==> (a, n) !in rows
    ensures Inserted(rows, es).Some? <==>
            (forall i :: 0 <= i < |es| ==> NewID(rows, es[i].id)) && forall i, j :: 0 <= i < j < |es| ==> es[i].id != es[j].id
  {
    if es != [] {
      var init, e := es[..|es| - 1], es[|es| - 1];
      InsertedIff(rows, init, a, base);
      assert forall i :: 0 <= i < |init| ==> init[i] == es[i];
      if Inserted(rows, init).Some? {
        InsertedRows(rows, init, a, base);
        var before := Inserted(rows, init).value;
        InsertedNew(rows, before, init, a, base, e.id);
      }
    }
  }

  /** An identifier is new to the extended table when it is new to the old one and to the events. */
  lemma InsertedNew(rows: map<(Aggregate, nat), Event>, out: map<(Aggregate, nat), Event>, es: seq<Event>, a: Aggregate, base: nat, id: ID)
    requires AddsRows(rows, out, a, base, es)
    ensures NewID(out, id) <==> NewID(rows, id) && forall i :: 0 <= i < |es| ==> es[i].id != id
  {
    if NewID(out, id) {
      forall i | 0 <= i < |es| ensures es[i].id != id {
        assert out[(a, base + i + 1)] == es[i];
      }
    }
    if NewID(rows, id) && forall i :: 0 <= i < |es| ==> es[i].id != id {
      forall k | k in out ensures out[k].id != id {
        if k !in rows { assert out[(a, k.1)] == es[k.1 - base - 1]; }
      }
    }
  }

  lemma NoRowsAbove(t: Tables, a: Aggregate, n: nat)
    requires RowsMatch(t) && n > Version(t, a)
    ensures (a, n) !in t.rows
  {
  }

  /** For a workload the projection is refreshed exactly when the extended stream is accepted. */
  lemma RefreshedIff(env: Env, t: Tables, w: Write)
    requires CacheIsReplay(env, t) && Stamped(w) && ValidAggregate(w.aggregate) && Version(t, w.aggregate) == w.expected
    ensures Refreshed(env, t, w.aggregate, w.expected, EventsOf(w)).Some? <==>
            (w.aggregate.kind == WORKLOAD ==> Replay(env, Fresh(w.aggregate), TableStream(t, w.aggregate) + EventsOf(w)).Some?)
  {
    hide Replay, IDsUnique, Applied;
    var a, es := w.aggregate, EventsOf(w);
    ReplayAppend(env, Fresh(a), TableStream(t, a), es);
    if a.kind == WORKLOAD {
      if a in t.versions {
        assert CachedReplay(env, t, a);
      } else {
        assert TableStream(t, a) == [];
        EmptyHistory(env, Fresh(a));
      }
    }
  }

  lemma EmptyHistory(env: Env, p: View)
    ensures Replay(env, p, []) == Some(p)
  {
  }

  /**
   A well-formed write within range commits if and only if it is made at the table's version, every draft gets an
   identifier and a time, the identifiers are distinct and new, and a workload's projection accepts the extended stream.
   */
  lemma CommitsIff(env: Env, t: Tables, w: Write)
    requires CacheIsReplay(env, t) && Admissible(w) && w.drafts != [] && w.expected + |w.drafts| <= MAX_INT64
    ensures Commits(env, t, w) <==>
      && Version(t, w.aggregate) == w.expected && Stamped(w) && FreshIDs(t.rows, w)
      && (w.aggregate.kind == WORKLOAD ==> Replay(env, Fresh(w.aggregate), TableStream(t, w.aggregate) + EventsOf(w)).Some?)
  {
    hide CacheIsReplay, Inserted, Refreshed, Replay, ValidDraft, ValidAggregate, RowsMatch, TableStream;
    assert RowsMatch(t) && ValidAggregate(w.aggregate) by { CacheRows(env, t); WellAddressed(w); }
    if Version(t, w.aggregate) == w.expected && Stamped(w) {
      var es := EventsOf(w);
      forall n | n > w.expected ensures (w.aggregate, n) !in t.rows { NoRowsAbove(t, w.aggregate, n); }
      InsertedIff(t.rows, es, w.aggregate, w.expected);
      assert forall i :: 0 <= i < |es| ==> es[i].id == w.stamps[i].id;
      assert (forall i :: 0 <= i < |es| ==> NewID(t.rows, es[i].id)) <==> forall i :: 0 <= i < |w.stamps| ==> NewID(t.rows, w.stamps[i].id);
      RefreshedIff(env, t, w);
    }
  }

  lemma CacheRows(env: Env, t: Tables)
    requires CacheIsReplay(env, t)
    ensures RowsMatch(t) && IDsUnique(t)
  {
  }

  lemma WellAddressed(w: Write)
    requires Admissible(w)
    ensures ValidAggregate(w.aggregate)
  {
  }

  /** The new events are the drafts in order, with their own identifiers and times, numbered on and bound to the aggregate. */
  predicate Materializes(w: Write, es: seq<Event>) {
    && |es| == |w.drafts| && |w.stamps| == |w.drafts|
    && forall i :: 0 <= i < |es| ==>
         && es[i].draft == w.drafts[i] && es[i].id == w.stamps[i].id && es[i].occurredAt == w.stamps[i].at
         && es[i].aggregate == w.aggregate && es[i].sequence == w.expected + i + 1 && es[i].intact
  }

  /** What a committed write returns is what it adds: the drafts, materialized, at the end of one stream; nothing else changes. */
  lemma CommitAdds(env: Env, t: Tables, w: Write)
    requires RowsMatch(t) && IDsUnique(t) && Commits(env, t, w)
    ensures var (t', outcome) := Transaction(env, t, w);
      && RowsMatch(t') && outcome.Appended? && Materializes(w, outcome.events)
      && TableStream(t', w.aggregate) == TableStream(t, w.aggregate) + outcome.events
      && forall a :: a != w.aggregate ==> TableStream(t', a) == TableStream(t, a)
  {
    hide RowsMatch, IDsUnique, TableStream, Inserted, Refreshed, ValidDraft;
    CommitShape(env, t, w);
    CommitExtends(env, t, w);
  }

  // ---- Whole runs of any writers ----------------------------------------------------

  /** The tables after any interleaving of append calls; failed calls are among them. */
  function After(env: Env, writes: seq<Write>): Tables {
    if writes == [] then EMPTY
    else Transaction(env, After(env, writes[..|writes| - 1]), writes[|writes| - 1]).0
  }

  /** The same calls made to the reference store, for the calls the SQLite store committed. */
  function ReferenceAfter(env: Env, writes: seq<Write>): Streams {
    if writes == [] then map[]
    else
      var before := writes[..|writes| - 1];
      var w := writes[|writes| - 1];
      var s := ReferenceAfter(env, before);
      if Transaction(env, After(env, before), w).1.Appended? then Reference(s, w).0 else s
  }

  lemma {:induction false} CacheAlwaysReplay(env: Env, writes: seq<Write>)
    ensures CacheIsReplay(env, After(env, writes))
  {
    if writes != [] {
      CacheAlwaysReplay(env, writes[..|writes| - 1]);
      AppendKeepsCache(env, After(env, writes[..|writes| - 1]), writes[|writes| - 1]);
    }
  }

  /** The SQLite store refines the reference store: the committed calls, and only they, happened to the streams. */
  lemma {:induction false} SqliteRefinesMemory(env: Env, writes: seq<Write>, a: Aggregate)
    ensures RowsMatch(After(env, writes))
    ensures TableStream(After(env, writes), a) == StreamOf(ReferenceAfter(env, writes), a)
  {
    CacheAlwaysReplay(env, writes);
    if writes != [] {
      var before, w := writes[..|writes| - 1], writes[|writes| - 1];
      SqliteRefinesMemory(env, before, a);
      SqliteRefinesMemory(env, before, w.aggregate);
      CacheAlwaysReplay(env, before);
      RefinementStep(env, After(env, before), ReferenceAfter(env, before), w, a);
    }
  }

  lemma RefinementStep(env: Env, t: Tables, s: Streams, w: Write, a: Aggregate)
    requires RowsMatch(t) && IDsUnique(t)
    requires TableStream(t, a) == StreamOf(s, a) && TableStream(t, w.aggregate) == StreamOf(s, w.aggregate)
    ensures RowsMatch(Transaction(env, t, w).0)
    ensures TableStream(Transaction(env, t, w).0, a) ==
            StreamOf(if Transaction(env, t, w).1.Appended? then Reference(s, w).0 else s, a)
  {
    if Commits(env, t, w) {
      CommitShape(env, t, w);
      CommitExtends(env, t, w);
      hide RowsMatch, IDsUnique, Inserted, Refreshed, ValidDraft;
    }
  }

  /** A tables' answer to a write, without knowing more than the streams: what the memory store would say, or a refusal of its own. */
  lemma OutcomesAgree(env: Env, t: Tables, s: Streams, w: Write)
    requires CacheIsReplay(env, t) && TableStream(t, w.aggregate) == StreamOf(s, w.aggregate)
    ensures var sqlite, memory := Transaction(env, t, w).1, Reference(s, w).1;
      && (sqlite.Appended? ==> memory == sqlite)
      && (forall actual :: sqlite == Conflict(actual) <==> memory == Conflict(actual) && w.expected + |w.drafts| <= MAX_INT64)
      && (memory.Appended? && !sqlite.Appended? <==>
            && memory.Appended? && w.drafts != []
            && (|| w.expected + |w.drafts| > MAX_INT64 || !FreshIDs(t.rows, w)
                || (w.aggregate.kind == WORKLOAD && Replay(env, Fresh(w.aggregate), TableStream(t, w.aggregate) + EventsOf(w)).None?)))
  {
    hide CacheIsReplay, Inserted, Refreshed, Replay, ValidDraft, ValidAggregate, RowsMatch, TableStream, FreshIDs;
    assert RowsMatch(t) by { CacheRows(env, t); }
    if Admissible(w) && w.drafts != [] && w.expected + |w.drafts| <= MAX_INT64 { CommitsIff(env, t, w); }
  }

  /**
   Over all calls, committed or not: at every call of every run the SQLite store answers a version conflict exactly when
   the memory store holding the committed calls does, with the same version, and an append with the same events; it refuses
   what the memory store would take only out of range, for an identifier already used, or for a history the projection rejects.
   */
  lemma AnswersAgree(env: Env, writes: seq<Write>, w: Write)
    ensures CacheIsReplay(env, After(env, writes))
    ensures var t, s := After(env, writes), ReferenceAfter(env, writes);
      var sqlite, memory := Transaction(env, t, w).1, Reference(s, w).1;
      && (sqlite.Appended? ==> memory == sqlite)
      && (forall actual :: sqlite == Conflict(actual) <==> memory == Conflict(actual) && w.expected + |w.drafts| <= MAX_INT64)
      && (memory.Appended? && !sqlite.Appended? <==>
            && memory.Appended? && w.drafts != []
            && (|| w.expected + |w.drafts| > MAX_INT64 || !FreshIDs(t.rows, w)
                || (w.aggregate.kind == WORKLOAD && Replay(env, Fresh(w.aggregate), StreamOf(s, w.aggregate) + EventsOf(w)).None?)))
  {
    hide After, ReferenceAfter, Transaction, Reference, CacheIsReplay, Replay, TableStream, FreshIDs;
    CacheAlwaysReplay(env, writes);
    SqliteRefinesMemory(env, writes, w.aggregate);
    OutcomesAgree(env, After(env, writes), ReferenceAfter(env, writes), w);
  }

  /** The memory store takes a well-formed write exactly at the stream's version with every draft stamped, and adds exactly it. */
  lemma MemoryTakes(s: Streams, w: Write)
    requires Admissible(w) && w.drafts != []
    ensures var (s', outcome) := Reference(s, w);
      && (outcome.Appended? <==> |StreamOf(s, w.aggregate)| == w.expected && Stamped(w))
      && (outcome.Conflict? <==> |StreamOf(s, w.aggregate)| != w.expected)
      && (outcome.Conflict? ==> outcome.actual == |StreamOf(s, w.aggregate)|)
      && (outcome.Appended? ==> Materializes(w, outcome.events) && StreamOf(s', w.aggregate) == StreamOf(s, w.aggregate) + outcome.events)
      && (!outcome.Appended? ==> s' == s) && forall a :: a != w.aggregate ==> StreamOf(s', a) == StreamOf(s, a)
  {
    hide ValidDraft, ValidAggregate;
  }

  /** A committed event is never replaced: later calls only extend the stream. */
  lemma {:induction false} CommittedOnce(env: Env, writes: seq<Write>, more: seq<Write>, a: Aggregate)
    ensures RowsMatch(After(env, writes)) && RowsMatch(After(env, writes + more))
    ensures TableStream(After(env, writes), a) <= TableStream(After(env, writes + more), a)
  {
    hide Transaction, RowsMatch, IDsUnique, TableStream;
    TablesAgree(env, writes);
    TablesAgree(env, writes + more);
    if more == [] {
      assert writes + more == writes;
    } else {
      var init, w := more[..|more| - 1], more[|more| - 1];
      assert (writes + more)[..|writes + more| - 1] == writes + init && (writes + more)[|writes + more| - 1] == w;
      CommittedOnce(env, writes, init, a);
      TablesAgree(env, writes + init);
      StreamGrows(env, After(env, writes + init), w, a);
    }
  }

  lemma TablesAgree(env: Env, writes: seq<Write>)
    ensures RowsMatch(After(env, writes)) && IDsUnique(After(env, writes))
  {
    CacheAlwaysReplay(env, writes);
    hide After, RowsMatch, IDsUnique;
  }

  lemma StreamGrows(env: Env, t: Tables, w: Write, a: Aggregate)
    requires RowsMatch(t) && IDsUnique(t)
    ensures RowsMatch(Transaction(env, t, w).0)
    ensures TableStream(t, a) <= TableStream(Transaction(env, t, w).0, a)
  {
    if Commits(env, t, w) {
      CommitExtends(env, t, w);
    }
    hide RowsMatch, IDsUnique, Inserted, Refreshed, ValidDraft;
  }

  // ---- The SQLite store -----------------------------------------------------------

  lemma InsertedPrefix(rows: map<(Aggregate, nat), Event>, es: seq<Event>, k: nat)
    requires k <= |es| && Inserted(rows, es[..k]).None?
    ensures Inserted(rows, es).None?
    decreases |es| - k
  {
    if k < |es| {
      assert es[..k + 1][..k] == es[..k];
      InsertedPrefix(rows, es, k + 1);
    } else {
      assert es[..k] == es;
    }
  }

  lemma ReplayPrefix(env: Env, p: View, es: seq<Event>, k: nat)
    requires k <= |es| && Replay(env, p, es[..k]).None?
    ensures Replay(env, p, es).None?
  {
    ReplayAppend(env, p, es[..k], es[k..]);
    assert es == es[..k] + es[k..];
  }

  class SqliteStore {
    var versions: map<Aggregate, nat>
    var rows: map<(Aggregate, nat), Event>
    var documents: map<Aggregate, Document>

    function Contents(): Tables
      reads this
    {
      Tables(versions, rows, documents)
    }

    constructor ()
      ensures Contents() == EMPTY
    {
      versions, rows, documents := map[], map[], map[];
    }

    /** Append: work on the transaction's copies, and assign them only at commit. */
    method Append(env: Env, w: Write) returns (r: Outcome)
      modifies this
      ensures (Contents(), r) == Transaction(env, old(Contents()), w)
    {
      hide Replay, Inserted, Applied, ValidDraft, ValidAggregate;
      if !Admissible(w) { return Refused; }
      if w.drafts == [] { return Appended([]); }
      if w.expected + |w.drafts| > MAX_INT64 { return Refused; }
      var claimed := versions;
      if w.aggregate !in claimed { claimed := claimed[w.aggregate := 0]; }
      if claimed[w.aggregate] != w.expected { return Conflict(claimed[w.aggregate]); }
      claimed := claimed[w.aggregate := w.expected + |w.drafts|];
      if |w.stamps| != |w.drafts| { return Refused; }
      var created, inserted := InsertAll(w);
      if inserted.None? { return Refused; }
      var refreshed := documents;
      if w.aggregate.kind == WORKLOAD {
        var view := UpdateProjection(env, w.aggregate, w.expected, created);
        if view.None? { return Refused; }
        refreshed := refreshed[w.aggregate := Document(view.value.version, view.value)];
      }
      assert claimed == versions[w.aggregate := w.expected + |w.drafts|];
      versions, rows, documents := claimed, inserted.value, refreshed;
      return Appended(created);
    }

    /** Materialize the drafts one by one and insert each into the transaction's copy of the event table. */
    method InsertAll(w: Write) returns (created: seq<Event>, inserted: Option<map<(Aggregate, nat), Event>>)
      requires |w.stamps| == |w.drafts|
      ensures inserted.Some? ==> Stamped(w) && created == EventsOf(w) && Inserted(rows, created) == inserted
      ensures inserted.None? ==> !Stamped(w) || Inserted(rows, EventsOf(w)).None?
    {
      var table := rows;
      created := [];
      for i := 0 to |w.drafts|
        invariant |created| == i
        invariant forall j :: 0 <= j < i ==> w.stamps[j].id != ZERO_ID && w.stamps[j].at != 0
        invariant forall j :: 0 <= j < i ==>
          created[j] == Event(w.stamps[j].id, w.aggregate, w.expected + j + 1, w.drafts[j], w.stamps[j].at, true)
        invariant Inserted(rows, created) == Some(table)
      {
        if w.stamps[i].id == ZERO_ID || w.stamps[i].at == 0 { return created, None; }
        var e := Event(w.stamps[i].id, w.aggregate, w.expected + i + 1, w.drafts[i], w.stamps[i].at, true);
        assert (created + [e])[..i] == created;
        if (e.aggregate, e.sequence) in table || !NewID(table, e.id) {
          if Stamped(w) {
            assert EventsOf(w)[..i + 1] == created + [e];
            InsertedPrefix(rows, EventsOf(w), i + 1);
          }
          return created, None;
        }
        table := table[(e.aggregate, e.sequence) := e];
        created := created + [e];
      }
      assert Stamped(w) && created == EventsOf(w);
      return created, Some(table);
    }

    /** updateWorkloadProjection: the cached projection, with each new event applied to it. */
    method UpdateProjection(env: Env, a: Aggregate, expected: nat, es: seq<Event>) returns (v: Option<View>)
      requires a.kind == WORKLOAD
      ensures v.Some? ==> Cached(Contents(), a, expected).Some? && v == Replay(env, Cached(Contents(), a, expected).value, es)
      ensures v.None? ==>
        Cached(Contents(), a, expected).None? || Replay(env, Cached(Contents(), a, expected).value, es).None?
    {
      hide Applied;
      var cached := Cached(Contents(), a, expected);
      if cached.None? { return None; }
      var p := new WorkloadProjection.FromView(cached.value);
      for k := 0 to |es|
        invariant Replay(env, cached.value, es[..k]) == Some(p.Value())
      {
        ReplaySnoc(env, cached.value, es[..k], es[k]);
        assert es[..k + 1] == es[..k] + [es[k]];
        var ok := p.Apply(env, es[k]);
        if !ok {
          ReplayPrefix(env, cached.value, es, k + 1);
          return None;
        }
      }
      assert es[..|es|] == es;
      return Some(p.Value());
    }

    /** Load: the rows after a sequence in ascending order; never a gap while the tables agree. */
    method Load(a: Aggregate, after: nat) returns (events: Option<seq<Event>>)
      requires RowsMatch(Contents())
      ensures events == Some(if after > MAX_INT64 || after >= Version(Contents(), a) then [] else TableStream(Contents(), a)[after..])
    {
      var found: seq<Event>, expected := [], after + 1;
      var stream := TableStream(Contents(), a);
      if after > MAX_INT64 || after >= |stream| { return Some([]); }
      for n := after to |stream|
        invariant expected == n + 1
        invariant found == stream[after..n]
      {
        var e := stream[n];
        if e.sequence != expected { return None; }
        expected := expected + 1;
        found := found + [e];
      }
      assert stream[after..|stream|] == stream[after..];
      return Some(found);
    }

    /** LoadWorkloadProjection: the cached row is the replay of the whole stream, so no history has to be read. */
    method LoadWorkloadProjection(env: Env, a: Aggregate) returns (v: Option<View>)
      requires CacheIsReplay(env, Contents()) && a.kind == WORKLOAD
      ensures v == if Version(Contents(), a) == 0 then None else Replay(env, Fresh(a), TableStream(Contents(), a))
    {
      if a !in documents { return None; }
      var d := documents[a];
      assert CachedReplay(env, Contents(), a);
      CreatedFirst(env, a, TableStream(Contents(), a));
      if d.sequence < 1 || d.view.aggregate != a || d.view.version != d.sequence || d.view.workload.id != a.id { return None; }
      return Some(d.view);
    }
  }

  /** The first event an accepted history can hold creates the workload of the aggregate. */
  lemma {:induction false} CreatedFirst(env: Env, a: Aggregate, es: seq<Event>)
    requires Replay(env, Fresh(a), es).Some? && es != []
    ensures Replay(env, Fresh(a), es).value.workload.id == a.id && a.id != ZERO_ID
  {
    var before := es[..|es| - 1];
    if before != [] { CreatedFirst(env, a, before); }
    hide Blank, ValidBudget, ValidRequirements, RecordOk, CanTransitionWorkload, CanTransitionStep;
    if before == [] { assert Replay(env, Fresh(a), before) == Some(Fresh(a)); }
    RecordsNeedRunning(env, Replay(env, Fresh(a), before).value, es[|es| - 1]);
  }

  lemma RecordsNeedRunning(env: Env, p: View, e: Event)
    ensures e.draft.payload.ExecutionRecorded? && RecordOk(env, p, e, e.draft.payload.record) ==> p.workload.state == WRunning
  {
  }
}
