/**
 * Browser-side replication of the `documents` table: a one-off jump start
 * of up to 20 rows, a pull handler that pages through the table by
 * `created_at` from a checkpoint, and a realtime subscription that asks
 * for a resync on every insert.
 */
module RxSync {
  import opened Wrappers
  import opened Js
  import opened Store
  import opened RxSchema

  /** A document as stored locally (the empty `_attachments` object is left out). */
  datatype LocalDoc = LocalDoc(
    id: string,
    title: string,
    url: string,
    content: string,
    projectId: string,
    sourceType: string,
    score: real,
    updatedAt: int,
    deleted: bool)

  /** The mapping shared by the jump start and the pull handler. */
  function LocalDocOf(d: RemoteDoc): (l: LocalDoc)
    ensures l.id == d.id && l.updatedAt == d.createdAt && !l.deleted
    ensures l.title == OrElse(d.title, "Untitled") && l.url == OrElse(d.url, "")
    ensures l.content == OrElse(d.content, "") && l.projectId == OrElse(d.projectId, "")
    ensures l.sourceType == OrElse(d.sourceType, "web_search") && l.score == OrZero(d.score)
  {
    LocalDoc(d.id, OrElse(d.title, "Untitled"), OrElse(d.url, ""), OrElse(d.content, ""),
             OrElse(d.projectId, ""), OrElse(d.sourceType, "web_search"), OrZero(d.score), d.createdAt, false)
  }

  function LocalDocs(rows: seq<RemoteDoc>): (ls: seq<LocalDoc>)
    ensures |ls| == |rows|
    ensures forall i :: 0 <= i < |rows| ==> ls[i] == LocalDocOf(rows[i])
  {
    seq(|rows|, i requires 0 <= i < |rows| => LocalDocOf(rows[i]))
  }

  /** The stored object; `stamp` renders an instant as its ISO text. */
  function ToJson(l: LocalDoc, stamp: int -> string): Json {
    JObj(map["id" := JStr(l.id), "title" := JStr(l.title), "url" := JStr(l.url), "content" := JStr(l.content),
             "project_id" := JStr(l.projectId), "source_type" := JStr(l.sourceType),
             "math_density_score" := JNum(l.score), "updated_at" := JStr(stamp(l.updatedAt)),
             "_deleted" := JBool(l.deleted)])
  }

  /**
   * A mapped row satisfies the local schema exactly when its id has at most
   * 100 characters and its score (0 when unset) lies in `[0, 100]`.
   */
  lemma MappedDocValid(d: RemoteDoc, stamp: int -> string)
    ensures ValidDoc(ToJson(LocalDocOf(d), stamp)) <==> |d.id| <= 100 && 0.0 <= OrZero(d.score) <= 100.0
  {
    var o := ToJson(LocalDocOf(d), stamp).fields;
    assert o["id"] == JStr(d.id) && o["math_density_score"] == JNum(OrZero(d.score));
  }

  /** The pull checkpoint: the `updated_at` of the last row pulled, or none yet. */
  type Checkpoint = Option<int>

  /** `lastCheckpoint ? lastCheckpoint.updated_at : new Date(0)`. */
  function Bound(cp: Checkpoint): int {
    if cp.Some? then cp.value else 0
  }

  predicate Ascending(rows: seq<RemoteDoc>) {
    forall i, j :: 0 <= i < j < |rows| ==> rows[i].createdAt <= rows[j].createdAt
  }

  /**
   * What the store may answer to `gt(created_at, bound)`, ascending, limited
   * to `limit` rows: rows of the table strictly after the bound, in
   * ascending order, no more than the limit, every row older than the
   * last one returned, and (when not cut by the limit) all of them.
   */
  predicate QueryAnswer(table: seq<RemoteDoc>, bound: int, limit: nat, data: seq<RemoteDoc>) {
    && (forall r :: r in data ==> r in table && r.createdAt > bound)
    && Ascending(data)
    && |data| <= limit
    && (data != [] ==> forall r :: r in table && bound < r.createdAt < data[|data| - 1].createdAt ==> r in data)
    && (|data| < limit ==> forall r :: r in table && r.createdAt > bound ==> r in data)
  }

  datatype PullResult = PullResult(documents: seq<LocalDoc>, checkpoint: Checkpoint)

  /**
   * The pull `handler`: `response` is what the store answered for the
   * checkpoint's bound. An error is rethrown; otherwise the rows are mapped
   * and the checkpoint moves to the last row's timestamp, or stays.
   */
  function Pull(cp: Checkpoint, response: Result<seq<RemoteDoc>>): (r: Result<PullResult>)
    ensures response.Err? <==> r.Err?
    ensures response.Ok? ==> r.value.documents == LocalDocs(response.value)
    ensures response.Ok? && response.value == [] ==> r.value.checkpoint == cp
    ensures response.Ok? && response.value != [] ==>
              r.value.checkpoint == Some(response.value[|response.value| - 1].createdAt)
  {
    match response
    case Err(m) => Err(m)
    case Ok(data) =>
      var docs := LocalDocs(data);
      Ok(PullResult(docs, if |docs| > 0 then Some(docs[|docs| - 1].updatedAt) else cp))
  }

  /**
   * Progress is monotone: the new bound is never below the old one, every
   * pulled row lies after the old bound and at or before the new one, and
   * a non-empty batch moves the bound strictly forward.
   */
  lemma PullProgress(table: seq<RemoteDoc>, cp: Checkpoint, limit: nat, data: seq<RemoteDoc>)
    requires QueryAnswer(table, Bound(cp), limit, data)
    ensures var r := Pull(cp, Ok(data)).value;
            && Bound(cp) <= Bound(r.checkpoint)
            && (data != [] ==> Bound(cp) < Bound(r.checkpoint))
            && forall l :: l in r.documents ==> Bound(cp) < l.updatedAt <= Bound(r.checkpoint)
  {
    PullBounds(cp, data);
    if data != [] {
      assert data[|data| - 1] in data;
    }
  }

  /** Pulled documents lie between the old bound and the new, from the rows alone. */
  lemma PullBounds(cp: Checkpoint, data: seq<RemoteDoc>)
    requires Ascending(data) && forall r :: r in data ==> r.createdAt > Bound(cp)
    ensures var r := Pull(cp, Ok(data)).value;
            forall l :: l in r.documents ==> Bound(cp) < l.updatedAt <= Bound(r.checkpoint)
  {
    if data != [] {
      PulledWithin(data, Bound(cp));
      var r := Pull(cp, Ok(data)).value;
      var ls := LocalDocs(data);
      assert r.documents == ls && Bound(r.checkpoint) == data[|data| - 1].createdAt;
      forall l | l in ls
        ensures Bound(cp) < l.updatedAt <= data[|data| - 1].createdAt
      {
        var i :| 0 <= i < |ls| && ls[i] == l;
        assert l.updatedAt == data[i].createdAt;
      }
    }
  }

  /** Ascending rows all after `bound` lie between it and the last row's time. */
  lemma PulledWithin(data: seq<RemoteDoc>, bound: int)
    requires data != [] && Ascending(data)
    requires forall r :: r in data ==> r.createdAt > bound
    ensures forall i :: 0 <= i < |data| ==> bound < data[i].createdAt <= data[|data| - 1].createdAt
  {
    forall i | 0 <= i < |data|
      ensures bound < data[i].createdAt
    {
      assert data[i] in data;
    }
  }

  /**
   * Replaying a pull when no row is newer than the checkpoint returns no
   * document and leaves the checkpoint as it was.
   */
  lemma ReplayIdempotent(table: seq<RemoteDoc>, cp: Checkpoint, limit: nat, data: seq<RemoteDoc>)
    requires QueryAnswer(table, Bound(cp), limit, data)
    requires forall r :: r in table ==> r.createdAt <= Bound(cp)
    ensures Pull(cp, Ok(data)) == Ok(PullResult([], cp))
  {
  }

  /** Rows of a later pull are all newer than every row of the pull before it. */
  lemma SuccessivePulls(table: seq<RemoteDoc>, cp: Checkpoint, limit: nat, first: seq<RemoteDoc>, second: seq<RemoteDoc>)
    requires QueryAnswer(table, Bound(cp), limit, first)
    requires QueryAnswer(table, Bound(Pull(cp, Ok(first)).value.checkpoint), limit, second)
    ensures forall a, b :: a in first && b in second ==> a.createdAt < b.createdAt
  {
    PullProgress(table, cp, limit, first);
    forall a, b | a in first && b in second
      ensures a.createdAt < b.createdAt
    {
      var i :| 0 <= i < |first| && first[i] == a;
      assert LocalDocs(first)[i] in Pull(cp, Ok(first)).value.documents;
    }
  }

  /**
   * Rows inserted by one statement share their `created_at`. When a full
   * batch ends inside such a group, the strict `gt` on the new checkpoint
   * skips the rest of the group for good: here two rows share instant 1,
   * the batch size is 1, and after the first pull the second row is
   * neither pulled nor newer than the checkpoint, so no later pull returns it.
   */
  lemma TieSkipped()
    ensures var a := RemoteDoc("a", None, None, None, None, None, None, 1);
            var b := RemoteDoc("b", None, None, None, None, None, None, 1);
            var table := [a, b];
            var cp := Pull(None, Ok([a])).value.checkpoint;
            && QueryAnswer(table, Bound(None), 1, [a])
            && b in table && b !in [a] && !(b.createdAt > Bound(cp))
            && forall data :: QueryAnswer(table, Bound(cp), 1, data) ==> data == []
  {
    var a := RemoteDoc("a", None, None, None, None, None, None, 1);
    var b := RemoteDoc("b", None, None, None, None, None, None, 1);
    assert Pull(None, Ok([a])).value.checkpoint == Some(1);
    forall data | QueryAnswer([a, b], 1, 1, data)
      ensures data == []
    {
      ReplayIdempotent([a, b], Some(1), 1, data);
    }
  }

  /**
   * The corrected checkpoint: the last instant pulled and the ids already
   * pulled at that instant. Rows at that instant with other ids are still due.
   */
  datatype SeenCheckpoint = SeenCheckpoint(at: int, seen: set<string>)

  /** A row the next pull still owes. */
  predicate Due(cp: SeenCheckpoint, r: RemoteDoc) {
    r.createdAt > cp.at || (r.createdAt == cp.at && r.id !in cp.seen)
  }

  /**
   * The corrected query, `gte(created_at, at)` minus the seen ids, ascending,
   * limited: due rows only, in order, every due row older than the last one
   * returned, and all of them when not cut by the limit.
   */
  predicate DueAnswer(table: seq<RemoteDoc>, cp: SeenCheckpoint, limit: nat, data: seq<RemoteDoc>) {
    && (forall r :: r in data ==> r in table && Due(cp, r))
    && Ascending(data)
    && |data| <= limit
    && (data != [] ==> forall r :: r in table && Due(cp, r) && r.createdAt < data[|data| - 1].createdAt ==> r in data)
    && (|data| < limit ==> forall r :: r in table && Due(cp, r) ==> r in data)
  }

  /** The ids of the batch's rows at instant `at`. */
  function IdsAt(data: seq<RemoteDoc>, at: int): (ids: set<string>)
    ensures forall r :: r in data && r.createdAt == at ==> r.id in ids
    ensures forall x :: x in ids ==> exists r :: r in data && r.createdAt == at && r.id == x
  {
    set r | r in data && r.createdAt == at :: r.id
  }

  /** The corrected handler's new checkpoint. */
  function NextSeen(cp: SeenCheckpoint, data: seq<RemoteDoc>): SeenCheckpoint {
    if data == [] then cp
    else
      var last := data[|data| - 1].createdAt;
      SeenCheckpoint(last, IdsAt(data, last) + (if last == cp.at then cp.seen else {}))
  }

  datatype SeenPull = SeenPull(documents: seq<LocalDoc>, checkpoint: SeenCheckpoint)

  /** The corrected pull handler: the same mapping and error path, the corrected checkpoint. */
  function PullSeen(cp: SeenCheckpoint, response: Result<seq<RemoteDoc>>): (r: Result<SeenPull>)
    ensures response.Err? <==> r.Err?
    ensures response.Ok? ==> r.value.documents == LocalDocs(response.value)
    ensures response.Ok? && response.value == [] ==> r.value.checkpoint == cp
  {
    match response
    case Err(m) => Err(m)
    case Ok(data) => Ok(SeenPull(LocalDocs(data), NextSeen(cp, data)))
  }

  predicate UniqueIds(table: seq<RemoteDoc>) {
    forall i, j :: 0 <= i < |table| && 0 <= j < |table| && table[i].id == table[j].id ==> table[i] == table[j]
  }

  /**
   * With the corrected checkpoint no row is ever skipped: a due row of the
   * table is either in the batch or still due afterwards, whatever the batch
   * size and however many rows share an instant.
   */
  lemma NoRowSkipped(table: seq<RemoteDoc>, cp: SeenCheckpoint, limit: nat, data: seq<RemoteDoc>, r: RemoteDoc)
    requires UniqueIds(table) && DueAnswer(table, cp, limit, data)
    requires r in table && Due(cp, r)
    ensures r in data || Due(PullSeen(cp, Ok(data)).value.checkpoint, r)
  {

  }

  /** The corrected checkpoint also never moves back, and a non-empty batch moves it forward or grows its seen set. */
  lemma SeenProgress(table: seq<RemoteDoc>, cp: SeenCheckpoint, limit: nat, data: seq<RemoteDoc>)
    requires DueAnswer(table, cp, limit, data)
    ensures var next := PullSeen(cp, Ok(data)).value.checkpoint;
            && cp.at <= next.at
            && (next.at == cp.at ==> cp.seen <= next.seen)
            && forall r :: r in data ==> !Due(next, r)
  {
    if data != [] {
      var last := data[|data| - 1].createdAt;
      assert data[|data| - 1] in data;
      forall r | r in data
        ensures !Due(NextSeen(cp, data), r)
      {
        var i :| 0 <= i < |data| && data[i] == r;
      }
    }
  }

  /** The local `documents` collection, keyed by id. */
  class LocalCollection {
    var docs: map<string, LocalDoc>

    constructor ()
      ensures docs == map[]
    {
      docs := map[];
    }

    /** `bulkUpsert`: each row in turn replaces the document with its id, or adds it. */
    method BulkUpsert(rows: seq<LocalDoc>)
      modifies this
      ensures docs == UpsertAll(old(docs), rows, |rows|)
    {
      var i := 0;
      while i < |rows|
        invariant 0 <= i <= |rows|
        invariant docs == UpsertAll(old(docs), rows, i)
      {
        docs := docs[rows[i].id := rows[i]];
        i := i + 1;
      }
    }
  }

  /** The collection after upserting the first `i` rows in order. */
  function UpsertAll(m: map<string, LocalDoc>, rows: seq<LocalDoc>, i: nat): map<string, LocalDoc>
    requires i <= |rows|
  {
    if i == 0 then m else UpsertAll(m, rows, i - 1)[rows[i - 1].id := rows[i - 1]]
  }

  /** An upsert holds every row's id and no key that was neither present nor upserted. */
  lemma {:induction false} UpsertAllKeys(m: map<string, LocalDoc>, rows: seq<LocalDoc>, i: nat)
    requires i <= |rows|
    ensures forall j :: 0 <= j < i ==> rows[j].id in UpsertAll(m, rows, i)
    ensures forall k :: k in UpsertAll(m, rows, i) <==> k in m || exists j :: 0 <= j < i && rows[j].id == k
  {
    if i > 0 {
      UpsertAllKeys(m, rows, i - 1);
    }
  }

  /** A key no row carries keeps its document. */
  lemma {:induction false} UpsertAllKeeps(m: map<string, LocalDoc>, rows: seq<LocalDoc>, i: nat, k: string)
    requires i <= |rows| && k in m
    requires forall j :: 0 <= j < i ==> rows[j].id != k
    ensures k in UpsertAll(m, rows, i) && UpsertAll(m, rows, i)[k] == m[k]
  {
    if i > 0 {
      UpsertAllKeeps(m, rows, i - 1, k);
    }
  }

  /** The last row carrying an id is the document stored under it. */
  lemma {:induction false} UpsertAllLastWins(m: map<string, LocalDoc>, rows: seq<LocalDoc>, i: nat, j: nat)
    requires j < i <= |rows|
    requires forall j' :: j < j' < i ==> rows[j'].id != rows[j].id
    ensures rows[j].id in UpsertAll(m, rows, i) && UpsertAll(m, rows, i)[rows[j].id] == rows[j]
  {
    if j < i - 1 {
      UpsertAllLastWins(m, rows, i - 1, j);
    }
  }

  /**
   * The debug jump start: the store answers the unordered `limit(20)` query
   * with the first 20 rows of `table` in its own order; a fetch error or an
   * empty answer does nothing, and a failing upsert is swallowed.
   */
  method JumpStart(coll: LocalCollection, table: seq<RemoteDoc>, fetchError: bool, upsertThrows: bool)
    modifies coll
    ensures fetchError || table == [] || upsertThrows ==> coll.docs == old(coll.docs)
    ensures !fetchError && table != [] && !upsertThrows ==>
              coll.docs == UpsertAll(old(coll.docs), JumpStartRows(table), |JumpStartRows(table)|)
  {
    if fetchError {
      return;
    }
    var data := Take(table, 20);
    if |data| > 0 {
      var rows := LocalDocs(data);
      if !upsertThrows {
        coll.BulkUpsert(rows);
      }
    }
  }

  /** The rows the jump start upserts: at most 20, mapped as the pull handler maps them. */
  function JumpStartRows(table: seq<RemoteDoc>): (rows: seq<LocalDoc>)
    ensures |rows| <= 20
    ensures |rows| == |Take(table, 20)|
    ensures forall i :: 0 <= i < |rows| ==> rows[i] == LocalDocOf(table[i])
  {
    LocalDocs(Take(table, 20))
  }

  /** A realtime change as the channel delivers it. */
  datatype Change = Change(event: string, schema: string, table: string)

  /** The subscription's filter: inserts into `public.documents`. */
  predicate Subscribed(c: Change) {
    c.event == "INSERT" && c.schema == "public" && c.table == "documents"
  }

  function CountSubscribed(cs: seq<Change>, i: nat): (n: nat)
    requires i <= |cs|
    ensures n <= i
  {
    if i == 0 then 0 else CountSubscribed(cs, i - 1) + (if Subscribed(cs[i - 1]) then 1 else 0)
  }

  /** The live document replication, as far as the realtime trigger sees it. */
  class Replication {
    var resyncs: nat

    constructor ()
      ensures resyncs == 0
    {
      resyncs := 0;
    }

    /** `docReplication.reSync()`. */
    method ReSync()
      modifies this
      ensures resyncs == old(resyncs) + 1
    {
      resyncs := resyncs + 1;
    }

    /** The channel's callback over a stream of changes: one resync per subscribed insert. */
    method OnChanges(changes: seq<Change>)
      modifies this
      ensures resyncs == old(resyncs) + CountSubscribed(changes, |changes|)
    {
      var i := 0;
      while i < |changes|
        invariant 0 <= i <= |changes|
        invariant resyncs == old(resyncs) + CountSubscribed(changes, i)
      {
        if Subscribed(changes[i]) {
          ReSync();
        }
        i := i + 1;
      }
    }
  }
}
