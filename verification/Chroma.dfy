/**
 Replacing records in a Chroma collection whose own upsert merges
 (connector/additional_rest.go, writeChroma and readChroma).
 */
module Chroma {
  import opened Basics
  import opened Decimals
  import opened Records

  const DOCUMENT := "_chroma_document"
  const LINK := "_chroma_uri"
  const INTERNAL := "chroma:"

  type Metadata = map<string, Json>

  /** A row of the collection; the server stores no null metadata values. */
  datatype Stored = Stored(vector: seq<Float>, metadata: Metadata, document: Option<string>, uri: Option<string>)

  datatype Fault = RefusedMetadata | RefusedField | StaleField | RemoteFailure

  predicate Reserved(key: string) {
    key == DOCUMENT || key == LINK
  }

  // ---- the server ----

  /** Key-wise merge: an update value of null deletes the key; no update at all changes nothing. */
  function Merge(stored: Metadata, update: Option<Metadata>): Metadata {
    match update
    case None => stored
    case Some(u) =>
      map k | k in stored.Keys + u.Keys && !(k in u && u[k] == Null) :: if k in u then u[k] else stored[k]
  }

  /** What an upsert of one row leaves: absent document and URI values keep the stored ones. */
  function Upserted(rows: map<string, Stored>, id: string, vector: seq<Float>, update: Option<Metadata>,
                    document: Option<string>, uri: Option<string>): Stored
  {
    var row := if id in rows then rows[id] else Stored([], map[], None, None);
    Stored(vector, Merge(row.metadata, update),
           if document.Some? then document else row.document, if uri.Some? then uri else row.uri)
  }

  class Collection {
    var rows: map<string, Stored>

    /** POST get with ids: the rows that exist, in an order of the server's choice. */
    method Get(ids: seq<string>) returns (found: seq<string>)
      ensures forall id :: id in found <==> id in ids && id in rows
      ensures forall i, j :: 0 <= i < j < |found| ==> found[i] != found[j]
    {
      found := [];
      var rest := set id | id in ids && id in rows;
      while rest != {}
        invariant forall id :: id in ids && id in rows <==> id in rest || id in found
        invariant forall id :: id in found ==> id !in rest
        invariant forall i, j :: 0 <= i < j < |found| ==> found[i] != found[j]
        decreases |rest|
      {
        var id :| id in rest;
        found := found + [id];
        rest := rest - {id};
      }
    }

    /** POST upsert, applied to the rows named by reached. */
    method Upsert(ids: seq<string>, vectors: seq<seq<Float>>, metadata: seq<Option<Metadata>>,
                  documents: seq<Option<string>>, uris: seq<Option<string>>, reached: set<string>)
      requires |ids| == |vectors| == |metadata| == |documents| == |uris|
      requires forall i, j :: 0 <= i < j < |ids| ==> ids[i] != ids[j]
      modifies this
      ensures forall i :: 0 <= i < |ids| && ids[i] in reached ==> Holds(rows, ids[i],
        Upserted(old(rows), ids[i], vectors[i], metadata[i], documents[i], uris[i]))
      ensures forall id :: !(id in ids && id in reached) ==> SameRow(old(rows), rows, id)
    {
      var i := 0;
      while i < |ids|
        invariant i <= |ids|
        invariant forall k :: 0 <= k < i && ids[k] in reached ==> Holds(rows, ids[k],
          Upserted(old(rows), ids[k], vectors[k], metadata[k], documents[k], uris[k]))
        invariant forall id :: !(id in ids[..i] && id in reached) ==> SameRow(old(rows), rows, id)
      {
        assert ids[i] !in ids[..i];
        if ids[i] in reached {
          rows := rows[ids[i] := Upserted(rows, ids[i], vectors[i], metadata[i], documents[i], uris[i])];
        }
        assert ids[..i + 1] == ids[..i] + [ids[i]];
        i := i + 1;
      }
      assert ids[..i] == ids;
    }
  }

  predicate Holds(rows: map<string, Stored>, id: string, row: Stored) {
    id in rows && rows[id] == row
  }

  predicate SameRow(a: map<string, Stored>, b: map<string, Stored>, id: string) {
    (id in a <==> id in b) && (id in a ==> a[id] == b[id])
  }

  // ---- what a write means ----

  function Plain(r: Record): Metadata {
    map k | k in r.metadata && !Reserved(k) :: r.metadata[k]
  }

  predicate Storable(r: Record) {
    forall k :: k in r.metadata && !Reserved(k) ==> r.metadata[k] != Null && !(INTERNAL <= k)
  }

  /** json.Unmarshal into a string: a JSON null leaves it empty without an error. */
  function Text(v: Json): Option<string> {
    match v
    case Null => Some("")
    case Str(s) => Some(s)
    case Other(_) => None
    case Malformed(_) => None
  }

  predicate Textual(r: Record, key: string) {
    key in r.metadata ==> Text(r.metadata[key]).Some?
  }

  function Field(r: Record, key: string): Option<string> {
    if key in r.metadata then Text(r.metadata[key]) else None
  }

  /** The row that holds exactly what the record says. */
  function Image(r: Record): Stored {
    Stored(r.values, Plain(r), Field(r, DOCUMENT), Field(r, LINK))
  }

  /**
   The row says what the record says: "_chroma_document" is its document,
   "_chroma_uri" its URI, JSON null is empty text, and every other key is metadata.
   */
  ghost predicate Stores(row: Stored, r: Record) {
    && row.vector == r.values
    && (forall k :: k in row.metadata <==> k in r.metadata && k != "_chroma_document" && k != "_chroma_uri")
    && (forall k :: k in row.metadata ==> row.metadata[k] == r.metadata[k])
    && Column(r, "_chroma_document", row.document) && Column(r, "_chroma_uri", row.uri)
  }

  /** The column holds the text of the key, and nothing without the key. */
  predicate Column(r: Record, key: string, text: Option<string>) {
    if key !in r.metadata then text == None
    else text.Some? && (r.metadata[key] == Str(text.value) || (r.metadata[key] == Null && text.value == ""))
  }

  lemma ImageStores(r: Record)
    requires Textual(r, DOCUMENT) && Textual(r, LINK)
    ensures Stores(Image(r), r)
  {
  }

  /** A record that can replace its row: no null and no "chroma:" key, text in both columns, and no column left behind. */
  predicate Replaces(rows: map<string, Stored>, r: Record) {
    && (forall k :: k in r.metadata && k != "_chroma_document" && k != "_chroma_uri" ==> r.metadata[k] != Null && !("chroma:" <= k))
    && (forall k :: k in r.metadata && (k == "_chroma_document" || k == "_chroma_uri") ==> r.metadata[k].Null? || r.metadata[k].Str?)
    && (r.id in rows && rows[r.id].document.Some? ==> "_chroma_document" in r.metadata)
    && (r.id in rows && rows[r.id].uri.Some? ==> "_chroma_uri" in r.metadata)
  }

  lemma WritableReplaces(rows: map<string, Stored>, r: Record)
    ensures Writable(rows, r) <==> Replaces(rows, r)
  {
  }

  /** A document or URI the record does not replace. */
  predicate Stale(rows: map<string, Stored>, r: Record) {
    r.id in rows && ((rows[r.id].document.Some? && Field(r, DOCUMENT).None?) || (rows[r.id].uri.Some? && Field(r, LINK).None?))
  }

  predicate Writable(rows: map<string, Stored>, r: Record) {
    Storable(r) && Textual(r, DOCUMENT) && Textual(r, LINK) && !Stale(rows, r)
  }

  /** The collection after rs replaced whatever it held under their ids. */
  ghost predicate Replaced(before: map<string, Stored>, after: map<string, Stored>, rs: seq<Record>) {
    && (forall i :: 0 <= i < |rs| ==> Holds(after, rs[i].id, Image(rs[i])))
    && (forall id :: (forall i :: 0 <= i < |rs| ==> rs[i].id != id) ==> SameRow(before, after, id))
  }

  /** Rows already replaced, the others as before: all that a lost answer can leave. */
  ghost predicate PartlyReplaced(before: map<string, Stored>, after: map<string, Stored>, rs: seq<Record>) {
    && (forall i :: 0 <= i < |rs| ==> Holds(after, rs[i].id, Image(rs[i])) || SameRow(before, after, rs[i].id))
    && (forall id :: (forall i :: 0 <= i < |rs| ==> rs[i].id != id) ==> SameRow(before, after, id))
  }

  function NilIfEmpty(m: Metadata): Option<Metadata> {
    if m == map[] then None else Some(m)
  }

  /** The update that turns old metadata into m: stale keys become null. */
  function Update(m: Metadata, stored: Metadata): Option<Metadata> {
    NilIfEmpty(m + map k | k in stored && k !in m :: Null)
  }

  lemma MergeReplaces(m: Metadata, stored: Metadata)
    requires forall k :: k in m ==> m[k] != Null
    ensures Merge(stored, Update(m, stored)) == m
  {
    var nulls := map k | k in stored && k !in m :: Null;
    var u := m + nulls;
    if u == map[] {
      assert m.Keys <= u.Keys && nulls.Keys <= u.Keys;
      assert stored.Keys <= nulls.Keys + m.Keys;
      assert m == map[] && stored == map[];
    }
  }

  lemma MergeFresh(m: Metadata)
    requires forall k :: k in m ==> m[k] != Null
    ensures Merge(map[], NilIfEmpty(m)) == m
  {
  }

  /** The body of the request for one record, checked key by key. */
  method Prepare(r: Record) returns (fault: Option<Fault>, m: Metadata, document: Option<string>, uri: Option<string>)
    ensures fault.None? <==> Storable(r) && Textual(r, DOCUMENT) && Textual(r, LINK)
    ensures fault.None? ==> m == Plain(r) && document == Field(r, DOCUMENT) && uri == Field(r, LINK)
    ensures fault.Some? ==> fault.value == RefusedMetadata || fault.value == RefusedField
  {
    m, document, uri := map[], None, None;
    var rest := r.metadata.Keys;
    while rest != {}
      invariant rest <= r.metadata.Keys
      invariant forall k :: k in r.metadata && k !in rest && !Reserved(k) ==> r.metadata[k] != Null && !(INTERNAL <= k)
      invariant m == map k | k in r.metadata && k !in rest && !Reserved(k) :: r.metadata[k]
      decreases |rest|
    {
      var k :| k in rest;
      rest := rest - {k};
      if !Reserved(k) {
        if r.metadata[k] == Null || INTERNAL <= k {
          return Some(RefusedMetadata), m, None, None;
        }
        m := m[k := r.metadata[k]];
      }
    }
    if DOCUMENT in r.metadata {
      document := Text(r.metadata[DOCUMENT]);
      if document.None? {
        return Some(RefusedField), m, None, None;
      }
    }
    if LINK in r.metadata {
      uri := Text(r.metadata[LINK]);
      if uri.None? {
        return Some(RefusedField), m, document, None;
      }
    }
    return None, m, document, uri;
  }

  /** The first loop of writeChroma: the fields of the request, or the first refusal. */
  method Requests(rs: seq<Record>)
    returns (fault: Option<Fault>, ids: seq<string>, vectors: seq<seq<Float>>, metadata: seq<Option<Metadata>>,
             documents: seq<Option<string>>, uris: seq<Option<string>>)
    ensures fault.Some? ==> fault.value != RemoteFailure && exists i :: 0 <= i < |rs| && !(Storable(rs[i]) && Textual(rs[i], DOCUMENT) && Textual(rs[i], LINK))
    ensures fault.None? ==> |ids| == |vectors| == |metadata| == |documents| == |uris| == |rs|
    ensures fault.None? ==> forall k :: 0 <= k < |rs| ==> Storable(rs[k]) && Textual(rs[k], DOCUMENT) && Textual(rs[k], LINK)
    ensures fault.None? ==> forall k :: 0 <= k < |rs| ==> ids[k] == rs[k].id && vectors[k] == rs[k].values
    ensures fault.None? ==> forall k :: 0 <= k < |rs| ==> metadata[k] == NilIfEmpty(Plain(rs[k]))
    ensures fault.None? ==> forall k :: 0 <= k < |rs| ==> documents[k] == Field(rs[k], DOCUMENT) && uris[k] == Field(rs[k], LINK)
  {
    fault, ids, vectors, metadata, documents, uris := None, [], [], [], [], [];
    var i := 0;
    while i < |rs|
      invariant i <= |rs| && |ids| == |vectors| == |metadata| == |documents| == |uris| == i && fault.None?
      invariant forall k :: 0 <= k < i ==> Storable(rs[k]) && Textual(rs[k], DOCUMENT) && Textual(rs[k], LINK)
      invariant forall k :: 0 <= k < i ==> ids[k] == rs[k].id && vectors[k] == rs[k].values
      invariant forall k :: 0 <= k < i ==> metadata[k] == NilIfEmpty(Plain(rs[k]))
      invariant forall k :: 0 <= k < i ==> documents[k] == Field(rs[k], DOCUMENT) && uris[k] == Field(rs[k], LINK)
    {
      var refused, m, document, uri := Prepare(rs[i]);
      if refused.Some? {
        fault := refused;
        return;
      }
      ids, vectors, metadata := ids + [rs[i].id], vectors + [rs[i].values], metadata + [NilIfEmpty(m)];
      documents, uris := documents + [document], uris + [uri];
      i := i + 1;
    }
  }

  /**
   writeChroma. answered tells whether the lookup got an answer; acknowledged whether
   the upsert did; an upsert without an acknowledgment reached only some rows.
   */
  method Write(c: Collection, rs: seq<Record>, answered: bool, acknowledged: bool, reached: set<string>)
    returns (fault: Option<Fault>)
    requires DistinctIds(rs) && forall i :: 0 <= i < |rs| ==> ValidMetadata(rs[i])
    requires acknowledged ==> forall i :: 0 <= i < |rs| ==> rs[i].id in reached
    modifies c
    ensures fault.None? <==> answered && acknowledged && forall i :: 0 <= i < |rs| ==> Writable(old(c.rows), rs[i])
    ensures fault.None? <==> answered && acknowledged && forall i :: 0 <= i < |rs| ==> Replaces(old(c.rows), rs[i])
    ensures fault.None? ==> Replaced(old(c.rows), c.rows, rs)
    ensures fault.None? ==> forall i :: 0 <= i < |rs| ==> rs[i].id in c.rows && Stores(c.rows[rs[i].id], rs[i])
    ensures forall id :: (id in c.rows || id in old(c.rows)) && (forall i :: 0 <= i < |rs| ==> rs[i].id != id) ==>
      id in c.rows && id in old(c.rows) && c.rows[id] == old(c.rows)[id]
    ensures fault.Some? && fault.value != RemoteFailure ==> c.rows == old(c.rows)
    ensures PartlyReplaced(old(c.rows), c.rows, rs)
  {
    AllReplace(c.rows, rs);
    var refused, ids, vectors, metadata, documents, uris := Requests(rs);
    if refused.Some? {
      return refused;
    }
    if !answered {
      return Some(RemoteFailure);
    }
    var found := c.Get(ids);
    var stale;
    metadata, stale := ClearStale(c.rows, rs, ids, found, metadata, documents, uris);
    if stale {
      return Some(StaleField);
    }
    c.Upsert(ids, vectors, metadata, documents, uris, reached);
    forall k | 0 <= k < |rs| && rs[k].id in reached
      ensures Holds(c.rows, rs[k].id, Image(rs[k]))
    {
      RowIsImage(old(c.rows), rs[k]);
      assert ids[k] == rs[k].id;
    }
    forall id | forall k :: 0 <= k < |rs| ==> rs[k].id != id
      ensures SameRow(old(c.rows), c.rows, id)
    {
      assert id !in ids;
    }
    Untouched(old(c.rows), c.rows, rs);
    return if acknowledged then None else Some(RemoteFailure);
  }

  lemma Untouched(before: map<string, Stored>, after: map<string, Stored>, rs: seq<Record>)
    requires forall id :: (forall i :: 0 <= i < |rs| ==> rs[i].id != id) ==> SameRow(before, after, id)
    ensures forall id :: (id in after || id in before) && (forall i :: 0 <= i < |rs| ==> rs[i].id != id) ==>
      id in after && id in before && after[id] == before[id]
  {
    forall id | (id in after || id in before) && forall i :: 0 <= i < |rs| ==> rs[i].id != id
      ensures id in after && id in before && after[id] == before[id]
    {
      assert SameRow(before, after, id);
    }
  }

  lemma AllReplace(rows: map<string, Stored>, rs: seq<Record>)
    ensures forall i :: 0 <= i < |rs| ==> (Writable(rows, rs[i]) <==> Replaces(rows, rs[i]))
    ensures forall i :: 0 <= i < |rs| && Writable(rows, rs[i]) ==> Stores(Image(rs[i]), rs[i])
  {
    forall i | 0 <= i < |rs|
      ensures Writable(rows, rs[i]) <==> Replaces(rows, rs[i])
      ensures Writable(rows, rs[i]) ==> Stores(Image(rs[i]), rs[i])
    {
      WritableReplaces(rows, rs[i]);
      if Writable(rows, rs[i]) {
        ImageStores(rs[i]);
      }
    }
  }

  /** The update sent for one record. */
  function Sent(rows: map<string, Stored>, r: Record): Option<Metadata> {
    if r.id in rows then Update(Plain(r), rows[r.id].metadata) else NilIfEmpty(Plain(r))
  }

  lemma RowIsImage(rows: map<string, Stored>, r: Record)
    requires Writable(rows, r)
    ensures Upserted(rows, r.id, r.values, Sent(rows, r), Field(r, DOCUMENT), Field(r, LINK)) == Image(r)
  {
    if r.id in rows {
      MergeReplaces(Plain(r), rows[r.id].metadata);
    } else {
      MergeFresh(Plain(r));
    }
  }

  /** The second half of writeChroma: nulls for keys the destination still holds, and the check for stale fields. */
  method ClearStale(rows: map<string, Stored>, rs: seq<Record>, ids: seq<string>, found: seq<string>,
                    metadata: seq<Option<Metadata>>, documents: seq<Option<string>>, uris: seq<Option<string>>)
    returns (updates: seq<Option<Metadata>>, stale: bool)
    requires DistinctIds(rs) && |ids| == |metadata| == |documents| == |uris| == |rs|
    requires forall i :: 0 <= i < |rs| ==> ids[i] == rs[i].id && metadata[i] == NilIfEmpty(Plain(rs[i]))
    requires forall i :: 0 <= i < |rs| ==> documents[i] == Field(rs[i], DOCUMENT) && uris[i] == Field(rs[i], LINK)
    requires forall id :: id in found <==> id in ids && id in rows
    requires forall i, j :: 0 <= i < j < |found| ==> found[i] != found[j]
    ensures stale <==> exists i :: 0 <= i < |rs| && Stale(rows, rs[i])
    ensures !stale ==> |updates| == |rs| && forall i :: 0 <= i < |rs| ==> updates[i] == Sent(rows, rs[i])
  {
    var positions: map<string, nat> := map[];
    var i := 0;
    while i < |ids|
      invariant i <= |ids| && forall k :: 0 <= k < i ==> ids[k] in positions && positions[ids[k]] == k
    {
      positions := positions[ids[i] := i];
      i := i + 1;
    }
    updates := metadata;
    var j := 0;
    while j < |found|
      invariant j <= |found| && |updates| == |rs|
      invariant forall k :: 0 <= k < |rs| ==> updates[k] == if ids[k] in found[..j] then Sent(rows, rs[k]) else metadata[k]
      invariant forall k :: 0 <= k < |rs| && ids[k] in found[..j] ==> !Stale(rows, rs[k])
    {
      var id := found[j];
      assert id in found;
      var at := positions[id];
      assert ids[at] == id && id !in found[..j];
      var m := if updates[at].Some? then updates[at].value else map[];
      m := m + map key | key in rows[id].metadata && key !in m :: Null;
      if (rows[id].document.Some? && documents[at].None?) || (rows[id].uri.Some? && uris[at].None?) {
        return updates, true;
      }
      updates := updates[at := NilIfEmpty(m)];
      assert found[..j + 1] == found[..j] + [id];
      j := j + 1;
    }
    assert found[..j] == found;
    forall k | 0 <= k < |rs|
      ensures !Stale(rows, rs[k]) && updates[k] == Sent(rows, rs[k])
    {
      assert ids[k] in ids;
    }
    return updates, false;
  }

  // ---- reading back ----

  /** One row as readChroma returns it; a row with a reserved metadata key is an error. */
  function ReadRow(id: string, row: Stored): Option<Record> {
    if DOCUMENT in row.metadata || LINK in row.metadata then None
    else Some(Record(id, row.vector, WithField(WithField(row.metadata, DOCUMENT, row.document), LINK, row.uri)))
  }

  function WithField(m: Metadata, key: string, value: Option<string>): Metadata {
    if value.Some? then m[key := Str(value.value)] else m
  }

  lemma FieldNames()
    ensures DOCUMENT != LINK && Reserved(DOCUMENT) && Reserved(LINK)
  {
    assert |DOCUMENT| != |LINK|;
  }

  /**
   A row that was written reads back as the record that wrote it, exactly when no
   reserved field is a JSON null: writeChroma stores such a field as empty text.
   */
  lemma WriteReadRoundTrip(r: Record)
    requires Storable(r) && Textual(r, DOCUMENT) && Textual(r, LINK)
    ensures ReadRow(r.id, Image(r)) == Some(r) <==> forall k :: k in r.metadata && Reserved(k) ==> r.metadata[k] != Null
  {
    FieldNames();
    var back := ReadRow(r.id, Image(r)).value;
    assert forall k :: k in back.metadata <==> k in r.metadata;
    assert forall k :: k in r.metadata && !Reserved(k) ==> back.metadata[k] == r.metadata[k];
    if forall k :: k in r.metadata && Reserved(k) ==> r.metadata[k] != Null {
      assert back.metadata == r.metadata;
    } else {
      var k :| k in r.metadata && Reserved(k) && r.metadata[k] == Null;
      assert back.metadata[k] == Str("");
    }
  }

  // ---- pages ----

  function Start(cursor: string): Option<nat> {
    if cursor == "" then Some(0)
    else
      match Parse(cursor)
      case None => None
      case Some(n) => if n < 0 then None else Some(n)
  }

  /** The rows of a get with offset and limit, on a server that lists the collection in a fixed order. */
  function Window(order: seq<string>, offset: nat, limit: nat): seq<string> {
    if offset >= |order| then [] else order[offset..Min(offset + limit, |order|)]
  }

  ghost predicate Lists(rows: map<string, Stored>, order: seq<string>) {
    (forall i, j :: 0 <= i < j < |order| ==> order[i] != order[j]) && forall id :: id in order <==> id in rows
  }

  /** The records of some rows, in order. */
  predicate RecordsOf(rows: map<string, Stored>, ids: seq<string>, rs: seq<Record>) {
    |rs| == |ids| && forall i :: 0 <= i < |ids| ==> ids[i] in rows && ReadRow(ids[i], rows[ids[i]]) == Some(rs[i])
  }

  predicate PageAt(rows: map<string, Stored>, order: seq<string>, cursor: string, limit: nat, page: Page) {
    && Start(cursor).Some?
    && RecordsOf(rows, Window(order, Start(cursor).value, limit), page.records)
    && (page.done <==> |page.records| < limit)
    && Start(page.next) == Some(Start(cursor).value + |page.records|)
  }

  predicate AllReadable(rows: map<string, Stored>, ids: seq<string>) {
    forall i :: 0 <= i < |ids| && ids[i] in rows ==> DOCUMENT !in rows[ids[i]].metadata && LINK !in rows[ids[i]].metadata
  }

  /** The loop of readChroma over the rows of one answer. */
  method Decode(rows: map<string, Stored>, ids: seq<string>) returns (rs: Option<seq<Record>>)
    requires forall i :: 0 <= i < |ids| ==> ids[i] in rows
    ensures rs.Some? <==> AllReadable(rows, ids)
    ensures rs.Some? ==> RecordsOf(rows, ids, rs.value)
  {
    var read: seq<Record> := [];
    var i := 0;
    while i < |ids|
      invariant i <= |ids| && |read| == i
      invariant forall k :: 0 <= k < i ==> ReadRow(ids[k], rows[ids[k]]) == Some(read[k])
    {
      var record := ReadRow(ids[i], rows[ids[i]]);
      if record.None? {
        return None;
      }
      read := read + [record.value];
      i := i + 1;
    }
    return Some(read);
  }

  /** The record says what the row says: the document under "_chroma_document", the URI under "_chroma_uri". */
  ghost predicate Tells(r: Record, row: Stored) {
    && r.values == row.vector
    && (forall k :: k in r.metadata <==>
          k in row.metadata || (k == "_chroma_document" && row.document.Some?) || (k == "_chroma_uri" && row.uri.Some?))
    && (forall k :: k in row.metadata ==> r.metadata[k] == row.metadata[k])
    && (row.document.Some? ==> r.metadata["_chroma_document"] == Str(row.document.value))
    && (row.uri.Some? ==> r.metadata["_chroma_uri"] == Str(row.uri.value))
  }

  lemma ReadTells(id: string, row: Stored)
    ensures ReadRow(id, row).None? <==> "_chroma_document" in row.metadata || "_chroma_uri" in row.metadata
    ensures ReadRow(id, row).Some? ==> ReadRow(id, row).value.id == id && Tells(ReadRow(id, row).value, row)
  {
    FieldNames();
  }

  /** The page holds the rows from position n of the order on, and points behind them. */
  ghost predicate RowsFrom(rows: map<string, Stored>, order: seq<string>, n: nat, limit: nat, page: Page) {
    && |page.records| == Max(0, Min(limit, |order| - n))
    && (page.done <==> |page.records| < limit) && page.next == Format(n + |page.records|)
    && forall i :: 0 <= i < |page.records| ==> var id := order[n + i]; id in rows && page.records[i].id == id && Tells(page.records[i], rows[id])
  }

  lemma PageRows(rows: map<string, Stored>, order: seq<string>, n: nat, limit: nat, page: Page)
    requires RecordsOf(rows, Window(order, n, limit), page.records)
    requires (page.done <==> |page.records| < limit) && page.next == Format(n + |page.records|)
    ensures RowsFrom(rows, order, n, limit, page)
  {
    var ids := Window(order, n, limit);
    forall i | 0 <= i < |ids|
      ensures var id := order[n + i]; id in rows && page.records[i].id == id && Tells(page.records[i], rows[id])
    {
      assert ids[i] == order[n + i];
      ReadTells(ids[i], rows[ids[i]]);
    }
  }

  /** readChroma against a server that answers. */
  method Read(c: Collection, order: seq<string>, cursor: string, limit: nat) returns (page: Option<Page>)
    requires Lists(c.rows, order) && limit > 0
    ensures page.Some? ==> PageAt(c.rows, order, cursor, limit, page.value)
    ensures page.None? <==> (Start(cursor).None? || !AllReadable(c.rows, Window(order, Start(cursor).value, limit)))
    ensures page.Some? ==> exists n: nat :: RowsFrom(c.rows, order, n, limit, page.value) && if cursor == "" then n == 0 else Parse(cursor) == Some(n)
    ensures page.None? ==>
      || (cursor != "" && (Parse(cursor) == None || Parse(cursor).value < 0))
      || exists id :: id in c.rows && ("_chroma_document" in c.rows[id].metadata || "_chroma_uri" in c.rows[id].metadata)
  {
    if Start(cursor).None? {
      return None;
    }
    var ids := Window(order, Start(cursor).value, limit);
    assert forall i :: 0 <= i < |ids| ==> ids[i] in order;
    var rs := Decode(c.rows, ids);
    if rs.None? {
      return None;
    }
    FormatRoundTrip(Start(cursor).value + |ids|);
    page := Some(Page(rs.value, Format(Start(cursor).value + |ids|), |ids| < limit));
    PageRows(c.rows, order, Start(cursor).value, limit, page.value);
  }

  predicate IsScan(rows: map<string, Stored>, order: seq<string>, cursor: string, limit: nat, pages: seq<Page>)
    decreases |pages|
  {
    && pages != [] && PageAt(rows, order, cursor, limit, pages[0])
    && if pages[0].done then |pages| == 1 else IsScan(rows, order, pages[0].next, limit, pages[1..])
  }

  function Flat(pages: seq<Page>): seq<Record> {
    if pages == [] then [] else pages[0].records + Flat(pages[1..])
  }

  /** Following Next from a cursor to the end reads every row after it, once. */
  lemma {:induction false} ScanReadsRest(rows: map<string, Stored>, order: seq<string>, cursor: string, limit: nat, pages: seq<Page>)
    requires limit > 0 && IsScan(rows, order, cursor, limit, pages) && Start(cursor).value <= |order|
    ensures RecordsOf(rows, order[Start(cursor).value..], Flat(pages))
    decreases |pages|
  {
    var at := Start(cursor).value;
    var page := pages[0];
    if page.done {
      assert Flat(pages[1..]) == [];
      assert Flat(pages) == page.records;
      assert Window(order, at, limit) == order[at..];
    } else {
      ScanReadsRest(rows, order, page.next, limit, pages[1..]);
      assert order[at..] == Window(order, at, limit) + order[at + |page.records|..];
    }
  }

  /** Pages that are not the last, read one after the other from a cursor up to the next one. */
  predicate Leads(rows: map<string, Stored>, order: seq<string>, cursor: string, limit: nat, pages: seq<Page>, next: string)
    decreases |pages|
  {
    if pages == [] then cursor == next
    else
      && PageAt(rows, order, cursor, limit, pages[0]) && !pages[0].done
      && Leads(rows, order, pages[0].next, limit, pages[1..], next)
  }

  lemma {:induction false} LeadsOn(rows: map<string, Stored>, order: seq<string>, cursor: string, limit: nat,
                                   pages: seq<Page>, next: string, page: Page)
    requires Leads(rows, order, cursor, limit, pages, next) && PageAt(rows, order, next, limit, page)
    ensures page.done ==> IsScan(rows, order, cursor, limit, pages + [page])
    ensures !page.done ==> Leads(rows, order, cursor, limit, pages + [page], page.next)
    decreases |pages|
  {
    var more := pages + [page];
    if pages == [] {
      assert more == [page] && more[1..] == [];
    } else {
      LeadsOn(rows, order, pages[0].next, limit, pages[1..], next, page);
      assert more[1..] == pages[1..] + [page];
    }
  }

  /** Following Next from the empty cursor ends, with every row read once, or at a row that cannot be read. */
  method ReadAll(c: Collection, order: seq<string>, limit: nat) returns (pages: Option<seq<Page>>)
    requires Lists(c.rows, order) && limit > 0
    ensures pages.Some? ==> IsScan(c.rows, order, "", limit, pages.value) && RecordsOf(c.rows, order, Flat(pages.value))
    ensures pages.None? ==> !AllReadable(c.rows, order)
  {
    var read: seq<Page> := [];
    var cursor := "";
    while true
      invariant Start(cursor).Some? && Start(cursor).value <= |order| && Leads(c.rows, order, "", limit, read, cursor)
      decreases |order| - Start(cursor).value
    {
      var page := Read(c, order, cursor, limit);
      if page.None? {
        return None;
      }
      LeadsOn(c.rows, order, "", limit, read, cursor, page.value);
      read := read + [page.value];
      if page.value.done {
        ScanReadsRest(c.rows, order, "", limit, read);
        assert order[0..] == order;
        return Some(read);
      }
      cursor := page.value.next;
    }
  }

  /** Written records come back: a scan after a successful write holds every one of them. */
  lemma WrittenAreRead(before: map<string, Stored>, after: map<string, Stored>, rs: seq<Record>,
                       order: seq<string>, limit: nat, pages: seq<Page>, r: Record)
    requires limit > 0 && Replaced(before, after, rs) && Lists(after, order) && IsScan(after, order, "", limit, pages)
    requires r in rs && Storable(r) && Textual(r, DOCUMENT) && Textual(r, LINK)
    requires forall k :: k in r.metadata && Reserved(k) ==> r.metadata[k] != Null
    ensures r in Flat(pages)
  {
    var i :| 0 <= i < |rs| && rs[i] == r;
    ScanReadsRest(after, order, "", limit, pages);
    assert order[0..] == order;
    assert r.id in order;
    var at :| 0 <= at < |order| && order[at] == r.id;
    WriteReadRoundTrip(r);
    assert Flat(pages)[at] == r;
  }
}
