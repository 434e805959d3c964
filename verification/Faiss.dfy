/**
 The FAISS adapter (adapters/faiss/server.py): a record table, immutable snapshot
 generations beside it, and a CURRENT file that names one of them.
 */
module Faiss {
  import opened Basics
  import opened Orders
  import opened Records
  import opened Listings

  datatype Line = Line(id: string, metadata: map<string, Json>)

  /** A file that is not there, that a crash cut short, or that is complete. */
  datatype File<+T> = Absent | Torn | Whole(content: T)

  /** A generation directory. */
  datatype Generation = Generation(index: File<seq<seq<Float>>>, sidecar: File<seq<Line>>)

  function Vectors(rs: seq<Record>): (out: seq<seq<Float>>)
    ensures |out| == |rs| && forall i :: 0 <= i < |rs| ==> out[i] == rs[i].values
  {
    seq(|rs|, i requires 0 <= i < |rs| => rs[i].values)
  }

  function Lines(rs: seq<Record>): (out: seq<Line>)
    ensures |out| == |rs| && forall i :: 0 <= i < |rs| ==> out[i] == Line(rs[i].id, rs[i].metadata)
  {
    seq(|rs|, i requires 0 <= i < |rs| => Line(rs[i].id, rs[i].metadata))
  }

  /** Index row i and sidecar line i describe the i-th record. */
  predicate Snapshot(g: Generation, rs: seq<Record>) {
    g == Generation(Whole(Vectors(rs)), Whole(Lines(rs)))
  }

  /** Both files are complete, with as many vectors as lines, and the lines are in id order. */
  predicate Complete(g: Generation) {
    && g.index.Whole? && g.sidecar.Whole? && |g.index.content| == |g.sidecar.content|
    && forall i, j :: 0 <= i < j < |g.sidecar.content| ==> Less(g.sidecar.content[i].id, g.sidecar.content[j].id)
  }

  lemma SnapshotComplete(g: Generation, rs: seq<Record>)
    requires Sorted(Ids(rs)) && Snapshot(g, rs)
    ensures Complete(g)
  {
    assert forall i :: 0 <= i < |rs| ==> g.sidecar.content[i].id == Ids(rs)[i];
  }

  /** The generation lists exactly the table, in id order. */
  ghost predicate Agrees(g: Generation, table: map<string, Record>) {
    exists rs :: Listing(table, rs) && Snapshot(g, rs)
  }

  // ---- requests ----

  /**
   The metadata of a request: absent or empty values count as an empty object;
   NotANumber is an object with a NaN or infinite number somewhere inside.
   */
  datatype Given = Falsy | Object(fields: map<string, Json>) | NotANumber | NotObject

  /** A record of a request; id is None when it is not a string, extra when it has other fields. */
  datatype Raw = Raw(id: Option<string>, values: seq<Float>, metadata: Given, extra: bool)

  predicate Acceptable(raw: Raw, dimension: nat) {
    && !raw.extra && raw.id.Some? && raw.id.value != ""
    && |raw.values| == dimension && (forall i :: 0 <= i < dimension ==> raw.values[i].Finite?)
    && !raw.metadata.NotObject? && !raw.metadata.NotANumber?
  }

  predicate AcceptableBatch(raws: seq<Raw>, dimension: nat) {
    && (forall i :: 0 <= i < |raws| ==> Acceptable(raws[i], dimension))
    && (forall i, j :: 0 <= i < j < |raws| ==> raws[i].id != raws[j].id)
  }

  function Row(raw: Raw): Record
    requires raw.id.Some?
  {
    Record(raw.id.value, raw.values, if raw.metadata.Object? then raw.metadata.fields else map[])
  }

  function Rows(raws: seq<Raw>): (rows: seq<Record>)
    requires forall i :: 0 <= i < |raws| ==> raws[i].id.Some?
    ensures |rows| == |raws| && forall i :: 0 <= i < |raws| ==> rows[i] == Row(raws[i])
  {
    if raws == [] then [] else Rows(raws[..|raws| - 1]) + [Row(raws[|raws| - 1])]
  }

  /** INSERT ... ON CONFLICT DO UPDATE, row by row. */
  function Inserted(table: map<string, Record>, rows: seq<Record>): (t: map<string, Record>)
    ensures Keyed(table) ==> Keyed(t)
  {
    if rows == [] then table
    else
      var last := rows[|rows| - 1];
      Inserted(table, rows[..|rows| - 1])[last.id := last]
  }

  predicate Unnamed(rows: seq<Record>, id: string) {
    forall i :: 0 <= i < |rows| ==> rows[i].id != id
  }

  lemma {:induction false} InsertedRows(table: map<string, Record>, rows: seq<Record>)
    requires DistinctIds(rows)
    ensures forall i :: 0 <= i < |rows| ==> rows[i].id in Inserted(table, rows) && Inserted(table, rows)[rows[i].id] == rows[i]
    ensures forall id :: Unnamed(rows, id) ==> (id in Inserted(table, rows) <==> id in table)
    ensures forall id :: Unnamed(rows, id) && id in table ==> Inserted(table, rows)[id] == table[id]
  {
    if rows != [] {
      InsertedRows(table, rows[..|rows| - 1]);
    }
  }

  /** The list without one of its elements. */
  function Without(names: seq<string>, name: string): (out: seq<string>)
    ensures name !in names ==> out == names
    ensures forall n :: n in out ==> n in names
    ensures forall n :: n in names && n != name ==> n in out
  {
    if names == [] then []
    else if names[0] == name then names[1..]
    else [names[0]] + Without(names[1..], name)
  }

  predicate Unique(names: seq<string>) {
    forall i, j :: 0 <= i < j < |names| ==> names[i] != names[j]
  }

  lemma {:induction false} WithoutUnique(names: seq<string>, name: string)
    requires Unique(names)
    ensures Unique(Without(names, name)) && name !in Without(names, name)
  {
    if names != [] {
      WithoutUnique(names[1..], name);
      if names[0] != name {
        assert names[0] !in names[1..];
      }
    }
  }

  /** sorted(...)[-2:], the generations a prune keeps. */
  function Newest(order: seq<string>): (kept: seq<string>)
    ensures |order| >= 2 ==> kept == [order[|order| - 2], order[|order| - 1]]
    ensures |order| < 2 ==> kept == order
  {
    order[Max(0, |order| - 2)..]
  }

  /** Steps to delete a directory: the files that are there, and the directory itself. */
  function Cost(g: Generation): nat {
    (if g.index.Absent? then 0 else 1) + (if g.sidecar.Absent? then 0 else 1) + 1
  }

  /** Steps to delete directories i to k of a list. */
  function Costs(dirs: map<string, Generation>, names: seq<string>, i: nat, k: nat): nat
    requires k <= |names|
    decreases k - i
  {
    if i >= k then 0 else (if names[i] in dirs then Cost(dirs[names[i]]) else 0) + Costs(dirs, names, i + 1, k)
  }

  /** Steps to delete all but the last directories. */
  function PruneCost(dirs: map<string, Generation>, order: seq<string>, kept: nat): nat {
    Costs(dirs, order, 0, Max(0, |order| - kept))
  }

  /** These directories exist and are the same in both. */
  predicate Alike(dirs: map<string, Generation>, dirs': map<string, Generation>, names: seq<string>) {
    forall i :: 0 <= i < |names| ==> names[i] in dirs && names[i] in dirs' && dirs[names[i]] == dirs'[names[i]]
  }

  lemma {:induction false} CostsSame(dirs: map<string, Generation>, dirs': map<string, Generation>, order: seq<string>, name: string, i: nat, k: nat)
    requires k <= |order| && Alike(dirs, dirs', order)
    ensures Costs(dirs', order + [name], i, k) == Costs(dirs, order, i, k)
    decreases k - i
  {
    if i < k {
      CostsSame(dirs, dirs', order, name, i + 1, k);
    }
  }

  /** Writing a new generation does not change what pruning the old ones costs. */
  lemma SameCost(dirs: map<string, Generation>, dirs': map<string, Generation>, order: seq<string>, name: string)
    requires Alike(dirs, dirs', order)
    ensures PruneCost(dirs', order + [name], 2) == PruneCost(dirs, order, 1)
  {
    CostsSame(dirs, dirs', order, name, 0, Max(0, |order| - 1));
  }

  datatype Outcome = Done | Crashed | Refused

  class Store {
    var dimension: Option<nat>
    var table: map<string, Record>
    var dirs: map<string, Generation>
    // The generation directories, oldest modification first.
    var order: seq<string>
    var current: Option<string>

    ghost predicate Valid()
      reads this
    {
      && Keyed(table) && Unique(order) && (forall n :: n in dirs <==> n in order)
      && (current.Some? ==> current.value in dirs && Complete(dirs[current.value]))
      && (if dimension.None? then table == map[] else Sound(table, dimension.value))
    }

    /** What a reader that follows CURRENT finds. */
    ghost function Published(): Option<Generation>
      reads this
      requires Valid()
    {
      if current.None? then None else Some(dirs[current.value])
    }

    constructor ()
      ensures Valid() && table == map[] && dirs == map[] && current.None? && dimension.None? && order == []
    {
      dimension, table, dirs, order, current := None, map[], map[], [], None;
    }

    /**
     publish, cut off by a crash after the given number of steps on disk. CURRENT
     names a complete generation whatever the step; it never changes its content
     except to that of the table.
     */
    method Publish(name: string, steps: nat) returns (ok: bool)
      requires Valid() && name !in dirs
      modifies `dirs, `order, `current
      ensures Valid()
      ensures ok <==> steps >= 6 + PruneCost(old(dirs), old(order), 1)
      ensures ok ==> current == Some(name) && order == Newest(old(order) + [name])
      ensures steps < 6 ==> Published() == old(Published())
      ensures 1 <= steps < 6 ==> order == old(order) + [name] && current == old(current)
      ensures steps >= 6 ==> current == Some(name) && Agrees(dirs[name], table)
    {
      var rows := SortById(table);
      var exported := Export(name, rows, steps);
      if !exported || steps < 6 {
        return false;
      }
      SnapshotComplete(dirs[name], rows);
      SameCost(old(dirs), dirs, old(order), name);
      ok := Switch(name, steps - 6);
    }

    /** The second half of publish: CURRENT names the new generation, and old ones go. */
    method Switch(name: string, steps: nat) returns (ok: bool)
      requires Valid() && name in dirs && Complete(dirs[name]) && order != [] && order[|order| - 1] == name
      modifies `dirs, `order, `current
      ensures Valid() && current == Some(name) && name in dirs && dirs[name] == old(dirs[name])
      ensures ok <==> steps >= PruneCost(old(dirs), old(order), 2)
      ensures ok ==> order == Newest(old(order))
    {
      current := Some(name);
      ok := Prune(name, steps);
    }

    /** The first half of publish: a directory with the index and the sidecar, file after file. */
    method Export(name: string, rows: seq<Record>, steps: nat) returns (ok: bool)
      requires Valid() && name !in dirs
      modifies `dirs, `order
      ensures Valid() && (ok <==> steps >= 5)
      ensures order == if steps == 0 then old(order) else old(order) + [name]
      ensures forall n :: n in old(dirs) ==> n in dirs && dirs[n] == old(dirs)[n]
      ensures ok ==> name in dirs && Snapshot(dirs[name], rows)
    {
      if steps < 1 {
        return false;
      }
      Write(name, Generation(Absent, Absent));
      if steps < 2 {
        return false;
      }
      Write(name, Generation(Torn, Absent));
      if steps < 3 {
        return false;
      }
      Write(name, Generation(Whole(Vectors(rows)), Absent));
      if steps < 4 {
        return false;
      }
      Write(name, Generation(Whole(Vectors(rows)), Torn));
      if steps < 5 {
        return false;
      }
      Write(name, Generation(Whole(Vectors(rows)), Whole(Lines(rows))));
      return true;
    }

    /** The directory of a new generation in its next state; nothing else changes. */
    method Write(name: string, g: Generation)
      requires Valid() && current != Some(name) && (name in dirs ==> order[|order| - 1] == name)
      modifies `dirs, `order
      ensures Valid() && dirs == old(dirs)[name := g]
      ensures order == if name in old(dirs) then old(order) else old(order) + [name]
    {
      if name !in dirs {
        order := order + [name];
      }
      dirs := dirs[name := g];
    }

    /** Deletes all but the two newest generations, file by file; a deletion touches the directory. */
    method Prune(name: string, steps: nat) returns (ok: bool)
      requires Valid() && current == Some(name) && order != [] && order[|order| - 1] == name
      modifies `dirs, `order
      ensures Valid()
      ensures name in dirs && dirs[name] == old(dirs[name])
      ensures ok <==> steps >= PruneCost(old(dirs), old(order), 2)
      ensures ok ==> order == Newest(old(order))
    {
      var generations := order;
      ghost var before := dirs;
      var excess := Max(0, |generations| - 2);
      var i: nat, left: nat := 0, steps;
      PrunedStart(name);
      while i < excess
        invariant i <= excess && Pruned(before, generations, i, name)
        invariant steps >= PruneCost(before, generations, 2) <==> left >= Costs(before, generations, i, excess)
      {
        var gone, used := DeleteNext(before, generations, i, name, left);
        assert Costs(before, generations, i, excess) == Cost(before[generations[i]]) + Costs(before, generations, i + 1, excess);
        if !gone {
          return false;
        }
        left, i := left - used, i + 1;
      }
      assert i == excess && Costs(before, generations, excess, excess) == 0;
      PrunedEnd(before, generations, name);
      return true;
    }

    lemma PrunedStart(name: string)
      requires Valid() && current == Some(name) && order != [] && order[|order| - 1] == name
      ensures Pruned(dirs, order, 0, name)
    {
      assert order[0..] == order;
    }

    lemma PrunedEnd(before: map<string, Generation>, generations: seq<string>, name: string)
      requires generations != [] && Pruned(before, generations, Max(0, |generations| - 2), name)
      ensures order == Newest(generations) && PartlyPruned(before, name)
    {
      var i := Max(0, |generations| - 2);
      assert generations[i..][|generations| - 1 - i] == name;
    }

    /** A crash inside a deletion. */
    ghost predicate PartlyPruned(before: map<string, Generation>, name: string)
      reads this
    {
      Valid() && name in dirs && name in before && dirs[name] == before[name]
    }

    /** The deletion of generation i. */
    method DeleteNext(ghost before: map<string, Generation>, generations: seq<string>, i: nat, name: string, steps: nat)
      returns (gone: bool, used: nat)
      requires i + 1 < |generations| && Pruned(before, generations, i, name)
      modifies `dirs, `order
      ensures generations[i] in before && (gone <==> steps >= Cost(before[generations[i]]))
      ensures gone ==> Pruned(before, generations, i + 1, name) && used == Cost(before[generations[i]])
      ensures !gone ==> PartlyPruned(before, name)
    {
      assert generations[i..][0] == generations[i] && generations[i..][1..] == generations[i + 1..];
      assert generations[i..][|generations| - 1 - i] == name;
      gone, used := Delete(generations[i], name, steps);
    }

    /** The first i generations are gone, the others untouched. */
    ghost predicate Pruned(before: map<string, Generation>, generations: seq<string>, i: nat, name: string)
      reads this
    {
      && Valid() && current == Some(name) && i < |generations| && generations[|generations| - 1] == name
      && order == generations[i..] && Alike(before, dirs, generations[i..])
    }

    /** One pass of the prune loop: the files that are there, then the directory of the oldest generation. */
    method Delete(victim: string, name: string, steps: nat) returns (ok: bool, used: nat)
      requires Valid() && current == Some(name)
      requires |order| > 1 && order[0] == victim && order[|order| - 1] == name
      modifies `dirs, `order
      ensures Valid() && name in dirs && dirs[name] == old(dirs[name])
      ensures ok <==> steps >= Cost(old(dirs[victim]))
      ensures ok ==> order == old(order)[1..] && used == Cost(old(dirs[victim]))
      ensures Alike(old(dirs), dirs, old(order)[1..])
    {
      Separate(order, order[1..], victim);
      used := 0;
      if !dirs[victim].index.Absent? {
        if steps < 1 {
          return false, used;
        }
        RemoveFile(victim, name, true);
        used := 1;
      }
      if !dirs[victim].sidecar.Absent? {
        if steps < used + 1 {
          return false, used;
        }
        RemoveFile(victim, name, false);
        used := used + 1;
      }
      if steps < used + 1 {
        return false, used;
      }
      RemoveDirectory(victim, name);
      return true, used + 1;
    }

    method RemoveFile(victim: string, name: string, index: bool)
      requires Valid() && current == Some(name) && victim in dirs && victim != name
      modifies `dirs, `order
      ensures Valid() && order == Without(old(order), victim) + [victim]
      ensures dirs == old(dirs)[victim := if index then old(dirs)[victim].(index := Absent) else old(dirs)[victim].(sidecar := Absent)]
    {
      WithoutUnique(order, victim);
      dirs := dirs[victim := if index then dirs[victim].(index := Absent) else dirs[victim].(sidecar := Absent)];
      order := Without(order, victim) + [victim];
    }

    method RemoveDirectory(victim: string, name: string)
      requires Valid() && current == Some(name) && victim in dirs && victim != name
      modifies `dirs, `order
      ensures Valid() && order == Without(old(order), victim) && dirs == old(dirs) - {victim}
    {
      WithoutUnique(order, victim);
      dirs := dirs - {victim};
      order := Without(order, victim);
    }

    /** Start of the process on whatever an earlier one left. */
    method Open(configured: nat, name: string, steps: nat) returns (outcome: Outcome)
      requires Valid() && name !in dirs
      modifies this
      ensures Valid() && table == old(table)
      ensures outcome == Refused <==> old(dimension).Some? && old(dimension) != Some(configured)
      ensures outcome == Refused ==> Published() == old(Published()) && dirs == old(dirs)
      ensures outcome != Refused ==> dimension == Some(configured)
      ensures outcome == Done ==> current == Some(name) && Agrees(dirs[name], table)
      ensures outcome == Crashed ==> Published() == old(Published()) || (current.Some? && Agrees(dirs[current.value], table))
    {
      if dimension.Some? && dimension.value != configured {
        return Refused;
      }
      dimension := Some(configured);
      var ok := Publish(name, steps);
      return if ok then Done else Crashed;
    }

    /** upsert, with a crash before the commit (steps == 0) or at any later step. */
    method Upsert(raws: seq<Raw>, name: string, steps: nat) returns (outcome: Outcome)
      requires Valid() && dimension.Some? && name !in dirs
      modifies this
      ensures Valid() && dimension == old(dimension)
      ensures outcome == Refused <==> !AcceptableBatch(raws, old(dimension).value)
      ensures outcome == Refused ==> table == old(table) && dirs == old(dirs) && current == old(current)
      ensures outcome == Done ==> table == Inserted(old(table), Rows(raws)) && current == Some(name) && Agrees(dirs[name], table)
      ensures outcome == Refused <==> !Wellformed(raws, old(dimension).value)
      ensures outcome == Done ==> Merged(old(table), table, raws)
      ensures outcome == Crashed ==> table == old(table) || table == Inserted(old(table), Rows(raws))
      ensures outcome == Crashed ==> Published() == old(Published()) || (current.Some? && Agrees(dirs[current.value], table))
    {
      var rows := Check(raws, dimension.value);
      if rows.None? {
        return Refused;
      }
      if steps == 0 {
        return Crashed;
      }
      InsertedSound(table, raws, dimension.value);
      InsertedRaws(table, raws, dimension.value);
      table := Inserted(table, rows.value);
      var ok := Publish(name, steps - 1);
      return if ok then Done else Crashed;
    }

    /** import_index: the two files of a generation exported elsewhere become one upsert. */
    method Import(indexDimension: nat, index: seq<seq<Float>>, sidecar: seq<SidecarLine>, name: string, steps: nat)
      returns (outcome: Outcome)
      requires Valid() && dimension.Some? && name !in dirs
      modifies this
      ensures Valid() && dimension == old(dimension)
      ensures outcome == Refused <==> !Importable(old(dimension).value, indexDimension, index, sidecar)
      ensures outcome == Refused <==>
        !(indexDimension == old(dimension).value && |index| == |sidecar| && (forall i :: 0 <= i < |sidecar| ==> sidecar[i].Item?)
          && Wellformed(Paired(index, sidecar), indexDimension))
      ensures outcome == Refused ==> table == old(table) && dirs == old(dirs) && current == old(current)
      ensures outcome == Done ==> table == Inserted(old(table), Rows(Paired(index, sidecar)))
      ensures outcome == Done ==> current == Some(name) && Agrees(dirs[name], table)
    {
      if indexDimension != dimension.value || |index| != |sidecar| {
        return Refused;
      }
      var i := 0;
      while i < |sidecar|
        invariant i <= |sidecar| && forall k :: 0 <= k < i ==> sidecar[k].Item?
      {
        if sidecar[i].Broken? {
          return Refused;
        }
        i := i + 1;
      }
      outcome := Upsert(Paired(index, sidecar), name, steps);
      AcceptableIff(Paired(index, sidecar), indexDimension);
    }
  }

  /** A line of a sidecar file as read back: not an object with an id, or one. */
  datatype SidecarLine = Broken | Item(id: Option<string>, metadata: Given)

  predicate Parsed(sidecar: seq<SidecarLine>) {
    forall i :: 0 <= i < |sidecar| ==> sidecar[i].Item?
  }

  /** What an import accepts: matching files whose rows an upsert would accept. */
  predicate Importable(dimension: nat, indexDimension: nat, index: seq<seq<Float>>, sidecar: seq<SidecarLine>) {
    && indexDimension == dimension && |index| == |sidecar| && Parsed(sidecar)
    && AcceptableBatch(Paired(index, sidecar), dimension)
  }

  lemma BatchGrows(raws: seq<Raw>, i: nat, dimension: nat)
    requires i < |raws| && AcceptableBatch(raws[..i], dimension) && Acceptable(raws[i], dimension)
    requires forall k :: 0 <= k < i ==> raws[k].id != raws[i].id
    ensures AcceptableBatch(raws[..i + 1], dimension)
    ensures Rows(raws[..i + 1]) == Rows(raws[..i]) + [Row(raws[i])]
  {
    assert raws[..i + 1][..i] == raws[..i];
  }

  /** What a batch has to be: no extra fields, unused nonempty ids, finite values of the right dimension, and a JSON object or nothing. */
  predicate Wellformed(raws: seq<Raw>, dimension: nat) {
    && (forall i :: 0 <= i < |raws| ==>
          !raws[i].extra && raws[i].id.Some? && raws[i].id.value != "" && (raws[i].metadata.Falsy? || raws[i].metadata.Object?))
    && (forall i :: 0 <= i < |raws| ==> |raws[i].values| == dimension && forall k :: 0 <= k < dimension ==> raws[i].values[k].Finite?)
    && (forall i, j :: 0 <= i < j < |raws| ==> raws[i].id != raws[j].id)
  }

  /** The rows of a batch, one for one; no metadata is an empty object. */
  predicate Spelled(raws: seq<Raw>, rows: seq<Record>) {
    |rows| == |raws| && forall i :: 0 <= i < |raws| ==> Spells(raws[i], rows[i])
  }

  predicate Spells(raw: Raw, row: Record) {
    && raw.id == Some(row.id) && row.values == raw.values
    && row.metadata == if raw.metadata.Object? then raw.metadata.fields else map[]
  }

  lemma AcceptableIff(raws: seq<Raw>, dimension: nat)
    ensures AcceptableBatch(raws, dimension) <==> Wellformed(raws, dimension)
    ensures AcceptableBatch(raws, dimension) ==> Spelled(raws, Rows(raws))
  {
  }

  /** The loop of it, which ends at the first offence. */
  method CheckEach(raws: seq<Raw>, dimension: nat) returns (rows: Option<seq<Record>>)
    ensures rows.Some? <==> AcceptableBatch(raws, dimension)
    ensures rows.Some? ==> rows.value == Rows(raws)
  {
    var checked: seq<Record> := [];
    var seen: set<string> := {};
    var i := 0;
    while i < |raws|
      invariant i <= |raws| && AcceptableBatch(raws[..i], dimension) && checked == Rows(raws[..i])
      invariant forall id :: id in seen <==> exists k :: 0 <= k < i && raws[k].id == Some(id)
    {
      var raw := raws[i];
      if raw.extra || raw.id.None? || raw.id.value == "" || raw.id.value in seen {
        return None;
      }
      seen := seen + {raw.id.value};
      if |raw.values| != dimension || !AllFinite(raw.values) || raw.metadata.NotObject? {
        return None;
      }
      if raw.metadata.NotANumber? {
        return None;
      }
      BatchGrows(raws, i, dimension);
      checked := checked + [Row(raw)];
      i := i + 1;
    }
    assert raws[..i] == raws;
    return Some(checked);
  }

  /** The validation of upsert: the rows to insert, or nothing for a batch with an offence. */
  method Check(raws: seq<Raw>, dimension: nat) returns (rows: Option<seq<Record>>)
    ensures rows.Some? <==> AcceptableBatch(raws, dimension)
    ensures rows.Some? ==> rows.value == Rows(raws)
    ensures rows.Some? <==> Wellformed(raws, dimension)
    ensures rows.Some? ==> Spelled(raws, rows.value)
  {
    rows := CheckEach(raws, dimension);
    AcceptableIff(raws, dimension);
  }

  predicate AllFinite(values: seq<Float>) {
    forall i :: 0 <= i < |values| ==> values[i].Finite?
  }

  lemma Separate(order: seq<string>, rest: seq<string>, victim: string)
    requires Unique(order) && |order| > 0 && order[0] == victim && order[1..] == rest
    ensures victim !in rest && victim in order
    ensures Without(order, victim) == rest
    ensures Without(rest + [victim], victim) == rest
  {
    WithoutLast(rest, victim);
  }

  lemma {:induction false} WithoutLast(rest: seq<string>, name: string)
    requires name !in rest
    ensures Without(rest + [name], name) == rest
  {
    if rest != [] {
      WithoutLast(rest[1..], name);
      assert (rest + [name])[1..] == rest[1..] + [name];
    }
  }

  /** Row i of an index with line i of a sidecar, as records of a request. */
  function Paired(index: seq<seq<Float>>, sidecar: seq<SidecarLine>): (raws: seq<Raw>)
    requires |index| == |sidecar| && Parsed(sidecar)
    ensures |raws| == |index|
    ensures forall i :: 0 <= i < |raws| ==> raws[i] == Raw(sidecar[i].id, index[i], sidecar[i].metadata, false)
  {
    seq(|index|, i requires 0 <= i < |index| => Raw(sidecar[i].id, index[i], sidecar[i].metadata, false))
  }

  /** The lines of a published sidecar as they are read back. */
  function ReadBack(lines: seq<Line>): (sidecar: seq<SidecarLine>)
    ensures |sidecar| == |lines| && Parsed(sidecar)
    ensures forall i :: 0 <= i < |lines| ==> sidecar[i] == Item(Some(lines[i].id), Object(lines[i].metadata))
  {
    seq(|lines|, i requires 0 <= i < |lines| => Item(Some(lines[i].id), Object(lines[i].metadata)))
  }

  /** Only rows that passed an upsert are in a table of this dimension. */
  predicate Sound(table: map<string, Record>, dimension: nat) {
    && Keyed(table)
    && forall id :: id in table ==> id != "" && |table[id].values| == dimension && AllFinite(table[id].values)
  }

  lemma RowsDistinct(raws: seq<Raw>, dimension: nat)
    requires AcceptableBatch(raws, dimension)
    ensures DistinctIds(Rows(raws))
  {
  }

  /** An acknowledged upsert keeps every row fit for a later import. */
  lemma InsertedSound(table: map<string, Record>, raws: seq<Raw>, dimension: nat)
    requires Sound(table, dimension) && AcceptableBatch(raws, dimension)
    ensures Sound(Inserted(table, Rows(raws)), dimension)
  {
    RowsDistinct(raws, dimension);
    InsertedRows(table, Rows(raws));
    var after := Inserted(table, Rows(raws));
    forall id | id in after
      ensures id != "" && |after[id].values| == dimension && AllFinite(after[id].values)
    {
      if !Unnamed(Rows(raws), id) {
        var i :| 0 <= i < |raws| && Rows(raws)[i].id == id;
        assert Acceptable(raws[i], dimension);
      }
    }
  }

  /** The rows of the batch under their ids, every other row as before. */
  ghost predicate Merged(before: map<string, Record>, after: map<string, Record>, raws: seq<Raw>) {
    && (forall i :: 0 <= i < |raws| ==> raws[i].id.Some? && raws[i].id.value in after && Spells(raws[i], after[raws[i].id.value]))
    && (forall id :: (forall i :: 0 <= i < |raws| ==> raws[i].id != Some(id)) ==>
          (id in after <==> id in before) && (id in after ==> after[id] == before[id]))
  }

  lemma InsertedRaws(table: map<string, Record>, raws: seq<Raw>, dimension: nat)
    requires AcceptableBatch(raws, dimension)
    ensures Merged(table, Inserted(table, Rows(raws)), raws)
  {
    var rows := Rows(raws);
    RowsDistinct(raws, dimension);
    InsertedRows(table, rows);
    forall i | 0 <= i < |raws|
      ensures raws[i].id.Some? && rows[i].id == raws[i].id.value
    {
      assert Acceptable(raws[i], dimension);
    }
    forall id | forall i :: 0 <= i < |raws| ==> raws[i].id != Some(id)
      ensures Unnamed(rows, id)
    {
    }
  }

  lemma ListedRows(table: map<string, Record>, dimension: nat, rs: seq<Record>, raws: seq<Raw>)
    requires Sound(table, dimension) && Listing(table, rs) && raws == Paired(Vectors(rs), ReadBack(Lines(rs)))
    ensures AcceptableBatch(raws, dimension) && Rows(raws) == rs && DistinctIds(rs)
  {
    SortedDistinct(Ids(rs));
    forall i | 0 <= i < |rs|
      ensures Acceptable(raws[i], dimension) && Row(raws[i]) == rs[i]
    {
      assert rs[i] in rs;
    }
    assert forall i, j :: 0 <= i < j < |raws| ==> Ids(rs)[i] != Ids(rs)[j];
  }

  lemma InsertedListing(table: map<string, Record>, rs: seq<Record>)
    requires Keyed(table) && Listing(table, rs) && DistinctIds(rs)
    ensures Inserted(map[], rs) == table
  {
    InsertedRows(map[], rs);
    forall id
      ensures Unnamed(rs, id) <==> id !in table
    {
      ListedIds(table, rs, id);
      assert Unnamed(rs, id) <==> id !in Ids(rs);
    }
    var rebuilt := Inserted(map[], rs);
    forall id | id in table
      ensures id in rebuilt && rebuilt[id] == table[id]
    {
      var i :| 0 <= i < |rs| && rs[i] == table[id];
    }
  }

  /** Import inverts export: the published files of a table, imported into an empty store, rebuild it. */
  lemma ImportRebuilds(table: map<string, Record>, dimension: nat, g: Generation)
    requires Sound(table, dimension) && Agrees(g, table)
    ensures g.index.Whole? && g.sidecar.Whole?
    ensures Importable(dimension, dimension, g.index.content, ReadBack(g.sidecar.content))
    ensures Inserted(map[], Rows(Paired(g.index.content, ReadBack(g.sidecar.content)))) == table
  {
    var rs: seq<Record> :| Listing(table, rs) && Snapshot(g, rs);
    ListedRows(table, dimension, rs, Paired(g.index.content, ReadBack(g.sidecar.content)));
    InsertedListing(table, rs);
  }

  /**
   The same for stores: whatever a store has been through, importing what its CURRENT
   names into an empty store of its dimension is accepted, and rebuilds its table
   whenever CURRENT is up to date, as it is after each start and acknowledged upsert.
   */
  method Copy(s: Store, t: Store, name: string, steps: nat) returns (outcome: Outcome)
    requires s.Valid() && s.dimension.Some? && s.current.Some? && Agrees(s.dirs[s.current.value], s.table)
    requires t.Valid() && t != s && t.table == map[] && t.dimension == s.dimension && name !in t.dirs
    modifies t
    ensures outcome == Done || outcome == Crashed
    ensures outcome == Done ==> t.Valid() && t.table == s.table && t.current == Some(name) && Agrees(t.dirs[name], s.table)
  {
    var g := s.dirs[s.current.value];
    ImportRebuilds(s.table, s.dimension.value, g);
    outcome := t.Import(s.dimension.value, g.index.content, ReadBack(g.sidecar.content), name, steps);
  }

  /**
   A completed publish keeps the generation CURRENT named before it exactly when
   that one was also the most recently modified.
   */
  lemma PriorKept(order: seq<string>, name: string, prior: string)
    requires Unique(order) && name !in order && prior in order
    ensures prior in Newest(order + [name]) <==> order[|order| - 1] == prior
  {
    var i :| 0 <= i < |order| && order[i] == prior;
    var kept := Newest(order + [name]);
    assert kept == [order[|order| - 1], name];
  }

  /** A publish cut off after its directory was made, and the publish of the next start. */
  method InterruptedThenRestarted(s: Store, a: string, b: string, c: string)
    requires s.Valid() && s.current == Some(a) && s.order == [a] && a != b && b != c && a != c
    requires Cost(s.dirs[a]) == 3
    modifies s
    ensures s.Valid() && s.current == Some(c) && s.order == [b, c]
  {
    ghost var g := s.dirs[a];
    var interrupted := s.Publish(b, 1);
    assert s.order == [a, b] && s.Published() == Some(g);
    assert PruneCost(s.dirs, s.order, 1) == Cost(g) + Costs(s.dirs, s.order, 1, 1);
    var restarted := s.Publish(c, 9);
    assert s.order == Newest([a, b, c]);
  }

  /** It may not be: after a crash that left a new directory behind, the next start deletes the prior generation. */
  method PriorLost(a: string, b: string, c: string) returns (s: Store)
    requires a != b && b != c && a != c
    ensures fresh(s) && s.Valid() && s.current == Some(c) && a !in s.dirs
  {
    s := new Store();
    var published := s.Publish(a, 6);
    assert s.order == [a];
    InterruptedThenRestarted(s, a, b, c);
  }
}
