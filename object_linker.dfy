/** The reference linker (src/core/objects/object_linker.rs): collects the
    references each object's primitive tree mentions and inverts them into
    the "referenced by" relation. */
module ObjectLinker {

  import opened Primitives
  import opened Collector

  /** Forward and backward adjacency, keyed by object id. */
  datatype ObjectLinker = ObjectLinker(
    to_objects: map<ObjectId, seq<ObjectId>>,
    from_objects: map<ObjectId, seq<ObjectId>>)

  /** Every reference leaf of a primitive tree, depth first, with repeats.
      Streams contribute their dictionary, dictionaries their values, arrays
      their elements; every other primitive contributes nothing. */
  function References(p: Primitive): seq<ObjectId> {
    match p
    case Stream(ess) => EntryReferences(ess.info)
    case Dictionary(elements) => EntryReferences(elements)
    case Array(elements) => ElementReferences(elements)
    case Reference(reference) => [reference.id]
    case _ => []
  }

  function EntryReferences(entries: seq<(string, Primitive)>): seq<ObjectId>
    decreases entries
  {
    if entries == [] then []
    else EntryReferences(entries[..|entries| - 1]) + ValueReferences(entries[|entries| - 1])
  }

  function ValueReferences(entry: (string, Primitive)): seq<ObjectId> {
    References(entry.1)
  }

  function ElementReferences(elements: seq<Primitive>): seq<ObjectId>
    decreases elements
  {
    if elements == [] then []
    else ElementReferences(elements[..|elements| - 1]) + References(elements[|elements| - 1])
  }

  /** The accumulator after one reference leaf: `push` unless already there. */
  function Push(acc: seq<ObjectId>, id: ObjectId): seq<ObjectId> {
    if id in acc then acc else acc + [id]
  }

  /** One step only appends, adds exactly `id`, and never repeats an id. */
  lemma PushSpec(acc: seq<ObjectId>, id: ObjectId)
    ensures |acc| <= |Push(acc, id)| <= |acc| + 1 && Push(acc, id)[..|acc|] == acc
    ensures forall x :: x in Push(acc, id) <==> x in acc || x == id
    ensures Distinct(acc) ==> Distinct(Push(acc, id))
  {
  }

  /** The accumulator after a sequence of reference leaves. */
  function AppendNew(acc: seq<ObjectId>, ids: seq<ObjectId>): seq<ObjectId> {
    if ids == [] then acc else Push(AppendNew(acc, ids[..|ids| - 1]), ids[|ids| - 1])
  }

  ghost predicate Distinct(s: seq<ObjectId>) {
    forall i, j :: 0 <= i < j < |s| ==> s[i] != s[j]
  }

  /** The position of the first occurrence of `x` in `s`. */
  function FirstIndex(s: seq<ObjectId>, x: ObjectId): (k: nat)
    requires x in s
    ensures k < |s| && s[k] == x && forall j :: 0 <= j < k ==> s[j] != x
  {
    if s[0] == x then 0 else 1 + FirstIndex(s[1..], x)
  }

  lemma {:induction false} AppendNewConcat(acc: seq<ObjectId>, a: seq<ObjectId>, b: seq<ObjectId>)
    ensures AppendNew(acc, a + b) == AppendNew(AppendNew(acc, a), b)
  {
    if b == [] {
      assert a + b == a;
    } else {
      assert (a + b)[..|a + b| - 1] == a + b[..|b| - 1];
      assert (a + b)[|a + b| - 1] == b[|b| - 1];
      AppendNewConcat(acc, a, b[..|b| - 1]);
    }
  }

  /** What collecting `ids` onto `acc` does: it only appends, never repeats an
      id that is already present, and adds exactly the ids of `ids`. */
  lemma {:induction false} AppendNewSpec(acc: seq<ObjectId>, ids: seq<ObjectId>)
    ensures |acc| <= |AppendNew(acc, ids)| && AppendNew(acc, ids)[..|acc|] == acc
    ensures Distinct(acc) ==> Distinct(AppendNew(acc, ids))
    ensures forall x :: x in AppendNew(acc, ids) <==> x in acc || x in ids
  {
    if ids != [] {
      var prefix := ids[..|ids| - 1];
      AppendNewSpec(acc, prefix);
      var r := AppendNew(acc, prefix);
      assert forall x :: x in ids <==> x in prefix || x == ids[|ids| - 1] by {
        assert ids == prefix + [ids[|ids| - 1]];
      }
      if ids[|ids| - 1] !in r {
        assert (r + [ids[|ids| - 1]])[..|acc|] == r[..|acc|];
      }
    }
  }

  /** `r` lists the distinct ids of `ids`, each once, ordered by where each
      first occurs in `ids`. */
  ghost predicate FirstOccurrenceOrder(r: seq<ObjectId>, ids: seq<ObjectId>) {
    && Distinct(r)
    && (forall x :: x in r <==> x in ids)
    && (forall i, j :: 0 <= i < j < |r| ==> r[i] in ids && r[j] in ids && FirstIndex(ids, r[i]) < FirstIndex(ids, r[j]))
  }

  lemma FirstIndexAppend(s: seq<ObjectId>, x: ObjectId, y: ObjectId)
    requires y in s
    ensures FirstIndex(s + [x], y) == FirstIndex(s, y)
  {
    var k := FirstIndex(s, y);
    var k' := FirstIndex(s + [x], y);
    assert (s + [x])[k] == y;
    assert !(k < k') && !(k' < k);
  }

  /** Collecting from an empty list keeps each id once, in order of first
      occurrence. */
  lemma {:induction false} AppendNewFirstOccurrence(ids: seq<ObjectId>)
    ensures FirstOccurrenceOrder(AppendNew([], ids), ids)
  {
    AppendNewSpec([], ids);
    if ids != [] {
      var prefix := ids[..|ids| - 1];
      var x := ids[|ids| - 1];
      assert ids == prefix + [x];
      AppendNewFirstOccurrence(prefix);
      AppendNewSpec([], prefix);
      var r := AppendNew([], prefix);
      var r' := AppendNew([], ids);
      forall i, j | 0 <= i < j < |r'|
        ensures r'[i] in ids && r'[j] in ids && FirstIndex(ids, r'[i]) < FirstIndex(ids, r'[j])
      {
        assert r'[i] in r';
        assert r'[j] in r';
        if j < |r| {
          assert r'[i] == r[i] && r'[j] == r[j];
          FirstIndexAppend(prefix, x, r[i]);
          FirstIndexAppend(prefix, x, r[j]);
        } else {
          assert x !in r && r' == r + [x] && r'[j] == x && r'[i] == r[i];
          assert r[i] in r;
          FirstIndexAppend(prefix, x, r[i]);
          assert x !in prefix;
          assert FirstIndex(ids, x) == |prefix|;
        }
      }
    }
  }

  /** References 3, 7, 3, 9 give [3, 7, 9]. */
  lemma DuplicateReferencesCollapse()
    ensures AppendNew([], [3, 7, 3, 9]) == [3, 7, 9]
  {
    assert [3, 7, 3, 9][..3] == [3, 7, 3];
    assert [3, 7, 3][..2] == [3, 7];
    assert [3, 7][..1] == [3];
    assert [3][..0] == [];
  }

  /** `scan`: pushes every reference leaf of `primitive` that is not yet in
      `references_to`, depth first. */
  method Scan(primitive: Primitive, references_to: seq<ObjectId>) returns (out: seq<ObjectId>)
    ensures out == AppendNew(references_to, References(primitive))
    decreases primitive, 1
  {
    match primitive
    case Stream(ess) =>
      out := ScanEntries(ess.info, references_to);
    case Dictionary(elements) =>
      out := ScanEntries(elements, references_to);
    case Array(elements) =>
      out := references_to;
      for k := 0 to |elements|
        invariant out == AppendNew(references_to, ElementReferences(elements[..k]))
      {
        assert elements[..k + 1][..k] == elements[..k];
        AppendNewConcat(references_to, ElementReferences(elements[..k]), References(elements[k]));
        out := Scan(elements[k], out);
      }
      assert elements[..|elements|] == elements;
    case Reference(reference) =>
      var object_id_to_push := reference.id;
      out := references_to;
      if object_id_to_push !in out {
        out := out + [object_id_to_push];
      }
      assert [object_id_to_push][..0] == [];
    case _ =>
      out := references_to;
  }

  /** The loop over the values of a dictionary (or of a stream's dictionary). */
  method ScanEntries(entries: seq<(string, Primitive)>, references_to: seq<ObjectId>) returns (out: seq<ObjectId>)
    ensures out == AppendNew(references_to, EntryReferences(entries))
    decreases entries, 0
  {
    out := references_to;
    for k := 0 to |entries|
      invariant out == AppendNew(references_to, EntryReferences(entries[..k]))
    {
      assert entries[..k + 1][..k] == entries[..k];
      AppendNewConcat(references_to, EntryReferences(entries[..k]), ValueReferences(entries[k]));
      out := ScanEntry(entries[k], out);
    }
    assert entries[..|entries|] == entries;
  }

  method ScanEntry(entry: (string, Primitive), references_to: seq<ObjectId>) returns (out: seq<ObjectId>)
    ensures out == AppendNew(references_to, ValueReferences(entry))
    decreases entry, 2
  {
    out := Scan(entry.1, references_to);
  }

  /** The references collected for one object, from an empty list. */
  function ObjectReferences(o: SingleObjectExtended): seq<ObjectId> {
    AppendNew([], References(o.object_content))
  }

  /** The forward map as the first loop of `connect` builds it: a later
      object with the same id overwrites an earlier one. */
  function ForwardMap(objects: seq<SingleObjectExtended>): (m: map<ObjectId, seq<ObjectId>>)
    ensures m.Keys == set o | o in objects :: o.id
  {
    if objects == [] then map[]
    else
      var prefix := objects[..|objects| - 1];
      var last := objects[|objects| - 1];
      assert objects == prefix + [last];
      ForwardMap(prefix)[last.id := ObjectReferences(last)]
  }

  /** Each id maps to the references of the last object carrying it. */
  lemma {:induction false} ForwardMapLastWins(objects: seq<SingleObjectExtended>, i: nat)
    requires i < |objects|
    requires forall j :: i < j < |objects| ==> objects[j].id != objects[i].id
    ensures objects[i].id in ForwardMap(objects)
    ensures ForwardMap(objects)[objects[i].id] == ObjectReferences(objects[i])
  {
    var prefix := objects[..|objects| - 1];
    if i < |objects| - 1 {
      assert prefix[i] == objects[i];
      ForwardMapLastWins(prefix, i);
    }
  }

  /** The inner loop of `connect`: the ids whose forward list contains
      `key`, each once, found by iterating over the forward map's keys in an
      unspecified order. */
  method Parents(to_hashmap: map<ObjectId, seq<ObjectId>>, key: ObjectId) returns (parents_for_key: seq<ObjectId>)
    ensures Distinct(parents_for_key)
    ensures forall a :: a in parents_for_key <==> a in to_hashmap && key in to_hashmap[a]
  {
    parents_for_key := [];
    var pending := to_hashmap.Keys;
    while pending != {}
      invariant pending <= to_hashmap.Keys
      invariant Distinct(parents_for_key)
      invariant forall a :: a in parents_for_key <==>
                  a in to_hashmap && a !in pending && key in to_hashmap[a]
      decreases pending
    {
      var actual_key :| actual_key in pending;
      if key in to_hashmap[actual_key] {
        if actual_key !in parents_for_key {
          parents_for_key := parents_for_key + [actual_key];
        }
      }
      pending := pending - {actual_key};
    }
  }

  /** `connect`.  The backward map is built by iterating over the keys of the
      forward map in an unspecified order (a `HashMap`), so each backward list
      is specified by its members only. */
  method Connect(objects: seq<SingleObjectExtended>) returns (linker: ObjectLinker)
    ensures linker.to_objects == ForwardMap(objects)
    ensures linker.from_objects.Keys == linker.to_objects.Keys
    ensures forall b :: b in linker.from_objects ==>
              && Distinct(linker.from_objects[b])
              && forall a :: a in linker.from_objects[b] <==>
                   a in linker.to_objects && b in linker.to_objects[a]
  {
    var to_hashmap: map<ObjectId, seq<ObjectId>> := map[];
    for i := 0 to |objects|
      invariant to_hashmap == ForwardMap(objects[..i])
    {
      assert objects[..i + 1][..i] == objects[..i];
      var from := Scan(objects[i].object_content, []);
      to_hashmap := to_hashmap[objects[i].id := from];
    }
    assert objects[..|objects|] == objects;

    var from_hashmap: map<ObjectId, seq<ObjectId>> := map[];
    var keys := to_hashmap.Keys;
    while keys != {}
      invariant keys <= to_hashmap.Keys
      invariant from_hashmap.Keys == to_hashmap.Keys - keys
      invariant forall b :: b in from_hashmap ==>
                  && Distinct(from_hashmap[b])
                  && forall a :: a in from_hashmap[b] <==> a in to_hashmap && b in to_hashmap[a]
      decreases keys
    {
      var key :| key in keys;
      var parents_for_key := Parents(to_hashmap, key);
      from_hashmap := from_hashmap[key := parents_for_key];
      keys := keys - {key};
    }
    linker := ObjectLinker(to_hashmap, from_hashmap);
  }

  /** The two maps are each other's inverse on the indexed ids, and ids that
      are referenced but not indexed have no backward entry. */
  lemma Bidirectional(linker: ObjectLinker, a: ObjectId, b: ObjectId)
    requires linker.from_objects.Keys == linker.to_objects.Keys
    requires forall y :: y in linker.from_objects ==>
               forall x :: x in linker.from_objects[y] <==>
                 x in linker.to_objects && y in linker.to_objects[x]
    requires a in linker.to_objects && b in linker.to_objects
    ensures a in linker.from_objects[b] <==> b in linker.to_objects[a]
  {
  }
}
