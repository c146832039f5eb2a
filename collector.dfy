/** The object indexer (src/core/objects/collector.rs): turns the items of a
    file scan into a summary list and an extended list of objects, both
    sorted by object id, and a map from id to position. */
module Collector {

  import opened Wrappers
  import opened Primitives
  import Sequences
  import Formatting

  /** The small record shown in the object menu. */
  datatype SingleObject = SingleObject(name: string, id: ObjectId)

  /** What the bytes of a stream look like. */
  datatype FileContent =
    | Unknown(buffer: seq<byte>)
    | GraphicState(buffer: seq<byte>)
    | TextASCII(buffer: seq<byte>, text: string)

  /** An object with everything known about it.  The program owns these by
      value (cloned and moved, never shared), so a datatype models them. */
  datatype SingleObjectExtended = SingleObjectExtended(
    id: ObjectId,
    name: string,
    plain_ref: PlainRef,
    object_content: Primitive,
    raw_buffer: Option<seq<byte>>,
    file_content: Option<FileContent>,
    references: seq<ObjectId>)
  {
    /** `insert_raw_buffer`: sets the raw buffer, nothing else. */
    function InsertRawBuffer(buffer: seq<byte>): (o: SingleObjectExtended)
      ensures o.raw_buffer == Some(buffer)
      ensures o.(raw_buffer := raw_buffer) == this
    {
      this.(raw_buffer := Some(buffer))
    }

    /** `insert_file_content`: sets the classification, nothing else. */
    function InsertFileContent(content: FileContent): (o: SingleObjectExtended)
      ensures o.file_content == Some(content)
      ensures o.(file_content := file_content) == this
    {
      this.(file_content := Some(content))
    }
  }

  /** `SingleObjectExtended::new`: no buffer, no classification, no references. */
  function NewSingleObjectExtended(id: ObjectId, name: string, plain_ref: PlainRef,
                                   object_content: Primitive): (o: SingleObjectExtended)
    ensures o.id == id && o.name == name && o.plain_ref == plain_ref
    ensures o.object_content == object_content
    ensures o.raw_buffer == None && o.file_content == None && o.references == []
  {
    SingleObjectExtended(id, name, plain_ref, object_content, None, None, [])
  }

  /** The index.  The source calls the position map `map`, a Dafny keyword. */
  datatype ObjectsList = ObjectsList(
    objects: seq<SingleObject>,
    objects_extended: seq<SingleObjectExtended>,
    id_map: map<ObjectId, nat>)

  /** `format!("{} – {}", id, name)`, with an en dash. */
  function CompleteName(id: ObjectId, name: string): string {
    Formatting.Decimal(id) + " – " + name
  }

  /** The id and the debug name can be read back from the complete name. */
  lemma CompleteNameInjective(i: ObjectId, a: string, j: ObjectId, b: string)
    requires CompleteName(i, a) == CompleteName(j, b)
    ensures i == j && a == b
  {
    var d1, d2 := Formatting.Decimal(i), Formatting.Decimal(j);
    var n := CompleteName(i, a);
    assert n == d1 + (" – " + a) && n == d2 + (" – " + b);
    assert n[|d1|] == ' ' && n[|d2|] == ' ';
    assert d1 == n[..|d1|] == d2;
    assert a == n[|d1| + 3..] == b;
    Formatting.RadixRoundTrip(i, 10);
    Formatting.RadixRoundTrip(j, 10);
  }

  /** The `(reference, content)` pairs of the object items, in scan order. */
  function ObjectItems(items: seq<ScanItem>): seq<(PlainRef, Primitive)> {
    if items == [] then [] else ObjectItems(items[..|items| - 1]) + ItemObject(items[|items| - 1])
  }

  function ItemObject(item: ScanItem): seq<(PlainRef, Primitive)> {
    match item
    case Trailer(_) => []
    case Object(r, c) => [(r, c)]
  }

  function ItemId(item: (PlainRef, Primitive)): nat {
    item.0.id
  }

  function SummaryId(o: SingleObject): nat {
    o.id
  }

  function ExtendedId(o: SingleObjectExtended): nat {
    o.id
  }

  /** The summary entry built for one object item. */
  function Summary(item: (PlainRef, Primitive)): (o: SingleObject)
    ensures o.id == item.0.id && o.name == DebugName(item.1)
  {
    SingleObject(DebugName(item.1), item.0.id)
  }

  /** The extended entry built for one object item. */
  function Extended(item: (PlainRef, Primitive)): (o: SingleObjectExtended)
    ensures o.id == item.0.id && o.plain_ref == item.0 && o.object_content == item.1
    ensures o.name == CompleteName(item.0.id, DebugName(item.1))
    ensures o.raw_buffer == None && o.file_content == None && o.references == []
  {
    var a := Summary(item);
    NewSingleObjectExtended(a.id, CompleteName(a.id, a.name), item.0, item.1)
  }

  /** The id -> position map, as `enumerate().map(..).collect()` builds it:
      a later position overwrites an earlier one with the same id. */
  function IndexMap(s: seq<SingleObjectExtended>): (m: map<ObjectId, nat>)
    ensures m.Keys == set o | o in s :: o.id
    ensures forall k :: k in m ==> m[k] < |s| && s[m[k]].id == k
    ensures forall k, j :: k in m && m[k] < j < |s| ==> s[j].id != k
  {
    if s == [] then map[]
    else
      var prefix := s[..|s| - 1];
      var m := IndexMap(prefix);
      assert s == prefix + [s[|s| - 1]];
      m[s[|s| - 1].id := |s| - 1]
  }

  /** With distinct ids every position is the image of its own id; with the
      ensures of `IndexMap` this makes the map a bijection between the ids
      and the positions `[0, |s|)`. */
  lemma IndexMapOfDistinct(s: seq<SingleObjectExtended>)
    requires forall i, j :: 0 <= i < j < |s| ==> s[i].id != s[j].id
    ensures forall i :: 0 <= i < |s| ==> s[i].id in IndexMap(s) && IndexMap(s)[s[i].id] == i
  {
    var m := IndexMap(s);
    forall i | 0 <= i < |s| ensures s[i].id in m && m[s[i].id] == i {
      assert s[i] in s;
      var k := m[s[i].id];
      assert s[k].id == s[i].id;
      assert !(k < i) && !(i < k);
    }
  }

  /** The index `ObjectsList::new` builds from a scan: one summary and one
      extended entry per object item, each list sorted by id. */
  function Build(items: seq<ScanItem>): (l: ObjectsList)
    ensures |l.objects| == |l.objects_extended| == |ObjectItems(items)|
    ensures Sequences.SortedBy(l.objects, SummaryId) && Sequences.SortedBy(l.objects_extended, ExtendedId)
    ensures multiset(l.objects) == multiset(Sequences.Map(Summary, ObjectItems(items)))
    ensures multiset(l.objects_extended) == multiset(Sequences.Map(Extended, ObjectItems(items)))
  {
    var extended := Sequences.Sort(Sequences.Map(Extended, ObjectItems(items)), ExtendedId);
    ObjectsList(
      Sequences.Sort(Sequences.Map(Summary, ObjectItems(items)), SummaryId),
      extended,
      IndexMap(extended))
  }

  lemma {:induction false} ObjectItemsAppend(a: seq<ScanItem>, b: seq<ScanItem>)
    ensures ObjectItems(a + b) == ObjectItems(a) + ObjectItems(b)
  {
    if b == [] {
      assert a + b == a;
    } else {
      var b' := b[..|b| - 1];
      assert (a + b)[..|a + b| - 1] == a + b';
      assert (a + b)[|a + b| - 1] == b[|b| - 1];
      ObjectItemsAppend(a, b');
    }
  }

  /** Trailer items never produce an entry, wherever they occur in the scan. */
  lemma {:induction false} TrailerIgnored(a: seq<ScanItem>, dict: seq<(string, Primitive)>, b: seq<ScanItem>)
    ensures ObjectItems(a + [Trailer(dict)] + b) == ObjectItems(a + b)
  {
    var t := [Trailer(dict)];
    TrailerAlone(dict);
    ObjectItemsAppend(a + t, b);
    ObjectItemsAppend(a, t);
    ObjectItemsAppend(a, b);
    assert ObjectItems(a + t) == ObjectItems(a) + [];
    assert ObjectItems(a) + [] == ObjectItems(a);
  }

  lemma TrailerAlone(dict: seq<(string, Primitive)>)
    ensures ObjectItems([Trailer(dict)]) == []
  {
    assert [Trailer(dict)][..0] == [];
  }

  lemma TrailerNotIndexed(a: seq<ScanItem>, dict: seq<(string, Primitive)>, b: seq<ScanItem>)
    ensures Build(a + [Trailer(dict)] + b) == Build(a + b)
  {
    TrailerIgnored(a, dict, b);
  }

  /** Repeated ids are kept in both lists; the map keeps the last position. */
  lemma DuplicateIdsKept(r: PlainRef, c: Primitive)
    ensures |Build([Object(r, c), Object(r, c)]).objects| == 2
    ensures |Build([Object(r, c), Object(r, c)]).objects_extended| == 2
    ensures Build([Object(r, c), Object(r, c)]).id_map == map[r.id := 1]
  {
    TwoObjectItems(r, c);
    var e := Extended((r, c));
    assert Sequences.Map(Extended, [(r, c), (r, c)]) == [e, e];
    SortTwo(e);
    IndexMapTwo(e);
  }

  lemma TwoObjectItems(r: PlainRef, c: Primitive)
    ensures ObjectItems([Object(r, c), Object(r, c)]) == [(r, c), (r, c)]
  {
    var items := [Object(r, c), Object(r, c)];
    var one := [Object(r, c)];
    assert one[..0] == [] && ObjectItems(one) == [(r, c)];
    assert items[..1] == one;
  }

  lemma SortTwo(e: SingleObjectExtended)
    ensures Sequences.Sort([e, e], ExtendedId) == [e, e]
  {
    assert [e, e][1..] == [e];
    assert Sequences.Sort([e], ExtendedId) == [e];
  }

  lemma IndexMapTwo(e: SingleObjectExtended)
    ensures IndexMap([e, e]) == map[e.id := 1]
  {
    assert [e, e][..1] == [e] && [e][..0] == [];
  }

  /** An empty scan gives an empty index. */
  lemma BuildEmpty()
    ensures Build([]) == ObjectsList([], [], map[])
  {
  }

  /** Both lists are the same sorted item sequence, seen through `Summary`
      and through `Extended`. */
  lemma SortedItems(items: seq<ScanItem>)
    ensures Build(items).objects == Sequences.Map(Summary, Sequences.Sort(ObjectItems(items), ItemId))
    ensures Build(items).objects_extended
            == Sequences.Map(Extended, Sequences.Sort(ObjectItems(items), ItemId))
  {
    assert forall a :: SummaryId(Summary(a)) == ItemId(a);
    assert forall a :: ExtendedId(Extended(a)) == ItemId(a);
    Sequences.SortMap(Summary, ObjectItems(items), ItemId, SummaryId);
    Sequences.SortMap(Extended, ObjectItems(items), ItemId, ExtendedId);
  }

  /** What `ObjectsList::new` promises about the index it builds: parallel
      lists, one entry per object item, each sorted by id. */
  lemma BuildShape(items: seq<ScanItem>)
    ensures |Build(items).objects| == |Build(items).objects_extended| == |ObjectItems(items)|
    ensures Sequences.SortedBy(Build(items).objects, SummaryId)
    ensures Sequences.SortedBy(Build(items).objects_extended, ExtendedId)
    ensures multiset(Build(items).objects) == multiset(Sequences.Map(Summary, ObjectItems(items)))
    ensures multiset(Build(items).objects_extended)
            == multiset(Sequences.Map(Extended, ObjectItems(items)))
    ensures forall i :: 0 <= i < |Build(items).objects| ==>
              && Build(items).objects_extended[i].id == Build(items).objects[i].id
              && Build(items).objects_extended[i].name
                 == CompleteName(Build(items).objects[i].id, Build(items).objects[i].name)
  {
    var list := Build(items);
    var sorted := Sequences.Sort(ObjectItems(items), ItemId);
    SortedItems(items);
    forall i | 0 <= i < |list.objects|
      ensures && list.objects_extended[i].id == list.objects[i].id
              && list.objects_extended[i].name == CompleteName(list.objects[i].id, list.objects[i].name)
    {
      assert list.objects[i] == Summary(sorted[i]);
      assert list.objects_extended[i] == Extended(sorted[i]);
    }
  }

  /** One pass of the loop in `ObjectsList::new` extends both lists by what
      the item contributes. */
  lemma NewStep(items: seq<ScanItem>, k: nat)
    requires k < |items|
    ensures Sequences.Map(Summary, ObjectItems(items[..k + 1]))
            == Sequences.Map(Summary, ObjectItems(items[..k])) + Sequences.Map(Summary, ItemObject(items[k]))
    ensures Sequences.Map(Extended, ObjectItems(items[..k + 1]))
            == Sequences.Map(Extended, ObjectItems(items[..k])) + Sequences.Map(Extended, ItemObject(items[k]))
    ensures items[k].Trailer? ==> Sequences.Map(Summary, ItemObject(items[k])) == []
                                  && Sequences.Map(Extended, ItemObject(items[k])) == []
    ensures items[k].Object? ==>
              && Sequences.Map(Summary, ItemObject(items[k])) == [Summary((items[k].plain_ref, items[k].content))]
              && Sequences.Map(Extended, ItemObject(items[k])) == [Extended((items[k].plain_ref, items[k].content))]
  {
    assert items[..k + 1][..k] == items[..k];
    Sequences.MapAppend(Summary, ObjectItems(items[..k]), ItemObject(items[k]));
    Sequences.MapAppend(Extended, ObjectItems(items[..k]), ItemObject(items[k]));
  }

  /** `ObjectsList::new`.  It never fails (both constructors it calls return
      `Ok`), so the `Result` of the source is dropped. */
  method New(items: seq<ScanItem>) returns (list: ObjectsList)
    ensures list == Build(items)
    ensures |list.objects| == |list.objects_extended| == |ObjectItems(items)|
    ensures Sequences.SortedBy(list.objects, SummaryId)
    ensures Sequences.SortedBy(list.objects_extended, ExtendedId)
    ensures forall i :: 0 <= i < |list.objects| ==>
              list.objects_extended[i].id == list.objects[i].id
    ensures forall k :: k in list.id_map ==>
              list.id_map[k] < |list.objects_extended| && list.objects_extended[list.id_map[k]].id == k
    ensures forall i :: 0 <= i < |list.objects_extended| ==>
              list.objects_extended[i].id in list.id_map && i <= list.id_map[list.objects_extended[i].id]
  {
    var result: seq<SingleObject> := [];
    var objects_extended: seq<SingleObjectExtended> := [];
    for k := 0 to |items|
      invariant result == Sequences.Map(Summary, ObjectItems(items[..k]))
      invariant objects_extended == Sequences.Map(Extended, ObjectItems(items[..k]))
    {
      NewStep(items, k);
      match items[k]
      case Trailer(_) => {
      }
      case Object(plain_ref, object_content) => {
        var a := SingleObject(DebugName(object_content), plain_ref.id);
        result := result + [a];
        var complete_name := CompleteName(a.id, a.name);
        var n := NewSingleObjectExtended(a.id, complete_name, plain_ref, object_content);
        objects_extended := objects_extended + [n];
      }
    }
    assert items[..|items|] == items;
    objects_extended := Sequences.Sort(objects_extended, ExtendedId);
    result := Sequences.Sort(result, SummaryId);
    list := ObjectsList(result, objects_extended, IndexMap(objects_extended));
    BuildShape(items);
    forall i | 0 <= i < |list.objects_extended|
      ensures list.objects_extended[i].id in list.id_map && i <= list.id_map[list.objects_extended[i].id]
    {
      assert list.objects_extended[i] in list.objects_extended;
    }
  }
}
