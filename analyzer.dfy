/** The heuristic analyzer (src/core/heuristics/analyzer.rs), as written.
    Its only object check looks up the element at position `len`, which
    never exists, so no finding is ever reported. */
module Analyzer {

  import opened Wrappers
  import opened Errors
  import Collector
  import Pages

  datatype ElementFound = ElementFound(explain: string)

  datatype Analyzer = Analyzer(heuristics: seq<ElementFound>)

  const LAST_OBJECT_MESSAGE: string :=
    "Last object is not the one we're expecting. PDF file may be compromised"

  /** `Vec::get`: the element at `index`, if there is one. */
  function Get<T>(s: seq<T>, index: nat): (r: Option<T>)
    ensures r.Some? <==> index < |s|
    ensures r.Some? ==> r.value == s[index]
  {
    if index < |s| then Some(s[index]) else None
  }

  /** `apply_for_pages`. */
  function ApplyForPages(pages_list: Pages.PagesList): (r: Result<seq<ElementFound>, Error>)
    ensures r == Success([])
  {
    Success([])
  }

  /** `apply_for_objects`: the lookup one past the end always misses, so the
      conditional push is never reached. */
  method ApplyForObjects(objects_list: Collector.ObjectsList) returns (r: Result<seq<ElementFound>, Error>)
    ensures r == Success([])
  {
    var result: seq<ElementFound> := [];
    var maximum_len := |objects_list.objects_extended|;
    var obj_max_id := Get(objects_list.objects_extended, maximum_len);
    match obj_max_id {
      case Some(final_obj) =>
        if final_obj.plain_ref.id != maximum_len {
          result := result + [ElementFound(LAST_OBJECT_MESSAGE)];
        }
      case None =>
    }
    r := Success(result);
  }

  /** `start`: object findings, then page findings.  Both calls return
      `Ok`, so their `?` never propagates and their values are taken
      directly.  It never fails and reports nothing, whatever the catalogue. */
  method Start(object_list: Collector.ObjectsList, page_list: Pages.PagesList)
    returns (r: Result<Analyzer, Error>)
    ensures r == Success(Analyzer([]))
  {
    var heuristics_object := ApplyForObjects(object_list);
    var heuristics_pages := ApplyForPages(page_list);
    var heuristics := heuristics_object.value + heuristics_pages.value;
    assert heuristics == [];
    r := Success(Analyzer(heuristics));
  }
}
