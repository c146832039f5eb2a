/** The navigation state of the application (src/core/context.rs): which
    view is shown and which object or page it shows.  The view enums come
    from src/gui/app.rs, src/gui/views/object_view.rs and
    src/gui/views/page_view.rs. */
module Context {

  import Collector
  import Pages
  import InputFile
  import ObjectLinker
  import Analyzer

  /** `AppView`; `Welcome` is its default. */
  datatype AppView = Welcome | Heuristics | Summary | ObjectView | PageView | Trailer

  /** `ObjectSubView`; its `Decoded` is named `ObjectDecoded` here. */
  datatype ObjectSubView = ObjectDecoded | HexCompressed | HexUncompressed | Content

  /** `PageSubView`; its default `Decoded` is named `PageDecoded` here. */
  datatype PageSubView = PageDecoded | TextExtracted | Operations

  /** `CoreGui`: its fields are updated in place by the `CoreApp` methods. */
  class CoreGui {
    var current_id: nat
    var current_view: AppView
    var subcurrent_obj_view: ObjectSubView
    var subcurrent_page_view: PageSubView

    /** `CoreGui::new`: the given id, view and object subview; the page
        subview is the default one. */
    constructor (current_id: nat, current_view: AppView, subcurrent_view: ObjectSubView)
      ensures this.current_id == current_id && this.current_view == current_view
      ensures subcurrent_obj_view == subcurrent_view
      ensures subcurrent_page_view == PageDecoded
    {
      this.current_id := current_id;
      this.current_view := current_view;
      subcurrent_obj_view := subcurrent_view;
      subcurrent_page_view := PageDecoded;
    }
  }

  /** The view `change_view` selects for a button id. */
  function ViewFor(view_id: nat): (v: AppView)
    ensures v != PageView
  {
    match view_id
    case 0 => Summary
    case 1 => Heuristics
    case 2 => Trailer
    case 3 => ObjectView
    case _ => Welcome
  }

  /** `CoreApp`, without the parsed file of the PDF library and the object
      graph.  Only `gui` changes after construction. */
  class CoreApp {
    const input_file: InputFile.InputFile
    const objects: Collector.ObjectsList
    const pages: Pages.PagesList
    const object_linker: ObjectLinker.ObjectLinker
    const heuristics: Analyzer.Analyzer
    const gui: CoreGui

    /** The record built at the end of `CoreApp::new`. */
    constructor (input_file: InputFile.InputFile, objects: Collector.ObjectsList,
                 pages: Pages.PagesList, object_linker: ObjectLinker.ObjectLinker,
                 heuristics: Analyzer.Analyzer, gui: CoreGui)
      ensures this.input_file == input_file && this.objects == objects && this.pages == pages
      ensures this.object_linker == object_linker && this.heuristics == heuristics && this.gui == gui
    {
      this.input_file := input_file;
      this.objects := objects;
      this.pages := pages;
      this.object_linker := object_linker;
      this.heuristics := heuristics;
      this.gui := gui;
    }

    /** `switch_object`: shows object `object_id` when the summary list has
        that position, and otherwise changes nothing. */
    method SwitchObject(object_id: nat)
      modifies gui
      ensures object_id < |objects.objects| ==>
                gui.current_id == object_id && gui.current_view == ObjectView
      ensures object_id >= |objects.objects| ==>
                gui.current_id == old(gui.current_id) && gui.current_view == old(gui.current_view)
      ensures gui.subcurrent_obj_view == old(gui.subcurrent_obj_view)
      ensures gui.subcurrent_page_view == old(gui.subcurrent_page_view)
    {
      if Analyzer.Get(objects.objects, object_id).Some? {
        gui.current_id := object_id;
        gui.current_view := ObjectView;
      }
    }

    /** `switch_page`: shows page `page_id`, unconditionally. */
    method SwitchPage(page_id: nat)
      modifies gui
      ensures gui.current_id == page_id && gui.current_view == PageView
      ensures gui.subcurrent_obj_view == old(gui.subcurrent_obj_view)
      ensures gui.subcurrent_page_view == old(gui.subcurrent_page_view)
    {
      gui.current_id := page_id;
      gui.current_view := PageView;
    }

    /** `change_view`, with the button `Response` reduced to whether it was
        clicked. */
    method ChangeView(view_id: nat, clicked: bool)
      modifies gui
      ensures !clicked ==> gui.current_view == old(gui.current_view)
      ensures clicked && view_id == 0 ==> gui.current_view == Summary
      ensures clicked && view_id == 1 ==> gui.current_view == Heuristics
      ensures clicked && view_id == 2 ==> gui.current_view == Trailer
      ensures clicked && view_id == 3 ==> gui.current_view == ObjectView
      ensures clicked && view_id > 3 ==> gui.current_view == Welcome
      ensures gui.current_id == old(gui.current_id)
      ensures gui.subcurrent_obj_view == old(gui.subcurrent_obj_view)
      ensures gui.subcurrent_page_view == old(gui.subcurrent_page_view)
    {
      if clicked {
        var view := ViewFor(view_id);
        gui.current_view := view;
      }
    }

    /** `switch_id`: changes the id and nothing else. */
    method SwitchId(view_id: nat)
      modifies gui
      ensures gui.current_id == view_id
      ensures gui.current_view == old(gui.current_view)
      ensures gui.subcurrent_obj_view == old(gui.subcurrent_obj_view)
      ensures gui.subcurrent_page_view == old(gui.subcurrent_page_view)
    {
      gui.current_id := view_id;
    }
  }
}
