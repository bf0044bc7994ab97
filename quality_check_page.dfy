/** The quality check page: the user selects documents and source codes,
    starts the check (which inserts a placeholder `quality_checks` row and
    starts a simulated progress counter) and is sent to the result page when
    the counter completes. */
module QualityCheckPage {
  import opened Wrappers
  import opened Selection

  /** The row the page inserts: the first selected item's id as
      `project_id`, the fixed type `ドキュメント` and an empty result. */
  datatype CheckPayload = CheckPayload(projectId: string, kind: string)

  const DocumentKind := "ドキュメント"
  const ResultRoute := "/quality-check-result"

  class Page {
    var selectedItems: seq<string>
    var isChecking: bool
    var progress: int
    /** Whether the progress interval is running. */
    var ticking: bool
    /** The route the router was last pushed to. */
    var route: Option<string>

    /** The progress shown is a multiple of 10 in [0, 100]. */
    ghost predicate Valid()
      reads this
    {
      0 <= progress <= 100 && progress % 10 == 0
    }

    constructor ()
      ensures selectedItems == [] && !isChecking && progress == 0 && !ticking && route == None
      ensures Valid()
    {
      selectedItems := [];
      isChecking := false;
      progress := 0;
      ticking := false;
      route := None;
    }

    /** The start button is enabled. */
    predicate CanStart()
      reads this
    {
      |selectedItems| != 0 && !isChecking
    }

    /** `handleSelectItem`. */
    method SelectItem(id: string)
      modifies this
      ensures selectedItems == Toggle(old(selectedItems), id)
      ensures isChecking == old(isChecking) && progress == old(progress) && ticking == old(ticking) && route == old(route)
    {
      selectedItems := Toggle(selectedItems, id);
    }

    /** `startCheck`, reachable only through the enabled button: the check
        is marked running for good (nothing on this page clears it again),
        the counter restarts at 0 and the insert payload is returned. */
    method StartCheck() returns (payload: CheckPayload)
      requires CanStart()
      modifies this
      ensures Valid() && isChecking && progress == 0 && ticking && !CanStart()
      ensures selectedItems == old(selectedItems) && route == old(route)
      ensures payload == CheckPayload(selectedItems[0], DocumentKind)
    {
      isChecking := true;
      progress := 0;
      ticking := true;
      payload := CheckPayload(selectedItems[0], DocumentKind);
    }

    /** One firing of the interval. */
    method OnTick()
      requires Valid() && ticking
      modifies this
      ensures Valid()
      ensures progress == Tick(old(progress))
      ensures ticking <==> !Finishes(old(progress))
      ensures route == if Finishes(old(progress)) then Some(ResultRoute) else old(route)
      ensures selectedItems == old(selectedItems) && isChecking == old(isChecking)
    {
      if progress >= 100 {
        ticking := false;
        route := Some(ResultRoute);
        progress := 100;
      } else {
        progress := progress + 10;
      }
    }
  }
}
