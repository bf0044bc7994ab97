/** The consistency check page: the user selects documents, starts the
    check (a `start_consistency_check` remote procedure call with the
    selection and a simulated progress counter) and is sent to the result
    page when the counter completes, which also ends the check. */
module ConsistencyCheckPage {
  import opened Wrappers
  import opened Selection

  /** The remote procedure call the page sends. */
  datatype RpcCall = RpcCall(name: string, documentIds: seq<string>)

  const ProcedureName := "start_consistency_check"
  const ResultRoute := "/consistency-check-result"

  class Page {
    var selectedDocuments: seq<string>
    var isChecking: bool
    var progress: int
    /** Whether the progress interval is running. */
    var ticking: bool
    /** The route the router was last pushed to. */
    var route: Option<string>

    /** The progress shown is a multiple of 10 in [0, 100]. */
    ghost predicate Valid()
      reads this
    {
      0 <= progress <= 100 && progress % 10 == 0
    }

    constructor ()
      ensures selectedDocuments == [] && !isChecking && progress == 0 && !ticking && route == None
      ensures Valid()
    {
      selectedDocuments := [];
      isChecking := false;
      progress := 0;
      ticking := false;
      route := None;
    }

    /** The start button is enabled. */
    predicate CanStart()
      reads this
    {
      !isChecking && |selectedDocuments| != 0
    }

    /** `handleDocumentSelect`. */
    method SelectDocument(id: string)
      modifies this
      ensures selectedDocuments == Toggle(old(selectedDocuments), id)
      ensures isChecking == old(isChecking) && progress == old(progress) && ticking == old(ticking) && route == old(route)
    {
      selectedDocuments := Toggle(selectedDocuments, id);
    }

    /** `handleStartCheck`, reachable only through the enabled button: the
        check is marked running, the counter restarts at 0 and the call
        carries the whole current selection. */
    method StartCheck() returns (call: RpcCall)
      requires CanStart()
      modifies this
      ensures Valid() && isChecking && progress == 0 && ticking && !CanStart()
      ensures selectedDocuments == old(selectedDocuments) && route == old(route)
      ensures call == RpcCall(ProcedureName, selectedDocuments)
    {
      isChecking := true;
      progress := 0;
      ticking := true;
      call := RpcCall(ProcedureName, selectedDocuments);
    }

    /** One firing of the interval; the tick that finds 100 also ends the
        check. */
    method OnTick()
      requires Valid() && ticking
      modifies this
      ensures Valid()
      ensures progress == Tick(old(progress))
      ensures ticking <==> !Finishes(old(progress))
      ensures isChecking == if Finishes(old(progress)) then false else old(isChecking)
      ensures route == if Finishes(old(progress)) then Some(ResultRoute) else old(route)
      ensures selectedDocuments == old(selectedDocuments)
    {
      if progress >= 100 {
        ticking := false;
        isChecking := false;
        route := Some(ResultRoute);
        progress := 100;
      } else {
        progress := progress + 10;
      }
    }
  }
}
