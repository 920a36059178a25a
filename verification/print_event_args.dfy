/**
 * The print event arguments: the DPI the application prints at, and the
 * one-at-a-time drawing sessions whose command lists become the pages of a
 * lazily created print control.
 */
module PrintEventArgs {
  import opened Printing

  /** The print control the device creates for a package target at a DPI. */
  datatype PrintControl = PrintControl(target: Handle, dpi: real)

  /** The command list recorded by the drawing session for page `page`. */
  datatype CommandList = CommandList(page: nat)

  /** A drawing session as the application sees it: what it draws into and at which DPI. */
  datatype DrawingSession = DrawingSession(target: CommandList, dpi: real)

  /** The calls the print arguments make on the device, the command lists and the
      print control. A null pointer argument is `None`. */
  datatype PrintCall =
    | CreatePrintControl(device: Handle, target: Handle, dpi: real)
    | CreateCommandList(list: CommandList)
    | CloseCommandList(list: CommandList)
    | AddPage(list: CommandList, pageSize: Size, printTicket: Option<Handle>, tag1: Option<Handle>, tag2: Option<Handle>)
    | ClosePrintControl(control: PrintControl)

  predicate IsAddPage(c: PrintCall) { c.AddPage? }
  predicate IsCreatePrintControl(c: PrintCall) { c.CreatePrintControl? }
  predicate IsClosePrintControl(c: PrintCall) { c.ClosePrintControl? }

  /** The AddPage calls of a call log, in order. */
  function AddedPages(calls: seq<PrintCall>): seq<PrintCall>
  {
    Filter(calls, IsAddPage)
  }

  /** The CreatePrintControl calls of a call log, in order. */
  function CreatedControls(calls: seq<PrintCall>): seq<PrintCall>
  {
    Filter(calls, IsCreatePrintControl)
  }

  function ControlsCreated(calls: seq<PrintCall>): nat
  {
    |CreatedControls(calls)|
  }

  /** In a log that creates one print control, the creating call found at
      any index is that one. */
  lemma CreatedControlAt(calls: seq<PrintCall>, k: nat)
    requires ControlsCreated(calls) == 1
    requires k < |calls| && calls[k].CreatePrintControl?
    ensures CreatedControls(calls) == [calls[k]]
  {
    FilterMembers(calls, IsCreatePrintControl);
    assert calls[k] in CreatedControls(calls);
  }

  function ControlsClosed(calls: seq<PrintCall>): nat
  {
    |Filter(calls, IsClosePrintControl)|
  }

  /** The AddPage call for page `page`: its own command list, the size
      GetPageDescription reports for it, no print ticket and no tags. */
  function PageAdded(options: PrintTaskOptions, page: nat): PrintCall
  {
    AddPage(CommandList(page), options.pageDescription(page).pageSize, None, None, None)
  }

  /** The AddPage calls for pages 1 to n, in order. */
  function PagesUpTo(options: PrintTaskOptions, n: nat): seq<PrintCall>
  {
    if n == 0 then [] else PagesUpTo(options, n - 1) + [PageAdded(options, n)]
  }

  /** The k-th page added is page k, with page k's size, with no gaps. */
  lemma {:induction false} PagesUpToAt(options: PrintTaskOptions, n: nat, k: nat)
    requires 1 <= k <= n
    ensures |PagesUpTo(options, n)| == n
    ensures PagesUpTo(options, n)[k - 1] == AddPage(CommandList(k), options.pageDescription(k).pageSize, None, None, None)
  {
    PagesUpToLength(options, n - 1);
    if k < n {
      PagesUpToAt(options, n - 1, k);
    }
  }

  lemma {:induction false} PagesUpToLength(options: PrintTaskOptions, n: nat)
    ensures |PagesUpTo(options, n)| == n
  {
    if n > 0 {
      PagesUpToLength(options, n - 1);
    }
  }

  predicate IsCommandListCall(c: PrintCall) { c.CreateCommandList? || c.CloseCommandList? }

  /** The calls on command lists in a call log, in order. */
  function CommandListCalls(calls: seq<PrintCall>): seq<PrintCall>
  {
    Filter(calls, IsCommandListCall)
  }

  /** What one drawing session for page `page` does, from opening to close:
      its command list is created, closed and added as that page. */
  function SessionCalls(options: PrintTaskOptions, page: nat): seq<PrintCall>
  {
    [CreateCommandList(CommandList(page)), CloseCommandList(CommandList(page)), PageAdded(options, page)]
  }

  /** The calls of `count` drawing sessions, one after the other, for pages
      `first` .. `first + count - 1`. */
  function SessionsFrom(options: PrintTaskOptions, first: nat, count: nat): seq<PrintCall>
  {
    if count == 0 then [] else SessionsFrom(options, first, count - 1) + SessionCalls(options, first + count - 1)
  }

  /** Command lists 1 .. n, each created and then closed, in page order. */
  function ListsUpTo(n: nat): seq<PrintCall>
  {
    if n == 0 then [] else ListsUpTo(n - 1) + [CreateCommandList(CommandList(n)), CloseCommandList(CommandList(n))]
  }

  /** The list for page k is created at position 2k - 2 and closed right after
      it, so each of the n lists is created once and closed once. */
  lemma {:induction false} ListsUpToAt(n: nat, k: nat)
    requires 1 <= k <= n
    ensures |ListsUpTo(n)| == 2 * n
    ensures ListsUpTo(n)[2 * k - 2] == CreateCommandList(CommandList(k))
    ensures ListsUpTo(n)[2 * k - 1] == CloseCommandList(CommandList(k))
  {
    ListsUpToLength(n - 1);
    if k < n {
      ListsUpToAt(n - 1, k);
    }
  }

  lemma {:induction false} ListsUpToLength(n: nat)
    ensures |ListsUpTo(n)| == 2 * n
  {
    if n > 0 {
      ListsUpToLength(n - 1);
    }
  }

  /** Sessions for consecutive pages, run one batch after another, are one batch. */
  lemma {:induction false} SessionsFromAppend(options: PrintTaskOptions, first: nat, a: nat, b: nat)
    ensures SessionsFrom(options, first, a) + SessionsFrom(options, first + a, b) == SessionsFrom(options, first, a + b)
  {
    if b == 0 {
      assert SessionsFrom(options, first, a) + [] == SessionsFrom(options, first, a);
    } else {
      SessionsFromAppend(options, first, a, b - 1);
      assert SessionsFrom(options, first + a, b)
             == SessionsFrom(options, first + a, b - 1) + SessionCalls(options, first + a + b - 1);
    }
  }

  /** The calls of one session, sorted by kind. */
  lemma SessionCallsFilters(options: PrintTaskOptions, page: nat)
    ensures AddedPages(SessionCalls(options, page)) == [PageAdded(options, page)]
    ensures CommandListCalls(SessionCalls(options, page)) == [CreateCommandList(CommandList(page)), CloseCommandList(CommandList(page))]
    ensures ControlsCreated(SessionCalls(options, page)) == 0
    ensures ControlsClosed(SessionCalls(options, page)) == 0
  {
    var create, close, added := CreateCommandList(CommandList(page)), CloseCommandList(CommandList(page)), PageAdded(options, page);
    FilterThree(create, close, added, IsAddPage);
    FilterThree(create, close, added, IsCommandListCall);
    FilterThree(create, close, added, IsCreatePrintControl);
    FilterThree(create, close, added, IsClosePrintControl);
  }

  /** Sessions for pages 1 .. n add exactly those pages, in order, open and
      close exactly their command lists, in order, and neither create nor
      close a print control. */
  lemma {:induction false} SessionsFromFilters(options: PrintTaskOptions, n: nat)
    ensures AddedPages(SessionsFrom(options, 1, n)) == PagesUpTo(options, n)
    ensures CommandListCalls(SessionsFrom(options, 1, n)) == ListsUpTo(n)
    ensures ControlsCreated(SessionsFrom(options, 1, n)) == 0
    ensures ControlsClosed(SessionsFrom(options, 1, n)) == 0
  {
    if n > 0 {
      var front := SessionsFrom(options, 1, n - 1);
      var last := SessionCalls(options, n);
      SessionsFromFilters(options, n - 1);
      SessionCallsFilters(options, n);
      FilterAppend(front, last, IsAddPage);
      FilterAppend(front, last, IsCommandListCall);
      FilterAppend(front, last, IsCreatePrintControl);
      FilterAppend(front, last, IsClosePrintControl);
    }
  }

  /** Appending one call to a log adds it to the counts it belongs to. */
  lemma CountsAppend(calls: seq<PrintCall>, c: PrintCall)
    ensures AddedPages(calls + [c]) == AddedPages(calls) + (if c.AddPage? then [c] else [])
    ensures ControlsCreated(calls + [c]) == ControlsCreated(calls) + (if c.CreatePrintControl? then 1 else 0)
    ensures ControlsClosed(calls + [c]) == ControlsClosed(calls) + (if c.ClosePrintControl? then 1 else 0)
  {
    FilterAppend(calls, [c], IsAddPage);
    FilterAppend(calls, [c], IsCreatePrintControl);
    FilterAppend(calls, [c], IsClosePrintControl);
    assert [c][1..] == [];
  }

  class CanvasPrintEventArgs {
    const device: Handle
    const target: Handle
    const printTaskOptions: PrintTaskOptions
    var dpi: real
    var printControl: Option<PrintControl>
    var currentCommandList: Option<CommandList>
    var currentPage: nat
    /** Every call made on the device, the command lists and the print control, oldest first. */
    var calls: seq<PrintCall>
    /** Where in `calls` the print control was created, once it was. */
    ghost var controlCreatedAt: nat

    /** The object invariant: the print control exists once a session was
        created and was made at the (since frozen) DPI; an open command list
        belongs to the current page; pages 1 .. currentPage - 1 were added,
        in order; the control was created once, by the device, for the
        target, at the DPI. */
    ghost predicate Valid()
      reads this
    {
      && currentPage >= 1
      && (currentCommandList.Some? ==> printControl.Some? && currentCommandList.value == CommandList(currentPage))
      && (printControl.Some? ==> printControl.value == PrintControl(target, dpi))
      && (printControl.None? ==> currentPage == 1)
      && (printControl.Some? && currentCommandList.None? ==> currentPage > 1)
      && ControlsCreated(calls) == (if printControl.Some? then 1 else 0)
      && (printControl.Some? ==> controlCreatedAt < |calls| && calls[controlCreatedAt] == CreatePrintControl(device, target, dpi))
      && AddedPages(calls) == PagesUpTo(printTaskOptions, currentPage - 1)
    }

    constructor (device: Handle, target: Handle, printTaskOptions: PrintTaskOptions, initialDpi: real)
      ensures Valid()
      ensures this.device == device && this.target == target && this.printTaskOptions == printTaskOptions
      ensures dpi == initialDpi && printControl == None && currentCommandList == None
      ensures currentPage == 1 && calls == [] && ControlsClosed(calls) == 0
    {
      this.device := device;
      this.target := target;
      this.printTaskOptions := printTaskOptions;
      dpi := initialDpi;
      printControl := None;
      currentCommandList := None;
      currentPage := 1;
      calls := [];
      controlCreatedAt := 0;
    }

    method GetPrintTaskOptions(hasOutput: bool) returns (hr: HResult, value: PrintTaskOptions?)
      ensures hr == (if hasOutput then Ok else InvalidArg)
      ensures value == (if hasOutput then printTaskOptions else null)
    {
      if !hasOutput {
        return InvalidArg, null;
      }
      return Ok, printTaskOptions;
    }

    method GetDpi(hasOutput: bool) returns (hr: HResult, value: real)
      ensures hr == (if hasOutput then Ok else InvalidArg)
      ensures hr == Ok ==> value == dpi
    {
      if !hasOutput {
        return InvalidArg, 0.0;
      }
      return Ok, dpi;
    }

    /** The deferral itself has no behaviour here; only the null check does. */
    method GetDeferral(hasOutput: bool) returns (hr: HResult)
      ensures hr == Ok <==> hasOutput
      ensures hr != Ok ==> hr == InvalidArg
    {
      hr := if hasOutput then Ok else InvalidArg;
    }

    /** A positive DPI is stored until the first drawing session freezes it. */
    method PutDpi(value: real) returns (hr: HResult)
      requires Valid()
      modifies this`dpi
      ensures Valid()
      ensures hr == (if value <= 0.0 then InvalidArg else if printControl.Some? then Fail else Ok)
      ensures dpi == (if hr == Ok then value else old(dpi))
    {
      if value <= 0.0 {
        return InvalidArg;
      }
      if printControl.Some? {
        return Fail;
      }
      dpi := value;
      return Ok;
    }

    /** Opens the session for page `currentPage`, creating the print control
        the first time; fails while the previous session is open. */
    method CreateDrawingSession(hasOutput: bool) returns (hr: HResult, session: Option<DrawingSession>)
      requires Valid()
      modifies this`printControl, this`currentCommandList, this`calls, this`controlCreatedAt
      ensures Valid()
      ensures hr == (if !hasOutput then InvalidArg else if old(currentCommandList).Some? then Fail else Ok)
      ensures hr != Ok ==> session == None && unchanged(this)
      ensures hr == Ok ==>
        && session == Some(DrawingSession(CommandList(currentPage), dpi))
        && currentCommandList == Some(CommandList(currentPage))
        && printControl == Some(PrintControl(target, dpi))
        && (old(printControl).Some? ==> printControl == old(printControl))
        && calls == old(calls)
                    + (if old(printControl).None? then [CreatePrintControl(device, target, dpi)] else [])
                    + [CreateCommandList(CommandList(currentPage))]
      ensures ControlsClosed(calls) == old(ControlsClosed(calls))
    {
      if !hasOutput {
        return InvalidArg, None;
      }
      if currentCommandList.Some? {
        return Fail, None;
      }
      if printControl.None? {
        CountsAppend(calls, CreatePrintControl(device, target, dpi));
        printControl := Some(PrintControl(target, dpi));
        controlCreatedAt := |calls|;
        calls := calls + [CreatePrintControl(device, target, dpi)];
      }
      var list := CommandList(currentPage);
      CountsAppend(calls, CreateCommandList(list));
      calls := calls + [CreateCommandList(list)];
      currentCommandList := Some(list);
      return Ok, Some(DrawingSession(list, dpi));
    }

    /** Called when the open session closes: its command list is closed and
        handed to the print control as the current page. */
    method DrawingSessionClosed()
      requires Valid() && currentCommandList.Some?
      modifies this`currentCommandList, this`currentPage, this`calls
      ensures Valid()
      ensures currentCommandList == None && currentPage == old(currentPage) + 1
      ensures calls == old(calls) + [CloseCommandList(CommandList(old(currentPage))), PageAdded(printTaskOptions, old(currentPage))]
      ensures ControlsClosed(calls) == old(ControlsClosed(calls))
    {
      var list := currentCommandList.value;
      var page := PageAdded(printTaskOptions, currentPage);
      CountsAppend(calls, CloseCommandList(list));
      CountsAppend(calls + [CloseCommandList(list)], page);
      assert calls + [CloseCommandList(list)] + [page] == calls + [CloseCommandList(list), page];
      calls := calls + [CloseCommandList(list), page];
      currentCommandList := None;
      currentPage := currentPage + 1;
    }

    /** Run once the Print handlers have returned: closes the print control, if one was created. */
    method EndPrinting()
      requires Valid()
      modifies this`calls
      ensures Valid()
      ensures calls == old(calls) + (if printControl.Some? then [ClosePrintControl(printControl.value)] else [])
      ensures ControlsClosed(calls) == old(ControlsClosed(calls)) + (if printControl.Some? then 1 else 0)
    {
      if printControl.Some? {
        CountsAppend(calls, ClosePrintControl(printControl.value));
        calls := calls + [ClosePrintControl(printControl.value)];
      }
    }
  }
}
