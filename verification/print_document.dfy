/**
 * The print document: the page source the print pipeline drives. Paginate,
 * MakePage and MakeDocument only queue work on the UI dispatcher; each
 * RunNextAction runs the oldest queued item, which raises
 * PrintTaskOptionsChanged, Preview or Print to the registered handlers and
 * makes the calls on the preview target, the device and the print control.
 */
module PrintDocument {
  import opened Printing
  import opened PageNumbers
  import opened EventRegistry
  import opened PrintEventArgs
  import opened PrintTaskOptionsChanged

  /** What the document asks its environment for: the shared device, whether
      the calling thread has a dispatcher, and the display's logical DPI. */
  datatype Adapter = Adapter(sharedDevice: Handle, hasDispatcher: bool, logicalDpi: real)

  datatype PageCountType = FinalPageCount | IntermediatePageCount

  /** The DXGI preview target that a package target hands out. */
  datatype PreviewTarget = PreviewTarget(packageTarget: Handle)

  datatype PixelFormat = B8G8R8A8UIntNormalized
  datatype AlphaMode = Premultiplied

  /** A render-target bitmap, named by the arguments the device created it with. */
  datatype RenderTarget = RenderTarget(width: real, height: real, dpi: real, format: PixelFormat, alpha: AlphaMode)

  /** Application handlers, described by what they do when invoked: an
      options-changed handler may put a new preview page number, a print
      handler may put a DPI and then draws `pages` pages, one session each. */
  datatype OptionsChangedHandler = OptionsChangedHandler(id: Handle, requestedPage: Option<UInt32>)
  datatype PreviewHandler = PreviewHandler(id: Handle)
  datatype PrintHandler = PrintHandler(id: Handle, requestedDpi: Option<real>, pages: nat)

  datatype EventKind = OptionsChangedEvent | PreviewEvent | PrintEvent

  /** Work queued on the dispatcher. */
  datatype Action =
    | PaginateWork(currentPage: UInt32, options: PrintTaskOptions)
    | MakePageWork(page: UInt32, displayWidth: real, displayHeight: real)
    | MakeDocumentWork(options: PrintTaskOptions, packageTarget: Handle)

  /** What the document does that can be observed: calls on the preview
      target and the device, handler invocations (with what the handler is
      shown), and the calls made by the print event arguments. */
  datatype Call =
    | SetJobPageCount(target: PreviewTarget, kind: PageCountType, count: UInt32)
    | InvalidateTarget(target: PreviewTarget)
    | RaiseOptionsChanged(token: Token, currentPage: UInt32, newPage: UInt32, options: PrintTaskOptions)
    | CreateRenderTarget(bitmap: RenderTarget)
    | RaisePreview(token: Token, page: UInt32, options: PrintTaskOptions, bitmap: RenderTarget)
    | DrawPage(target: PreviewTarget, page: UInt32, bitmap: RenderTarget, dpiX: real, dpiY: real)
    | RaisePrint(token: Token, options: PrintTaskOptions, dpi: real)
    | PrintArgsCall(call: PrintCall)

  /** The event and registration a call invokes, if it invokes a handler. */
  function RaisedBy(c: Call): Option<(EventKind, Token)>
  {
    match c
    case RaiseOptionsChanged(t, _, _, _) => Some((OptionsChangedEvent, t))
    case RaisePreview(t, _, _, _) => Some((PreviewEvent, t))
    case RaisePrint(t, _, _) => Some((PrintEvent, t))
    case _ => None
  }

  /** The token of the `kind` handler `c` invokes, if it invokes one. */
  function TokenRaised(c: Call, kind: EventKind): seq<Token>
  {
    if RaisedBy(c).Some? && RaisedBy(c).value.0 == kind then [RaisedBy(c).value.1] else []
  }

  /** The tokens of the `kind` handlers a call log invokes, in order. */
  function RaisedTokens(calls: seq<Call>, kind: EventKind): seq<Token>
  {
    if calls == [] then []
    else RaisedTokens(calls[..|calls| - 1], kind) + TokenRaised(calls[|calls| - 1], kind)
  }

  lemma {:induction false} RaisedTokensAppend(a: seq<Call>, b: seq<Call>, kind: EventKind)
    ensures RaisedTokens(a + b, kind) == RaisedTokens(a, kind) + RaisedTokens(b, kind)
  {
    if b == [] {
      assert a + b == a;
    } else {
      var front := b[..|b| - 1];
      assert (a + b)[..|a + b| - 1] == a + front;
      assert (a + b)[|a + b| - 1] == b[|b| - 1];
      RaisedTokensAppend(a, front, kind);
    }
  }

  /** The calls of the print event arguments recorded in a call log, in order. */
  function PrintCallsOf(calls: seq<Call>): seq<PrintCall>
  {
    if calls == [] then []
    else
      var last := calls[|calls| - 1];
      PrintCallsOf(calls[..|calls| - 1]) + (if last.PrintArgsCall? then [last.call] else [])
  }

  lemma {:induction false} PrintCallsOfAppend(a: seq<Call>, b: seq<Call>)
    ensures PrintCallsOf(a + b) == PrintCallsOf(a) + PrintCallsOf(b)
  {
    if b == [] {
      assert a + b == a;
    } else {
      var front := b[..|b| - 1];
      assert (a + b)[..|a + b| - 1] == a + front;
      assert (a + b)[|a + b| - 1] == b[|b| - 1];
      PrintCallsOfAppend(a, front);
    }
  }

  /** The print event arguments' calls `s` as entries of the document's log. */
  function WrapPrintCalls(s: seq<PrintCall>): (r: seq<Call>)
    ensures |r| == |s|
  {
    if s == [] then [] else WrapPrintCalls(s[..|s| - 1]) + [PrintArgsCall(s[|s| - 1])]
  }

  /** Recording the print arguments' calls and reading them back is the identity;
      none of them invokes a handler. */
  lemma {:induction false} WrapPrintCallsRoundTrip(s: seq<PrintCall>)
    ensures PrintCallsOf(WrapPrintCalls(s)) == s
    ensures forall kind :: RaisedTokens(WrapPrintCalls(s), kind) == []
  {
    if s != [] {
      var w := WrapPrintCalls(s);
      var n := |s| - 1;
      assert w[..n] == WrapPrintCalls(s[..n]);
      assert w[n] == PrintArgsCall(s[n]);
      WrapPrintCallsRoundTrip(s[..n]);
      assert s[..n] + [s[n]] == s;
    }
  }

  /** Wrapping two runs of print calls wraps each in turn. */
  lemma {:induction false} WrapPrintCallsAppend(a: seq<PrintCall>, b: seq<PrintCall>)
    ensures WrapPrintCalls(a + b) == WrapPrintCalls(a) + WrapPrintCalls(b)
  {
    if b == [] {
      assert a + b == a;
    } else {
      var front := b[..|b| - 1];
      assert (a + b)[..|a + b| - 1] == a + front;
      assert (a + b)[|a + b| - 1] == b[|b| - 1];
      WrapPrintCallsAppend(a, front);
    }
  }

  // ---------------------------------------------------------------------
  // A pagination round

  /** The new preview page number once the handlers `regs` have run, in
      order, starting from `start`. */
  function CommittedPage(regs: seq<Registration<OptionsChangedHandler>>, start: UInt32): (r: UInt32)
    ensures IsValidNewPreviewPage(start) ==> IsValidNewPreviewPage(r)
  {
    if regs == [] then start
    else
      var before := CommittedPage(regs[..|regs| - 1], start);
      match regs[|regs| - 1].handler.requestedPage
      case Some(p) => PageAfterRequest(before, p)
      case None => before
  }

  /** Handlers that request nothing leave the page where it started. */
  lemma {:induction false} CommittedPageUnrequested(regs: seq<Registration<OptionsChangedHandler>>, start: UInt32)
    requires forall i :: 0 <= i < |regs| ==> regs[i].handler.requestedPage.None?
    ensures CommittedPage(regs, start) == start
  {
    if regs != [] {
      CommittedPageUnrequested(regs[..|regs| - 1], start);
    }
  }

  /** Running one more handler: its request, if any, is validated against
      the page the handlers before it left. */
  lemma CommittedPageStep(regs: seq<Registration<OptionsChangedHandler>>, i: nat, start: UInt32)
    requires i < |regs|
    ensures CommittedPage(regs[..i + 1], start) ==
      (if regs[i].handler.requestedPage.Some?
       then PageAfterRequest(CommittedPage(regs[..i], start), regs[i].handler.requestedPage.value)
       else CommittedPage(regs[..i], start))
  {
    assert regs[..i + 1][..i] == regs[..i];
  }

  /** The invocations of PrintTaskOptionsChanged in a round: one per
      registration, in order, each shown the page the previous handlers left. */
  function OptionsChangedRaises(regs: seq<Registration<OptionsChangedHandler>>, current: UInt32,
                                options: PrintTaskOptions, start: UInt32): (r: seq<Call>)
    ensures |r| == |regs|
    ensures forall i :: 0 <= i < |regs| ==> RaisedBy(r[i]) == Some((OptionsChangedEvent, regs[i].token))
  {
    seq(|regs|, i requires 0 <= i < |regs| =>
      RaiseOptionsChanged(regs[i].token, current, CommittedPage(regs[..i], start), options))
  }

  /** The first handler of a round sees the default new preview page number,
      and every handler sees the round's current page and options. */
  lemma RaisesCarryRound(regs: seq<Registration<OptionsChangedHandler>>, current: UInt32,
                         options: PrintTaskOptions, start: UInt32)
    ensures forall c :: c in OptionsChangedRaises(regs, current, options, start) ==>
      c.RaiseOptionsChanged? && c.currentPage == current && c.options == options
    ensures regs != [] ==> OptionsChangedRaises(regs, current, options, start)[0].newPage == start
  {
    assert regs[..0] == [];
  }

  /** A log whose i-th call invokes the `raised` registration `tokens[i]`
      invokes exactly those, in that order, and nothing of another event. */
  lemma {:induction false} RaisedTokensOfRaises(r: seq<Call>, raised: EventKind, tokens: seq<Token>, kind: EventKind)
    requires |r| == |tokens|
    requires forall i :: 0 <= i < |r| ==> RaisedBy(r[i]) == Some((raised, tokens[i]))
    ensures RaisedTokens(r, kind) == (if kind == raised then tokens else [])
  {
    if r != [] {
      var n := |r| - 1;
      assert RaisedTokens(r, kind) == RaisedTokens(r[..n], kind) + TokenRaised(r[n], kind);
      assert RaisedBy(r[n]) == Some((raised, tokens[n]));
      RaisedTokensOfRaises(r[..n], raised, tokens[..n], kind);
      if kind == raised {
        assert tokens[..n] + [tokens[n]] == tokens;
      }
    }
  }

  /** A round invokes exactly the registered handlers, in registration order. */
  lemma OptionsChangedRaisesTokens(regs: seq<Registration<OptionsChangedHandler>>, current: UInt32,
                                   options: PrintTaskOptions, start: UInt32, kind: EventKind)
    ensures RaisedTokens(OptionsChangedRaises(regs, current, options, start), kind)
            == (if kind == OptionsChangedEvent then Tokens(regs) else [])
  {
    RaisedTokensOfRaises(OptionsChangedRaises(regs, current, options, start), OptionsChangedEvent, Tokens(regs), kind);
  }

  /** The invocations of Preview for one page: one per registration, in order. */
  function PreviewRaises(regs: seq<Registration<PreviewHandler>>, page: UInt32,
                         options: PrintTaskOptions, bitmap: RenderTarget): (r: seq<Call>)
    ensures |r| == |regs|
    ensures forall i :: 0 <= i < |regs| ==> r[i] == RaisePreview(regs[i].token, page, options, bitmap)
  {
    seq(|regs|, i requires 0 <= i < |regs| => RaisePreview(regs[i].token, page, options, bitmap))
  }

  lemma PreviewRaisesTokens(regs: seq<Registration<PreviewHandler>>, page: UInt32,
                            options: PrintTaskOptions, bitmap: RenderTarget, kind: EventKind)
    ensures RaisedTokens(PreviewRaises(regs, page, options, bitmap), kind)
            == (if kind == PreviewEvent then Tokens(regs) else [])
  {
    RaisedTokensOfRaises(PreviewRaises(regs, page, options, bitmap), PreviewEvent, Tokens(regs), kind);
  }

  /** A token removed from a registry is carried by none of the invocations
      of a later round or page. */
  lemma RemovedTokenNotRaised(optionsRegs: seq<Registration<OptionsChangedHandler>>,
                              previewRegs: seq<Registration<PreviewHandler>>, token: Token,
                              current: UInt32, options: PrintTaskOptions, start: UInt32, bitmap: RenderTarget)
    ensures token !in RaisedTokens(OptionsChangedRaises(Unregister(optionsRegs, token), current, options, start), OptionsChangedEvent)
    ensures token !in RaisedTokens(PreviewRaises(Unregister(previewRegs, token), current, options, bitmap), PreviewEvent)
  {
    OptionsChangedRaisesTokens(Unregister(optionsRegs, token), current, options, start, OptionsChangedEvent);
    PreviewRaisesTokens(Unregister(previewRegs, token), current, options, bitmap, PreviewEvent);
  }

  /** The render target MakePage creates for `page`: the page's own size, at
      the DPI that makes it as many pixels wide as the display area, in the
      premultiplied B8G8R8A8 format. */
  function PreviewBitmap(options: PrintTaskOptions, page: UInt32, logicalDpi: real, displayWidth: real): (b: RenderTarget)
    ensures b.width == options.pageDescription(page).pageSize.width
    ensures b.height == options.pageDescription(page).pageSize.height
    ensures Pixels(b.width, b.dpi) == Pixels(displayWidth, logicalDpi)
    ensures b.format == B8G8R8A8UIntNormalized && b.alpha == Premultiplied
  {
    var size := options.pageDescription(page).pageSize;
    PreviewPixelsMatchDisplay(logicalDpi, displayWidth, size.width);
    RenderTarget(size.width, size.height, PreviewDpi(logicalDpi, displayWidth, size.width),
                 B8G8R8A8UIntNormalized, Premultiplied)
  }

  // ---------------------------------------------------------------------
  // A print round

  /** The pages the print handlers `regs` draw between them. */
  function TotalPages(regs: seq<Registration<PrintHandler>>): nat
  {
    PagesDrawnBy(regs, |regs|)
  }

  /** The pages the first `i` print handlers of `regs` draw between them. */
  function PagesDrawnBy(regs: seq<Registration<PrintHandler>>, i: nat): nat
    requires i <= |regs|
  {
    if i == 0 then 0 else PagesDrawnBy(regs, i - 1) + regs[i - 1].handler.pages
  }

  /** The DPI print event arguments hold once `handler` has put the DPI it
      requests, if any: a positive value is taken while no print control
      exists, and anything else leaves `dpi` as it was. */
  function DpiAfterPut(handler: PrintHandler, dpi: real, hasControl: bool): real
  {
    if handler.requestedDpi.Some? && handler.requestedDpi.value > 0.0 && !hasControl
    then handler.requestedDpi.value else dpi
  }

  /** The DPI the print event arguments hold once the first `i` handlers of
      `regs` have run, starting from `initial`: the control exists once a
      page has been drawn, and then freezes the DPI. */
  function DpiAfter(regs: seq<Registration<PrintHandler>>, i: nat, initial: real): real
    requires i <= |regs|
  {
    if i == 0 then initial
    else DpiAfterPut(regs[i - 1].handler, DpiAfter(regs, i - 1, initial), PagesDrawnBy(regs, i - 1) > 0)
  }

  /** Once a page has been drawn, no later handler changes the DPI. */
  lemma {:induction false} DpiFrozen(regs: seq<Registration<PrintHandler>>, i: nat, j: nat, initial: real)
    requires i <= j <= |regs| && PagesDrawnBy(regs, i) > 0
    ensures PagesDrawnBy(regs, j) > 0
    ensures DpiAfter(regs, j, initial) == DpiAfter(regs, i, initial)
  {
    if i < j {
      DpiFrozen(regs, i, j - 1, initial);
    }
  }

  /** When no handler that runs before the first page puts a positive DPI,
      the arguments keep the DPI they started with. */
  lemma {:induction false} DpiUnrequested(regs: seq<Registration<PrintHandler>>, j: nat, initial: real)
    requires j <= |regs|
    requires forall i :: 0 <= i < j && PagesDrawnBy(regs, i) == 0 ==>
               regs[i].handler.requestedDpi.None? || regs[i].handler.requestedDpi.value <= 0.0
    ensures DpiAfter(regs, j, initial) == initial
  {
    if j > 0 {
      DpiUnrequested(regs, j - 1, initial);
    }
  }

  /** The calls a handler that draws `k` pages from page `first` on makes
      on the print event arguments: the print control, at `dpi`, if none
      exists and it draws a page, then one session per page. */
  function HandlerCalls(options: PrintTaskOptions, device: Handle, target: Handle, first: nat, k: nat,
                        hasControl: bool, dpi: real): seq<PrintCall>
  {
    (if !hasControl && k > 0 then [CreatePrintControl(device, target, dpi)] else []) + SessionsFrom(options, first, k)
  }

  /** A handler's pages drawn in two batches are drawn in one: the second
      batch finds the control the first one created. */
  lemma HandlerCallsAppend(options: PrintTaskOptions, device: Handle, target: Handle, first: nat, a: nat, b: nat,
                           hasControl: bool, dpi: real)
    ensures HandlerCalls(options, device, target, first, a, hasControl, dpi)
            + HandlerCalls(options, device, target, first + a, b, hasControl || a > 0, dpi)
            == HandlerCalls(options, device, target, first, a + b, hasControl, dpi)
  {
    SessionsFromAppend(options, first, a, b);
    if a == 0 {
      assert SessionsFrom(options, first, 0) == [];
    }
  }

  /** A log that holds a handler's first k pages and then one more holds its first k + 1. */
  lemma HandlerCallsNext(calls: seq<PrintCall>, start: seq<PrintCall>, options: PrintTaskOptions, device: Handle,
                         target: Handle, first: nat, k: nat, hasControl: bool, dpi: real)
    requires calls == start + HandlerCalls(options, device, target, first, k, hasControl, dpi)
                    + HandlerCalls(options, device, target, first + k, 1, hasControl || k > 0, dpi)
    ensures calls == start + HandlerCalls(options, device, target, first, k + 1, hasControl, dpi)
  {
    var done := HandlerCalls(options, device, target, first, k, hasControl, dpi);
    var next := HandlerCalls(options, device, target, first + k, 1, hasControl || k > 0, dpi);
    HandlerCallsAppend(options, device, target, first, k, 1, hasControl, dpi);
    AppendAssoc(start, done, next);
  }

  /** The calls of the print event arguments once the handlers have drawn
      n pages at `dpi`, from fresh arguments. */
  function DrawnCalls(options: PrintTaskOptions, device: Handle, target: Handle, n: nat, dpi: real): seq<PrintCall>
  {
    HandlerCalls(options, device, target, 1, n, false, dpi)
  }

  /** A handler drawing k more pages after m: it creates the print control
      if it draws the first page, at the DPI it leaves. */
  lemma DrawnCallsStep(options: PrintTaskOptions, device: Handle, target: Handle, m: nat, k: nat,
                       dpiBefore: real, dpiAfter: real)
    requires m > 0 ==> dpiAfter == dpiBefore
    ensures DrawnCalls(options, device, target, m, dpiBefore)
            + HandlerCalls(options, device, target, 1 + m, k, m > 0, dpiAfter)
            == DrawnCalls(options, device, target, m + k, dpiAfter)
  {
    HandlerCallsAppend(options, device, target, 1, m, k, false, dpiAfter);
    if m == 0 {
      assert SessionsFrom(options, 1, 0) == [];
    }
  }

  /** Print calls that hold m pages' worth and then a handler's k pages hold n = m + k pages' worth. */
  lemma DrawnCallsNext(calls: seq<PrintCall>, before: seq<PrintCall>, options: PrintTaskOptions, device: Handle,
                       target: Handle, m: nat, k: nat, n: nat, dpiBefore: real, dpiAfter: real)
    requires before == DrawnCalls(options, device, target, m, dpiBefore)
    requires calls == before + HandlerCalls(options, device, target, 1 + m, k, m > 0, dpiAfter)
    requires m > 0 ==> dpiAfter == dpiBefore
    requires n == m + k
    ensures calls == DrawnCalls(options, device, target, n, dpiAfter)
  {
    DrawnCallsStep(options, device, target, m, k, dpiBefore, dpiAfter);
  }

  /** Everything the print event arguments of a round do, in order: nothing
      when no page is drawn; otherwise the device creates the print control
      for the package target at `dpi`, pages 1 .. n are drawn one session
      each, and the control is closed. */
  function RoundPrintCalls(options: PrintTaskOptions, device: Handle, packageTarget: Handle, n: nat, dpi: real): seq<PrintCall>
  {
    DrawnCalls(options, device, packageTarget, n, dpi)
    + (if n > 0 then [ClosePrintControl(PrintControl(packageTarget, dpi))] else [])
  }

  /** A round's print calls add pages 1 .. n in order with their own sizes;
      create and close command lists 1 .. n in order, each once; and, when
      n > 0, create one print control, by the device for the package target
      at the DPI, and close one. */
  lemma RoundPrintCallsFilters(options: PrintTaskOptions, device: Handle, packageTarget: Handle, n: nat, dpi: real)
    ensures AddedPages(RoundPrintCalls(options, device, packageTarget, n, dpi)) == PagesUpTo(options, n)
    ensures CommandListCalls(RoundPrintCalls(options, device, packageTarget, n, dpi)) == ListsUpTo(n)
    ensures CreatedControls(RoundPrintCalls(options, device, packageTarget, n, dpi))
            == (if n > 0 then [CreatePrintControl(device, packageTarget, dpi)] else [])
    ensures ControlsClosed(RoundPrintCalls(options, device, packageTarget, n, dpi)) == (if n > 0 then 1 else 0)
  {
    RoundPagesAdded(options, device, packageTarget, n, dpi);
    RoundCommandLists(options, device, packageTarget, n, dpi);
    RoundControls(options, device, packageTarget, n, dpi);
  }

  lemma RoundPagesAdded(options: PrintTaskOptions, device: Handle, packageTarget: Handle, n: nat, dpi: real)
    ensures AddedPages(RoundPrintCalls(options, device, packageTarget, n, dpi)) == PagesUpTo(options, n)
  {
    SessionsFromFilters(options, n);
    if n == 0 {
      assert RoundPrintCalls(options, device, packageTarget, n, dpi) == [];
    } else {
      RoundFilter(options, device, packageTarget, n, dpi, IsAddPage);
    }
  }

  lemma RoundCommandLists(options: PrintTaskOptions, device: Handle, packageTarget: Handle, n: nat, dpi: real)
    ensures CommandListCalls(RoundPrintCalls(options, device, packageTarget, n, dpi)) == ListsUpTo(n)
  {
    SessionsFromFilters(options, n);
    if n == 0 {
      assert RoundPrintCalls(options, device, packageTarget, n, dpi) == [];
    } else {
      RoundFilter(options, device, packageTarget, n, dpi, IsCommandListCall);
    }
  }

  lemma RoundControls(options: PrintTaskOptions, device: Handle, packageTarget: Handle, n: nat, dpi: real)
    ensures CreatedControls(RoundPrintCalls(options, device, packageTarget, n, dpi))
            == (if n > 0 then [CreatePrintControl(device, packageTarget, dpi)] else [])
    ensures ControlsClosed(RoundPrintCalls(options, device, packageTarget, n, dpi)) == (if n > 0 then 1 else 0)
  {
    SessionsFromFilters(options, n);
    if n == 0 {
      assert RoundPrintCalls(options, device, packageTarget, n, dpi) == [];
    } else {
      RoundFilter(options, device, packageTarget, n, dpi, IsCreatePrintControl);
      RoundFilter(options, device, packageTarget, n, dpi, IsClosePrintControl);
      assert Filter(SessionsFrom(options, 1, n), IsCreatePrintControl) == [];
      assert Filter(SessionsFrom(options, 1, n), IsClosePrintControl) == [];
    }
  }

  /** The print calls of a round that draws pages, filtered: the control's
      creation, then the sessions, then its close. */
  lemma RoundFilter(options: PrintTaskOptions, device: Handle, packageTarget: Handle, n: nat, dpi: real,
                    p: PrintCall -> bool)
    requires n > 0
    ensures Filter(RoundPrintCalls(options, device, packageTarget, n, dpi), p)
            == (if p(CreatePrintControl(device, packageTarget, dpi)) then [CreatePrintControl(device, packageTarget, dpi)] else [])
               + Filter(SessionsFrom(options, 1, n), p)
               + (if p(ClosePrintControl(PrintControl(packageTarget, dpi))) then [ClosePrintControl(PrintControl(packageTarget, dpi))] else [])
  {
    var create: seq<PrintCall> := [CreatePrintControl(device, packageTarget, dpi)];
    var close: seq<PrintCall> := [ClosePrintControl(PrintControl(packageTarget, dpi))];
    assert RoundPrintCalls(options, device, packageTarget, n, dpi) == create + SessionsFrom(options, 1, n) + close;
    FilterParts(create, SessionsFrom(options, 1, n), close, p);
  }

  /** What Print raised to registration `j` of `regs` adds to the log when
      the arguments started at the DPI `initial`: the invocation, shown the
      DPI the handlers before it left, then the calls its handler makes,
      from the page after theirs, with the control at the DPI it leaves
      if it draws the first page. */
  function PrintInvocation(options: PrintTaskOptions, device: Handle, target: Handle,
                           regs: seq<Registration<PrintHandler>>, j: nat, initial: real): seq<Call>
    requires j < |regs|
  {
    [RaisePrint(regs[j].token, options, DpiAfter(regs, j, initial))]
    + WrapPrintCalls(HandlerCalls(options, device, target, 1 + PagesDrawnBy(regs, j), regs[j].handler.pages,
                                  PagesDrawnBy(regs, j) > 0, DpiAfter(regs, j + 1, initial)))
  }

  /** The log of Print raised to the first `i` registrations of `regs`, in order. */
  function PrintInvocations(options: PrintTaskOptions, device: Handle, target: Handle,
                            regs: seq<Registration<PrintHandler>>, i: nat, initial: real): seq<Call>
    requires i <= |regs|
  {
    if i == 0 then []
    else PrintInvocations(options, device, target, regs, i - 1, initial)
         + PrintInvocation(options, device, target, regs, i - 1, initial)
  }

  /** The log of the first `j` invocations starts the log of the first `i`. */
  lemma {:induction false} PrintInvocationsPrefix(options: PrintTaskOptions, device: Handle, target: Handle,
                                                  regs: seq<Registration<PrintHandler>>, j: nat, i: nat, initial: real)
    requires j <= i <= |regs|
    ensures |PrintInvocations(options, device, target, regs, j, initial)|
            <= |PrintInvocations(options, device, target, regs, i, initial)|
    ensures PrintInvocations(options, device, target, regs, i, initial)
              [..|PrintInvocations(options, device, target, regs, j, initial)|]
            == PrintInvocations(options, device, target, regs, j, initial)
  {
    if j < i {
      var front := PrintInvocations(options, device, target, regs, i - 1, initial);
      var short := PrintInvocations(options, device, target, regs, j, initial);
      PrintInvocationsPrefix(options, device, target, regs, j, i - 1, initial);
      assert (front + PrintInvocation(options, device, target, regs, i - 1, initial))[..|short|] == front[..|short|];
    }
  }

  /** Every entry of `log` is a Print invocation or a call of the print event arguments. */
  ghost predicate PrintCallsOnly(log: seq<Call>)
  {
    forall j :: 0 <= j < |log| ==> log[j].RaisePrint? || log[j].PrintArgsCall?
  }

  /** The calls a print round adds to the log: each registration's Print
      invocation followed by the calls its handler makes, in registration
      order, the print event arguments having started at page 1's DPI;
      then the control's close if a page was drawn. */
  ghost predicate PrintRoundLog(added: seq<Call>, options: PrintTaskOptions, device: Handle,
                                packageTarget: Handle, regs: seq<Registration<PrintHandler>>)
  {
    var initial := options.pageDescription(1).dpiX as real;
    var dpi := DpiAfter(regs, |regs|, initial);
    added == PrintInvocations(options, device, packageTarget, regs, |regs|, initial)
             + WrapPrintCalls(if TotalPages(regs) > 0 then [ClosePrintControl(PrintControl(packageTarget, dpi))] else [])
  }

  /** A print round's log holds nothing but Print invocations and the print
      event arguments' calls; Print is raised to each registration in order,
      the first shown page 1's DPI, and to no other event; and the print
      event arguments make exactly the round's print calls at the DPI the
      handlers leave, the control's close being the last entry. */
  lemma PrintRoundLogFacts(log: seq<Call>, options: PrintTaskOptions, device: Handle, packageTarget: Handle,
                           regs: seq<Registration<PrintHandler>>)
    requires PrintRoundLog(log, options, device, packageTarget, regs)
    ensures var initial := options.pageDescription(1).dpiX as real;
            var n := TotalPages(regs);
            var dpi := DpiAfter(regs, |regs|, initial);
            && PrintCallsOnly(log)
            && RaisedTokens(log, PrintEvent) == Tokens(regs)
            && RaisedTokens(log, OptionsChangedEvent) == []
            && RaisedTokens(log, PreviewEvent) == []
            && (regs != [] ==> log != [] && log[0] == RaisePrint(regs[0].token, options, initial))
            && PrintCallsOf(log) == RoundPrintCalls(options, device, packageTarget, n, dpi)
            && (n > 0 ==> log != [] && log[|log| - 1] == PrintArgsCall(ClosePrintControl(PrintControl(packageTarget, dpi))))
  {
    var initial := options.pageDescription(1).dpiX as real;
    var dpi := DpiAfter(regs, |regs|, initial);
    var control := if TotalPages(regs) > 0 then Some(PrintControl(packageTarget, dpi)) else None;
    var closing := if control.Some? then [ClosePrintControl(control.value)] else [];
    PrintInvocationsLog(options, device, packageTarget, regs, |regs|, initial);
    assert regs[..|regs|] == regs;
    PrintRoundCompleted(PrintInvocations(options, device, packageTarget, regs, |regs|, initial), closing, control,
                        options, device, packageTarget, regs);
  }

  /** What a print round's log does with the print event arguments: pages
      1..n are added in order, command lists 1..n are each created and
      closed once, in order, and when a page is drawn, exactly one print
      control is created and closed. The control is at page 1's DPI unless a
      handler puts a positive DPI before the first page is drawn. */
  lemma PrintRoundLogCalls(log: seq<Call>, options: PrintTaskOptions, device: Handle, packageTarget: Handle,
                           regs: seq<Registration<PrintHandler>>)
    requires PrintRoundLog(log, options, device, packageTarget, regs)
    ensures AddedPages(PrintCallsOf(log)) == PagesUpTo(options, TotalPages(regs))
    ensures CommandListCalls(PrintCallsOf(log)) == ListsUpTo(TotalPages(regs))
    ensures CreatedControls(PrintCallsOf(log))
            == (if TotalPages(regs) > 0
                then [CreatePrintControl(device, packageTarget,
                                         DpiAfter(regs, |regs|, options.pageDescription(1).dpiX as real))]
                else [])
    ensures ControlsClosed(PrintCallsOf(log)) == (if TotalPages(regs) > 0 then 1 else 0)
    ensures (forall i :: 0 <= i < |regs| && PagesDrawnBy(regs, i) == 0 ==>
               regs[i].handler.requestedDpi.None? || regs[i].handler.requestedDpi.value <= 0.0)
            ==> DpiAfter(regs, |regs|, options.pageDescription(1).dpiX as real) == options.pageDescription(1).dpiX as real
  {
    var initial := options.pageDescription(1).dpiX as real;
    PrintRoundLogFacts(log, options, device, packageTarget, regs);
    RoundPrintCallsFilters(options, device, packageTarget, TotalPages(regs), DpiAfter(regs, |regs|, initial));
    if forall i :: 0 <= i < |regs| && PagesDrawnBy(regs, i) == 0 ==>
         regs[i].handler.requestedDpi.None? || regs[i].handler.requestedDpi.value <= 0.0 {
      DpiUnrequested(regs, |regs|, initial);
    }
  }

  /** With one Print handler, a round's log is its invocation at page 1's
      DPI, then everything the print event arguments do: the control at
      the DPI the handler leaves, its pages one session each, the close. */
  lemma PrintRoundOneHandler(log: seq<Call>, options: PrintTaskOptions, device: Handle, packageTarget: Handle,
                             regs: seq<Registration<PrintHandler>>)
    requires PrintRoundLog(log, options, device, packageTarget, regs) && |regs| == 1
    ensures log == [RaisePrint(regs[0].token, options, options.pageDescription(1).dpiX as real)]
                   + WrapPrintCalls(RoundPrintCalls(options, device, packageTarget, regs[0].handler.pages,
                                                    DpiAfter(regs, 1, options.pageDescription(1).dpiX as real)))
  {
    var initial := options.pageDescription(1).dpiX as real;
    var dpi := DpiAfter(regs, 1, initial);
    var n := regs[0].handler.pages;
    var drawn := DrawnCalls(options, device, packageTarget, n, dpi);
    var closing := if n > 0 then [ClosePrintControl(PrintControl(packageTarget, dpi))] else [];
    assert TotalPages(regs) == n;
    assert PrintInvocations(options, device, packageTarget, regs, 1, initial)
           == [RaisePrint(regs[0].token, options, initial)] + WrapPrintCalls(drawn);
    WrapPrintCallsAppend(drawn, closing);
    AppendAssoc([RaisePrint(regs[0].token, options, initial)], WrapPrintCalls(drawn), WrapPrintCalls(closing));
  }

  /** A log that starts with the invocations of all of `regs` holds
      registration `j`'s part where the parts before it end. */
  lemma {:induction false} PrintInvocationAt(log: seq<Call>, options: PrintTaskOptions, device: Handle, target: Handle,
                                             regs: seq<Registration<PrintHandler>>, j: nat, initial: real)
    requires j < |regs|
    requires var all := PrintInvocations(options, device, target, regs, |regs|, initial);
             |all| <= |log| && log[..|all|] == all
    ensures var at := |PrintInvocations(options, device, target, regs, j, initial)|;
            var part := PrintInvocation(options, device, target, regs, j, initial);
            at + |part| <= |log| && log[at..at + |part|] == part
  {
    var all := PrintInvocations(options, device, target, regs, |regs|, initial);
    var front := PrintInvocations(options, device, target, regs, j, initial);
    var part := PrintInvocation(options, device, target, regs, j, initial);
    PrintInvocationsPrefix(options, device, target, regs, j + 1, |regs|, initial);
    assert PrintInvocations(options, device, target, regs, j + 1, initial) == front + part;
    PrefixOfPrefix(log, all, front + part);
    PartAfter(log, front, part);
  }

  /** In a print round's log, registration `j`'s part sits where the parts
      of the registrations before it end: Print raised to it, shown the DPI
      the handlers before it left, then exactly the calls its own handler
      makes, with no other handler's calls in between. */
  lemma {:induction false} PrintRoundInvocationAt(log: seq<Call>, options: PrintTaskOptions, device: Handle,
                                                  packageTarget: Handle, regs: seq<Registration<PrintHandler>>, j: nat)
    requires PrintRoundLog(log, options, device, packageTarget, regs) && j < |regs|
    ensures var initial := options.pageDescription(1).dpiX as real;
            var at := |PrintInvocations(options, device, packageTarget, regs, j, initial)|;
            var part := PrintInvocation(options, device, packageTarget, regs, j, initial);
            at + |part| <= |log| && log[at..at + |part|] == part
  {
    var initial := options.pageDescription(1).dpiX as real;
    var all := PrintInvocations(options, device, packageTarget, regs, |regs|, initial);
    assert |all| <= |log| && log[..|all|] == all by {
      var closing := if TotalPages(regs) > 0
                     then [ClosePrintControl(PrintControl(packageTarget, DpiAfter(regs, |regs|, initial)))] else [];
      assert log == all + WrapPrintCalls(closing);
    }
    PrintInvocationAt(log, options, device, packageTarget, regs, j, initial);
  }

  /** Running MakeDocument work takes the call log `before` to `after`,
      adding exactly one print round. */
  ghost predicate PrintRound(before: seq<Call>, after: seq<Call>, options: PrintTaskOptions, device: Handle,
                             packageTarget: Handle, regs: seq<Registration<PrintHandler>>)
  {
    && |before| <= |after| && after[..|before|] == before
    && PrintRoundLog(after[|before|..], options, device, packageTarget, regs)
  }

  /** One Print handler at work on the print event arguments: it may put a
      DPI, then draws its pages. */
  method RunPrintHandler(args: CanvasPrintEventArgs, handler: PrintHandler)
    requires args.Valid() && args.currentCommandList.None?
    modifies args
    ensures args.Valid() && args.currentCommandList.None?
    ensures args.currentPage == old(args.currentPage) + handler.pages
    ensures args.dpi == DpiAfterPut(handler, old(args.dpi), old(args.printControl).Some?)
    ensures args.calls == old(args.calls) + HandlerCalls(args.printTaskOptions, args.device, args.target,
                                                         old(args.currentPage), handler.pages,
                                                         old(args.printControl).Some?, args.dpi)
  {
    if handler.requestedDpi.Some? {
      var _ := args.PutDpi(handler.requestedDpi.value);
    }
    DrawPages(args, handler.pages);
  }

  /** A handler drawing `pages` pages, closing each session before opening the next. */
  method DrawPages(args: CanvasPrintEventArgs, pages: nat)
    requires args.Valid() && args.currentCommandList.None?
    modifies args
    ensures args.Valid() && args.currentCommandList.None?
    ensures args.currentPage == old(args.currentPage) + pages
    ensures args.dpi == old(args.dpi)
    ensures args.calls == old(args.calls) + HandlerCalls(args.printTaskOptions, args.device, args.target,
                                                         old(args.currentPage), pages, old(args.printControl).Some?, args.dpi)
  {
    ghost var hasControl := args.printControl.Some?;
    ghost var start := args.calls;
    ghost var first := args.currentPage;
    ghost var dpi := args.dpi;
    assert SessionsFrom(args.printTaskOptions, first, 0) == [];
    var drawn := 0;
    while drawn < pages
      invariant drawn <= pages
      invariant Drawing(args, start, first, drawn, hasControl, dpi)
    {
      DrawOneMore(args, start, first, drawn, hasControl, dpi);
      drawn := drawn + 1;
    }
  }

  /** Print event arguments on which a handler, starting from the log
      `start` at page `first`, has drawn `drawn` pages at `dpi`. */
  ghost predicate Drawing(args: CanvasPrintEventArgs, start: seq<PrintCall>, first: nat, drawn: nat,
                          hasControl: bool, dpi: real)
    reads args
  {
    && args.Valid() && args.currentCommandList.None?
    && args.currentPage == first + drawn
    && args.dpi == dpi
    && (args.printControl.Some? <==> hasControl || drawn > 0)
    && args.calls == start + HandlerCalls(args.printTaskOptions, args.device, args.target, first, drawn, hasControl, dpi)
  }

  /** One more page drawn. */
  method DrawOneMore(args: CanvasPrintEventArgs, ghost start: seq<PrintCall>, ghost first: nat, ghost drawn: nat,
                     ghost hasControl: bool, ghost dpi: real)
    requires Drawing(args, start, first, drawn, hasControl, dpi)
    modifies args
    ensures Drawing(args, start, first, drawn + 1, hasControl, dpi)
  {
    DrawNextPage(args);
    HandlerCallsNext(args.calls, start, args.printTaskOptions, args.device, args.target, first, drawn, hasControl, dpi);
  }

  /** A handler drawing one page: it opens a drawing session, which creates
      the print control if there is none yet, and closes it. */
  method DrawNextPage(args: CanvasPrintEventArgs)
    requires args.Valid() && args.currentCommandList.None?
    modifies args
    ensures args.Valid() && args.currentCommandList.None?
    ensures args.currentPage == old(args.currentPage) + 1
    ensures args.dpi == old(args.dpi) && args.printControl == Some(PrintControl(args.target, args.dpi))
    ensures args.calls == old(args.calls) + HandlerCalls(args.printTaskOptions, args.device, args.target,
                                                         old(args.currentPage), 1, old(args.printControl).Some?, args.dpi)
  {
    ghost var page := args.currentPage;
    ghost var hasControl := args.printControl.Some?;
    var hr, session := args.CreateDrawingSession(true);
    ghost var started := args.calls;
    args.DrawingSessionClosed();
    DrawnPageCalls(args.printTaskOptions, args.device, args.target, page, hasControl, args.dpi,
                   old(args.calls), started, args.calls);
  }

  /** The calls drawing page `page` appends: the print control, at `dpi`,
      unless one exists, and the command list opened; then the list closed
      and the page added. */
  lemma DrawnPageCalls(options: PrintTaskOptions, device: Handle, target: Handle, page: nat, hasControl: bool,
                       dpi: real, before: seq<PrintCall>, started: seq<PrintCall>, after: seq<PrintCall>)
    requires started == before + (if !hasControl then [CreatePrintControl(device, target, dpi)] else [])
                       + [CreateCommandList(CommandList(page))]
    requires after == started + [CloseCommandList(CommandList(page)), PageAdded(options, page)]
    ensures after == before + HandlerCalls(options, device, target, page, 1, hasControl, dpi)
  {
    assert SessionsFrom(options, page, 1) == [] + SessionCalls(options, page);
  }

  /** A pagination round's handlers at work on one arguments object: each is
      shown the page the handlers before it left, and may put a new one. */
  method RaiseOptionsChangedRound(regs: seq<Registration<OptionsChangedHandler>>, current: UInt32,
                                  options: PrintTaskOptions) returns (log: seq<Call>, newPage: UInt32)
    ensures log == OptionsChangedRaises(regs, current, options, 1)
    ensures newPage == CommittedPage(regs, 1) && IsValidNewPreviewPage(newPage)
  {
    var args := new CanvasPrintTaskOptionsChangedEventArgs(current, options);
    ghost var raises := OptionsChangedRaises(regs, current, options, 1);
    log := [];
    var i := 0;
    while i < |regs|
      invariant 0 <= i <= |regs|
      invariant args.Valid() && args.currentPreviewPageNumber == current && args.printTaskOptions == options
      invariant args.newPreviewPageNumber == CommittedPage(regs[..i], 1)
      invariant log == raises[..i]
    {
      var r := regs[i];
      var raise := RaiseOptionsChanged(r.token, args.currentPreviewPageNumber, args.newPreviewPageNumber, args.printTaskOptions);
      assert raise == raises[i];
      TakeSnoc(raises, i);
      log := log + [raise];
      if r.handler.requestedPage.Some? {
        var _ := args.PutNewPreviewPageNumber(r.handler.requestedPage.value);
      }
      CommittedPageStep(regs, i, 1);
      i := i + 1;
    }
    assert regs[..|regs|] == regs && raises[..|regs|] == raises;
    newPage := args.newPreviewPageNumber;
  }

  /** Appending calls of the print event arguments extends the print calls
      a log records and invokes no handler. */
  lemma AppendPrintCalls(log: seq<Call>, printed: seq<PrintCall>)
    ensures PrintCallsOf(log + WrapPrintCalls(printed)) == PrintCallsOf(log) + printed
    ensures forall kind :: RaisedTokens(log + WrapPrintCalls(printed), kind) == RaisedTokens(log, kind)
  {
    WrapPrintCallsRoundTrip(printed);
    PrintCallsOfAppend(log, WrapPrintCalls(printed));
    forall kind ensures RaisedTokens(log + WrapPrintCalls(printed), kind) == RaisedTokens(log, kind) {
      RaisedTokensAppend(log, WrapPrintCalls(printed), kind);
    }
  }

  /** What one Print invocation adds to the log: its token, then the calls
      its handler made on the print event arguments. */
  lemma PrintStepCalls(raise: Call, printed: seq<PrintCall>)
    requires raise.RaisePrint?
    ensures PrintCallsOf([raise] + WrapPrintCalls(printed)) == printed
    ensures RaisedTokens([raise] + WrapPrintCalls(printed), PrintEvent) == [raise.token]
    ensures RaisedTokens([raise] + WrapPrintCalls(printed), OptionsChangedEvent) == []
    ensures RaisedTokens([raise] + WrapPrintCalls(printed), PreviewEvent) == []
  {
    AppendPrintCalls([raise], printed);
    assert [raise][..0] == [];
    assert PrintCallsOf([raise]) == PrintCallsOf([]);
    assert RaisedBy(raise) == Some((PrintEvent, raise.token));
    assert TokenRaised(raise, PrintEvent) == [raise.token];
    assert RaisedTokens([raise], PrintEvent) == RaisedTokens([], PrintEvent) + TokenRaised(raise, PrintEvent);
    assert RaisedTokens([raise], PrintEvent) == [raise.token];
    assert RaisedTokens([raise] + WrapPrintCalls(printed), PrintEvent) == RaisedTokens([raise], PrintEvent);
    assert RaisedTokens([raise], OptionsChangedEvent) == RaisedTokens([], OptionsChangedEvent) + TokenRaised(raise, OptionsChangedEvent);
    assert RaisedTokens([raise], PreviewEvent) == RaisedTokens([], PreviewEvent) + TokenRaised(raise, PreviewEvent);
  }

  /** Every handler a call log invokes is a `kind` handler registered under one of `tokens`. */
  ghost predicate RaisesOnly(log: seq<Call>, kind: EventKind, tokens: seq<Token>)
  {
    forall j :: 0 <= j < |log| && RaisedBy(log[j]).Some? ==>
      RaisedBy(log[j]).value.0 == kind && RaisedBy(log[j]).value.1 in tokens
  }

  /** A call that invokes a handler puts its token among the log's tokens of that event. */
  lemma {:induction false} RaisedTokensHas(log: seq<Call>, j: nat)
    requires j < |log| && RaisedBy(log[j]).Some?
    ensures RaisedBy(log[j]).value.1 in RaisedTokens(log, RaisedBy(log[j]).value.0)
  {
    var n := |log| - 1;
    if j < n {
      assert log[..n][j] == log[j];
      RaisedTokensHas(log[..n], j);
    }
  }

  /** A log that invokes exactly the `kind` handlers `tokens`, and no other
      event's, invokes only handlers under those tokens. */
  lemma RaisesOnlyOf(log: seq<Call>, kind: EventKind, tokens: seq<Token>)
    requires RaisedTokens(log, kind) == tokens
    requires forall other :: other != kind ==> RaisedTokens(log, other) == []
    ensures RaisesOnly(log, kind, tokens)
  {
    forall j | 0 <= j < |log| && RaisedBy(log[j]).Some?
      ensures RaisedBy(log[j]).value.0 == kind && RaisedBy(log[j]).value.1 in tokens
    {
      RaisedTokensHas(log, j);
    }
  }

  /** Each entry of the wrapped log is the print call at the same position. */
  lemma {:induction false} WrapPrintCallsAt(s: seq<PrintCall>)
    ensures forall j :: 0 <= j < |s| ==> WrapPrintCalls(s)[j] == PrintArgsCall(s[j])
    ensures PrintCallsOnly(WrapPrintCalls(s))
  {
    if s != [] {
      var n := |s| - 1;
      WrapPrintCallsAt(s[..n]);
      assert WrapPrintCalls(s) == WrapPrintCalls(s[..n]) + [PrintArgsCall(s[n])];
      forall j | 0 <= j < |s| ensures WrapPrintCalls(s)[j] == PrintArgsCall(s[j]) {
        if j < n {
          assert WrapPrintCalls(s)[j] == WrapPrintCalls(s[..n])[j];
        }
      }
    }
  }

  lemma PrintCallsOnlyAppend(a: seq<Call>, b: seq<Call>)
    requires PrintCallsOnly(a) && PrintCallsOnly(b)
    ensures PrintCallsOnly(a + b)
  {
    forall j | 0 <= j < |a + b| ensures (a + b)[j].RaisePrint? || (a + b)[j].PrintArgsCall? {
      if j >= |a| {
        assert (a + b)[j] == b[j - |a|];
      }
    }
  }

  /** `log` records Print raised to the first `i` registrations of `regs`,
      the first shown the DPI `initial`, together with the print event
      arguments' calls `drawn`, and nothing else. */
  ghost predicate PrintHandlersLog(log: seq<Call>, drawn: seq<PrintCall>, regs: seq<Registration<PrintHandler>>,
                                   i: nat, options: PrintTaskOptions, initial: real)
    requires i <= |regs|
  {
    && PrintCallsOnly(log)
    && PrintCallsOf(log) == drawn
    && RaisedTokens(log, PrintEvent) == Tokens(regs[..i])
    && RaisedTokens(log, OptionsChangedEvent) == [] && RaisedTokens(log, PreviewEvent) == []
    && (i == 0 ==> log == [])
    && (i > 0 ==> log != [] && log[0] == RaisePrint(regs[0].token, options, initial))
  }

  /** Raising Print to the next registration and recording the calls its handler made. */
  lemma {:induction false} PrintHandlersLogStep(log: seq<Call>, drawn: seq<PrintCall>, printed: seq<PrintCall>,
                                                regs: seq<Registration<PrintHandler>>, i: nat,
                                                options: PrintTaskOptions, initial: real, raise: Call)
    requires i < |regs| && PrintHandlersLog(log, drawn, regs, i, options, initial)
    requires raise.RaisePrint? && raise.token == regs[i].token
    requires i == 0 ==> raise == RaisePrint(regs[0].token, options, initial)
    ensures PrintHandlersLog(log + ([raise] + WrapPrintCalls(printed)), drawn + printed, regs, i + 1, options, initial)
  {
    var step := [raise] + WrapPrintCalls(printed);
    PrintStepCalls(raise, printed);
    WrapPrintCallsAt(printed);
    PrintCallsOnlyAppend([raise], WrapPrintCalls(printed));
    PrintCallsOnlyAppend(log, step);
    PrintCallsOfAppend(log, step);
    RaisedTokensAppend(log, step, PrintEvent);
    RaisedTokensAppend(log, step, OptionsChangedEvent);
    RaisedTokensAppend(log, step, PreviewEvent);
    TokensSnoc(regs, i);
    if i == 0 {
      assert (log + step)[0] == step[0];
    } else {
      assert (log + step)[0] == log[0];
    }
  }

  /** The log of Print raised to the first `i` registrations holds only
      their invocations, in order, the first at `initial`, and the calls
      the handlers make on fresh print event arguments. */
  lemma {:induction false} PrintInvocationsLog(options: PrintTaskOptions, device: Handle, target: Handle,
                                               regs: seq<Registration<PrintHandler>>, i: nat, initial: real)
    requires i <= |regs|
    ensures PrintHandlersLog(PrintInvocations(options, device, target, regs, i, initial),
                             DrawnCalls(options, device, target, PagesDrawnBy(regs, i), DpiAfter(regs, i, initial)),
                             regs, i, options, initial)
  {
    if i == 0 {
      assert regs[..0] == [];
      assert SessionsFrom(options, 1, 0) == [];
    } else {
      var j := i - 1;
      var dpiBefore, dpi := DpiAfter(regs, j, initial), DpiAfter(regs, i, initial);
      var printed := HandlerCalls(options, device, target, 1 + PagesDrawnBy(regs, j), regs[j].handler.pages,
                                  PagesDrawnBy(regs, j) > 0, dpi);
      var raise := RaisePrint(regs[j].token, options, dpiBefore);
      var log := PrintInvocations(options, device, target, regs, j, initial);
      var drawn := DrawnCalls(options, device, target, PagesDrawnBy(regs, j), dpiBefore);
      DrawnCallsNext(drawn + printed, drawn, options, device, target, PagesDrawnBy(regs, j), regs[j].handler.pages,
                     PagesDrawnBy(regs, i), dpiBefore, dpi);
      assert PrintInvocations(options, device, target, regs, i, initial) == log + ([raise] + WrapPrintCalls(printed));
      PrintInvocationsLog(options, device, target, regs, j, initial);
      PrintHandlersLogStep(log, drawn, printed, regs, j, options, initial, raise);
    }
  }

  /** Print raised to one registration: the invocation, shown the DPI the
      arguments have now, then the calls its handler makes on them. */
  method RaisePrintTo(args: CanvasPrintEventArgs, reg: Registration<PrintHandler>) returns (step: seq<Call>)
    requires args.Valid() && args.currentCommandList.None?
    modifies args
    ensures args.Valid() && args.currentCommandList.None?
    ensures args.currentPage == old(args.currentPage) + reg.handler.pages
    ensures args.dpi == DpiAfterPut(reg.handler, old(args.dpi), old(args.printControl).Some?)
    ensures args.calls == old(args.calls) + HandlerCalls(args.printTaskOptions, args.device, args.target,
                                                         old(args.currentPage), reg.handler.pages,
                                                         old(args.printControl).Some?, args.dpi)
    ensures step == [RaisePrint(reg.token, args.printTaskOptions, old(args.dpi))]
                    + WrapPrintCalls(HandlerCalls(args.printTaskOptions, args.device, args.target,
                                                  old(args.currentPage), reg.handler.pages,
                                                  old(args.printControl).Some?, args.dpi))
  {
    var raise := RaisePrint(reg.token, args.printTaskOptions, args.dpi);
    var before := args.calls;
    RunPrintHandler(args, reg.handler);
    step := [raise] + WrapPrintCalls(args.calls[|before|..]);
  }

  /** The page counter `page`, DPI `dpi` and calls `calls` of print event
      arguments for `options`, `device` and `target`, and the log `log`,
      once Print has been raised to the first `i` registrations of `regs`,
      the arguments having started at page 1 with the DPI `initial` and no
      calls. */
  ghost predicate PrintingState(options: PrintTaskOptions, device: Handle, target: Handle,
                                page: nat, dpi: real, calls: seq<PrintCall>,
                                regs: seq<Registration<PrintHandler>>, i: nat, initial: real, log: seq<Call>)
  {
    && i <= |regs|
    && page == 1 + PagesDrawnBy(regs, i)
    && dpi == DpiAfter(regs, i, initial)
    && calls == DrawnCalls(options, device, target, PagesDrawnBy(regs, i), dpi)
    && log == PrintInvocations(options, device, target, regs, i, initial)
  }

  /** Print event arguments, and the log `log`, once Print has been raised
      to the first `i` registrations of `regs`. */
  ghost predicate PrintingAfter(args: CanvasPrintEventArgs, regs: seq<Registration<PrintHandler>>, i: nat,
                                initial: real, log: seq<Call>)
    reads args
  {
    match args.currentCommandList
    case Some(_) => false
    case None =>
      && args.Valid()
      && PrintingState(args.printTaskOptions, args.device, args.target, args.currentPage, args.dpi, args.calls,
                       regs, i, initial, log)
  }

  /** Print raised to registration `i` after the ones before it: the log,
      the page counter, the DPI and the print calls move on by that
      handler's invocation and pages. */
  method RaisePrintNext(args: CanvasPrintEventArgs, regs: seq<Registration<PrintHandler>>, i: nat,
                        log: seq<Call>, ghost initial: real) returns (next: seq<Call>)
    requires i < |regs| && PrintingAfter(args, regs, i, initial, log)
    modifies args
    ensures PrintingAfter(args, regs, i + 1, initial, next)
    ensures next == log + ([RaisePrint(regs[i].token, args.printTaskOptions, old(args.dpi))]
                           + WrapPrintCalls(HandlerCalls(args.printTaskOptions, args.device, args.target,
                                                         old(args.currentPage), regs[i].handler.pages,
                                                         old(args.printControl).Some?, args.dpi)))
    ensures next == log + PrintInvocation(args.printTaskOptions, args.device, args.target, regs, i, initial)
  {
    ghost var pageBefore := args.currentPage;
    ghost var dpiBefore := args.dpi;
    ghost var before := args.calls;
    assert args.printControl.Some? == (PagesDrawnBy(regs, i) > 0);
    var step := RaisePrintTo(args, regs[i]);
    PrintingStateNext(args.printTaskOptions, args.device, args.target, regs, i, initial, log,
                      pageBefore, dpiBefore, before, args.currentPage, args.dpi, args.calls, step);
    next := log + step;
  }

  /** The state Print leaves once raised to registration `i`, given the one
      it found there and the calls that registration's handler made. */
  lemma PrintingStateNext(options: PrintTaskOptions, device: Handle, target: Handle,
                          regs: seq<Registration<PrintHandler>>, i: nat, initial: real, log: seq<Call>,
                          pageBefore: nat, dpiBefore: real, before: seq<PrintCall>,
                          page: nat, dpi: real, calls: seq<PrintCall>, step: seq<Call>)
    requires i < |regs|
    requires PrintingState(options, device, target, pageBefore, dpiBefore, before, regs, i, initial, log)
    requires page == pageBefore + regs[i].handler.pages
    requires dpi == DpiAfterPut(regs[i].handler, dpiBefore, PagesDrawnBy(regs, i) > 0)
    requires calls == before + HandlerCalls(options, device, target, pageBefore, regs[i].handler.pages,
                                            PagesDrawnBy(regs, i) > 0, dpi)
    requires step == [RaisePrint(regs[i].token, options, dpiBefore)]
                     + WrapPrintCalls(HandlerCalls(options, device, target, pageBefore, regs[i].handler.pages,
                                                   PagesDrawnBy(regs, i) > 0, dpi))
    ensures PrintingState(options, device, target, page, dpi, calls, regs, i + 1, initial, log + step)
    ensures step == PrintInvocation(options, device, target, regs, i, initial)
  {
    var printed := HandlerCalls(options, device, target, pageBefore, regs[i].handler.pages,
                                PagesDrawnBy(regs, i) > 0, dpi);
    PrintingCountersNext(options, device, target, regs, i, initial, pageBefore, dpiBefore, before,
                         page, dpi, calls);
    assert step == PrintInvocation(options, device, target, regs, i, initial);
  }

  /** The page counter, DPI and print calls once Print has been raised to
      registration `i`, given the ones it found there. */
  lemma PrintingCountersNext(options: PrintTaskOptions, device: Handle, target: Handle,
                             regs: seq<Registration<PrintHandler>>, i: nat, initial: real,
                             pageBefore: nat, dpiBefore: real, before: seq<PrintCall>,
                             page: nat, dpi: real, calls: seq<PrintCall>)
    requires i < |regs|
    requires pageBefore == 1 + PagesDrawnBy(regs, i)
    requires dpiBefore == DpiAfter(regs, i, initial)
    requires before == DrawnCalls(options, device, target, PagesDrawnBy(regs, i), dpiBefore)
    requires page == pageBefore + regs[i].handler.pages
    requires dpi == DpiAfterPut(regs[i].handler, dpiBefore, PagesDrawnBy(regs, i) > 0)
    requires calls == before + HandlerCalls(options, device, target, pageBefore, regs[i].handler.pages,
                                            PagesDrawnBy(regs, i) > 0, dpi)
    ensures page == 1 + PagesDrawnBy(regs, i + 1)
    ensures dpi == DpiAfter(regs, i + 1, initial)
    ensures calls == DrawnCalls(options, device, target, PagesDrawnBy(regs, i + 1), dpi)
  {
    DrawnCallsNext(calls, before, options, device, target, PagesDrawnBy(regs, i), regs[i].handler.pages,
                   PagesDrawnBy(regs, i + 1), dpiBefore, dpi);
  }

  /** The Print handlers `regs` at work, in order, on fresh print event
      arguments; each invocation is shown the DPI the arguments have then. */
  method RaisePrintHandlers(args: CanvasPrintEventArgs, regs: seq<Registration<PrintHandler>>)
    returns (log: seq<Call>)
    requires args.Valid() && args.currentCommandList.None? && args.currentPage == 1 && args.calls == []
    modifies args
    ensures args.Valid() && args.currentCommandList.None?
    ensures args.currentPage == 1 + TotalPages(regs)
    ensures args.dpi == DpiAfter(regs, |regs|, old(args.dpi))
    ensures args.calls == DrawnCalls(args.printTaskOptions, args.device, args.target, TotalPages(regs), args.dpi)
    ensures PrintCallsOnly(log)
    ensures PrintCallsOf(log) == args.calls
    ensures RaisedTokens(log, PrintEvent) == Tokens(regs)
    ensures RaisedTokens(log, OptionsChangedEvent) == [] && RaisedTokens(log, PreviewEvent) == []
    ensures regs != [] ==> log != [] && log[0] == RaisePrint(regs[0].token, args.printTaskOptions, old(args.dpi))
    ensures log == PrintInvocations(args.printTaskOptions, args.device, args.target, regs, |regs|, old(args.dpi))
  {
    ghost var initial := args.dpi;
    PrintingStarts(args, regs);
    log := RaisePrintEach(args, regs, initial);
    PrintingEnds(args, regs, initial, log);
  }

  /** Print raised to each registration in turn. */
  method RaisePrintEach(args: CanvasPrintEventArgs, regs: seq<Registration<PrintHandler>>, ghost initial: real)
    returns (log: seq<Call>)
    requires PrintingAfter(args, regs, 0, initial, [])
    modifies args
    ensures PrintingAfter(args, regs, |regs|, initial, log)
  {
    log := [];
    for i := 0 to |regs|
      invariant PrintingAfter(args, regs, i, initial, log)
    {
      log := RaisePrintNext(args, regs, i, log, initial);
    }
  }

  /** Fresh print event arguments, before any handler has run. */
  lemma PrintingStarts(args: CanvasPrintEventArgs, regs: seq<Registration<PrintHandler>>)
    requires args.Valid() && args.currentCommandList.None? && args.currentPage == 1 && args.calls == []
    ensures PrintingAfter(args, regs, 0, args.dpi, [])
  {
    assert SessionsFrom(args.printTaskOptions, 1, 0) == [];
    assert regs[..0] == [];
  }

  /** Print event arguments once every handler has run. */
  lemma PrintingEnds(args: CanvasPrintEventArgs, regs: seq<Registration<PrintHandler>>, initial: real, log: seq<Call>)
    requires PrintingAfter(args, regs, |regs|, initial, log)
    ensures args.Valid() && args.currentCommandList.None?
    ensures args.currentPage == 1 + TotalPages(regs)
    ensures args.dpi == DpiAfter(regs, |regs|, initial)
    ensures args.calls == DrawnCalls(args.printTaskOptions, args.device, args.target, TotalPages(regs), args.dpi)
    ensures PrintCallsOnly(log)
    ensures PrintCallsOf(log) == args.calls
    ensures RaisedTokens(log, PrintEvent) == Tokens(regs)
    ensures RaisedTokens(log, OptionsChangedEvent) == [] && RaisedTokens(log, PreviewEvent) == []
    ensures regs != [] ==> log != [] && log[0] == RaisePrint(regs[0].token, args.printTaskOptions, initial)
    ensures log == PrintInvocations(args.printTaskOptions, args.device, args.target, regs, |regs|, initial)
  {
    assert regs[..|regs|] == regs;
    PrintInvocationsLog(args.printTaskOptions, args.device, args.target, regs, |regs|, initial);
  }

  /** The log of the handler invocations followed by the print control's
      closing, given what the invocations record and what the print event
      arguments guarantee about their calls. */
  lemma PrintRoundCompleted(raised: seq<Call>, closing: seq<PrintCall>, control: Option<PrintControl>,
                            options: PrintTaskOptions, device: Handle, packageTarget: Handle,
                            regs: seq<Registration<PrintHandler>>)
    requires PrintCallsOnly(raised)
    requires RaisedTokens(raised, PrintEvent) == Tokens(regs)
    requires RaisedTokens(raised, OptionsChangedEvent) == [] && RaisedTokens(raised, PreviewEvent) == []
    requires regs != [] ==> raised != [] && raised[0] == RaisePrint(regs[0].token, options, options.pageDescription(1).dpiX as real)
    requires PrintCallsOf(raised) == DrawnCalls(options, device, packageTarget, TotalPages(regs),
                                                DpiAfter(regs, |regs|, options.pageDescription(1).dpiX as real))
    requires control.Some? <==> TotalPages(regs) > 0
    requires control.Some? ==> control.value == PrintControl(packageTarget, DpiAfter(regs, |regs|, options.pageDescription(1).dpiX as real))
    requires closing == if control.Some? then [ClosePrintControl(control.value)] else []
    ensures var log := raised + WrapPrintCalls(closing);
            var initial := options.pageDescription(1).dpiX as real;
            var n := TotalPages(regs);
            var dpi := DpiAfter(regs, |regs|, initial);
            && PrintCallsOnly(log)
            && RaisedTokens(log, PrintEvent) == Tokens(regs)
            && RaisedTokens(log, OptionsChangedEvent) == []
            && RaisedTokens(log, PreviewEvent) == []
            && (regs != [] ==> log != [] && log[0] == RaisePrint(regs[0].token, options, initial))
            && PrintCallsOf(log) == RoundPrintCalls(options, device, packageTarget, n, dpi)
            && (n > 0 ==> log != [] && log[|log| - 1] == PrintArgsCall(ClosePrintControl(PrintControl(packageTarget, dpi))))
  {
    var log := raised + WrapPrintCalls(closing);
    AppendPrintCalls(raised, closing);
    WrapPrintCallsAt(closing);
    PrintCallsOnlyAppend(raised, WrapPrintCalls(closing));
    if control.Some? {
      assert log[|log| - 1] == WrapPrintCalls(closing)[0];
    }
    if regs != [] {
      assert log[0] == raised[0];
    }
  }

  /** A print round: new print event arguments at page 1's DPI, Print to
      each handler in order, then EndPrinting. */
  method RaisePrintRound(device: Handle, options: PrintTaskOptions, packageTarget: Handle,
                         regs: seq<Registration<PrintHandler>>) returns (log: seq<Call>)
    ensures PrintRoundLog(log, options, device, packageTarget, regs)
  {
    var args := new CanvasPrintEventArgs(device, packageTarget, options, options.pageDescription(1).dpiX as real);
    var raised := RaisePrintHandlers(args, regs);
    var drawn := args.calls;
    args.EndPrinting();
    var closing := args.calls[|drawn|..];
    assert args.calls == drawn + closing;
    assert closing == if TotalPages(regs) > 0
                      then [ClosePrintControl(PrintControl(packageTarget, args.dpi))] else [];
    log := raised + WrapPrintCalls(closing);
  }

  /** The calls `c` adds to a log invoke none of the registrations in `removed`. */
  ghost predicate RaisesNoneOf(extra: seq<Call>, removed: set<(EventKind, Token)>)
  {
    forall i :: 0 <= i < |extra| ==> RaisedBy(extra[i]).None? || RaisedBy(extra[i]).value !in removed
  }

  /** No registration is invoked after the point in the log at which it was removed. */
  ghost predicate NotRaisedSinceRemoval(calls: seq<Call>, removedAt: map<(EventKind, Token), nat>)
  {
    forall key, i :: key in removedAt && removedAt[key] <= i < |calls| ==> RaisedBy(calls[i]) != Some(key)
  }

  lemma NotRaisedAppend(calls: seq<Call>, extra: seq<Call>, removedAt: map<(EventKind, Token), nat>)
    requires NotRaisedSinceRemoval(calls, removedAt)
    requires RaisesNoneOf(extra, removedAt.Keys)
    ensures NotRaisedSinceRemoval(calls + extra, removedAt)
  {
    forall key, i | key in removedAt && removedAt[key] <= i < |calls + extra|
      ensures RaisedBy((calls + extra)[i]) != Some(key)
    {
      if i >= |calls| {
        assert (calls + extra)[i] == extra[i - |calls|];
      }
    }
  }

  /** Scanning the queue from its head, pagination work comes before any
      MakePage work. */
  predicate PaginationFirst(q: seq<Action>)
  {
    q == [] || q[0].PaginateWork? || (!q[0].MakePageWork? && PaginationFirst(q[1..]))
  }

  predicate HasPagination(q: seq<Action>)
  {
    exists i :: 0 <= i < |q| && q[i].PaginateWork?
  }

  /** Queueing keeps pagination first, provided MakePage work only joins a
      queue that already holds pagination work. */
  lemma {:induction false} PaginationFirstAppend(q: seq<Action>, a: Action)
    requires PaginationFirst(q)
    requires a.MakePageWork? ==> HasPagination(q)
    ensures PaginationFirst(q + [a])
  {
    if q == [] {
      assert q + [a] == [a] && [a][1..] == [];
    } else if !q[0].PaginateWork? {
      assert (q + [a])[1..] == q[1..] + [a];
      if a.MakePageWork? {
        var i :| 0 <= i < |q| && q[i].PaginateWork?;
        assert q[1..][i - 1] == q[i];
      }
      PaginationFirstAppend(q[1..], a);
    }
  }

  class CanvasPrintDocument {
    const adapter: Adapter
    const device: Handle
    var previewTarget: Option<PreviewTarget>
    /** The task options of the last pagination round. */
    var previewOptions: Option<PrintTaskOptions>
    /** The new preview page number committed by the last pagination round. */
    var newPreviewPageNumber: UInt32
    var optionsChangedHandlers: seq<Registration<OptionsChangedHandler>>
    var previewHandlers: seq<Registration<PreviewHandler>>
    var printHandlers: seq<Registration<PrintHandler>>
    var nextToken: Token
    /** The dispatcher's queue, oldest first. */
    var pending: seq<Action>
    /** Every observable call, oldest first. */
    var calls: seq<Call>
    /** For each registration removed, the length of the log when it was removed. */
    ghost var removedAt: map<(EventKind, Token), nat>

    ghost predicate Registered(kind: EventKind, token: Token)
      reads this
    {
      match kind
      case OptionsChangedEvent => token in Tokens(optionsChangedHandlers)
      case PreviewEvent => token in Tokens(previewHandlers)
      case PrintEvent => token in Tokens(printHandlers)
    }

    /** The handlers currently registered (for the events of `calls`), none of them removed. */
    ghost predicate RemovalsHold()
      reads this
    {
      && (forall key :: key in removedAt ==> removedAt[key] <= |calls| && key.1 < nextToken && !Registered(key.0, key.1))
      && NotRaisedSinceRemoval(calls, removedAt)
    }

    ghost predicate Valid()
      reads this
    {
      && IsValidNewPreviewPage(newPreviewPageNumber)
      && TokensBelow(optionsChangedHandlers, nextToken)
      && TokensBelow(previewHandlers, nextToken)
      && TokensBelow(printHandlers, nextToken)
      && (previewTarget.None? ==> forall i :: 0 <= i < |pending| ==> !pending[i].MakePageWork?)
      && (previewOptions.None? ==> PaginationFirst(pending))
      && RemovalsHold()
    }

    /** The state of a document nobody has used yet. */
    ghost predicate Initial()
      reads this
    {
      && previewTarget == None && previewOptions == None && newPreviewPageNumber == 1
      && optionsChangedHandlers == [] && previewHandlers == [] && printHandlers == []
      && pending == [] && calls == []
    }

    constructor (adapter: Adapter, device: Handle)
      ensures Valid() && Initial()
      ensures this.adapter == adapter && this.device == device
    {
      this.adapter := adapter;
      this.device := device;
      previewTarget := None;
      previewOptions := None;
      newPreviewPageNumber := 1;
      optionsChangedHandlers := [];
      previewHandlers := [];
      printHandlers := [];
      nextToken := 0;
      pending := [];
      calls := [];
      removedAt := map[];
    }

    /** Default activation: needs a dispatcher for the current thread and uses the shared device. */
    static method ActivateInstance(adapter: Adapter) returns (hr: HResult, doc: CanvasPrintDocument?)
      ensures hr == (if adapter.hasDispatcher then Ok else WrongThread)
      ensures hr != Ok ==> doc == null
      ensures hr == Ok ==> doc != null && fresh(doc) && doc.Valid() && doc.Initial()
                           && doc.adapter == adapter && doc.device == adapter.sharedDevice
    {
      if !adapter.hasDispatcher {
        return WrongThread, null;
      }
      doc := new CanvasPrintDocument(adapter, adapter.sharedDevice);
      hr := Ok;
    }

    /** Activation with a given device, which must not be null, nor may the output. */
    static method CreateWithDevice(adapter: Adapter, device: Option<Handle>, hasOutput: bool)
      returns (hr: HResult, doc: CanvasPrintDocument?)
      ensures hr == (if device.None? || !hasOutput then InvalidArg
                     else if !adapter.hasDispatcher then WrongThread else Ok)
      ensures hr != Ok ==> doc == null
      ensures hr == Ok ==> doc != null && fresh(doc) && doc.Valid() && doc.Initial()
                           && doc.adapter == adapter && doc.device == device.value
    {
      if device.None? || !hasOutput {
        return InvalidArg, null;
      }
      if !adapter.hasDispatcher {
        return WrongThread, null;
      }
      doc := new CanvasPrintDocument(adapter, device.value);
      hr := Ok;
    }

    method GetDevice(hasOutput: bool) returns (hr: HResult, value: Handle)
      ensures hr == (if hasOutput then Ok else InvalidArg)
      ensures hr == Ok ==> value == device
    {
      if !hasOutput {
        return InvalidArg, 0;
      }
      return Ok, device;
    }

    /** Binds the preview target of `target`; null arguments are refused. */
    method GetPreviewPageCollection(target: Option<Handle>, hasOutput: bool) returns (hr: HResult)
      requires Valid()
      modifies this`previewTarget
      ensures Valid()
      ensures hr == (if target.None? || !hasOutput then InvalidArg else Ok)
      ensures previewTarget == (if hr == Ok then Some(PreviewTarget(target.value)) else old(previewTarget))
    {
      if target.None? || !hasOutput {
        return InvalidArg;
      }
      previewTarget := Some(PreviewTarget(target.value));
      return Ok;
    }

    /** Forwarded at once to the preview target; a successful no-op before there is one. */
    method InvalidatePreview() returns (hr: HResult)
      requires Valid()
      modifies this`calls
      ensures Valid()
      ensures hr == Ok
      ensures calls == old(calls) + (if previewTarget.Some? then [InvalidateTarget(previewTarget.value)] else [])
    {
      if previewTarget.Some? {
        NotRaisedAppend(calls, [InvalidateTarget(previewTarget.value)], removedAt);
        calls := calls + [InvalidateTarget(previewTarget.value)];
      }
      return Ok;
    }

    /** SetPageCount and SetIntermediatePageCount: forwarded at once to the
        preview target; an ordering error before there is one. */
    method SetPageCountOfKind(kind: PageCountType, count: UInt32) returns (hr: HResult)
      requires Valid()
      modifies this`calls
      ensures Valid()
      ensures hr == (if previewTarget.Some? then Ok else Fail)
      ensures calls == old(calls) + (if previewTarget.Some? then [SetJobPageCount(previewTarget.value, kind, count)] else [])
    {
      if previewTarget.None? {
        return Fail;
      }
      NotRaisedAppend(calls, [SetJobPageCount(previewTarget.value, kind, count)], removedAt);
      calls := calls + [SetJobPageCount(previewTarget.value, kind, count)];
      return Ok;
    }

    method SetPageCount(count: UInt32) returns (hr: HResult)
      requires Valid()
      modifies this`calls
      ensures Valid()
      ensures hr == (if previewTarget.Some? then Ok else Fail)
      ensures calls == old(calls) + (if previewTarget.Some? then [SetJobPageCount(previewTarget.value, FinalPageCount, count)] else [])
    {
      hr := SetPageCountOfKind(FinalPageCount, count);
    }

    method SetIntermediatePageCount(count: UInt32) returns (hr: HResult)
      requires Valid()
      modifies this`calls
      ensures Valid()
      ensures hr == (if previewTarget.Some? then Ok else Fail)
      ensures calls == old(calls) + (if previewTarget.Some? then [SetJobPageCount(previewTarget.value, IntermediatePageCount, count)] else [])
    {
      hr := SetPageCountOfKind(IntermediatePageCount, count);
    }

    /** Only queues a pagination round; no handler runs during the call. */
    method Paginate(currentPage: UInt32, options: PrintTaskOptions) returns (hr: HResult)
      requires Valid() && previewTarget.Some?
      modifies this`pending
      ensures Valid()
      ensures hr == Ok
      ensures pending == old(pending) + [PaginateWork(NormalizeCurrentPage(currentPage), options)]
    {
      if previewOptions.None? {
        PaginationFirstAppend(pending, PaginateWork(NormalizeCurrentPage(currentPage), options));
      }
      pending := pending + [PaginateWork(NormalizeCurrentPage(currentPage), options)];
      return Ok;
    }

    /** A pagination round has run or is queued. */
    ghost predicate PaginationRequested()
      reads this
    {
      previewOptions.Some? || HasPagination(pending)
    }

    /** Only queues the rendering of one preview page. */
    method MakePage(page: UInt32, displayWidth: real, displayHeight: real) returns (hr: HResult)
      requires Valid() && previewTarget.Some? && PaginationRequested()
      modifies this`pending
      ensures Valid()
      ensures hr == Ok
      ensures pending == old(pending) + [MakePageWork(page, displayWidth, displayHeight)]
    {
      if previewOptions.None? {
        PaginationFirstAppend(pending, MakePageWork(page, displayWidth, displayHeight));
      }
      pending := pending + [MakePageWork(page, displayWidth, displayHeight)];
      return Ok;
    }

    /** Only queues the printing of the document. */
    method MakeDocument(options: PrintTaskOptions, packageTarget: Handle) returns (hr: HResult)
      requires Valid()
      modifies this`pending
      ensures Valid()
      ensures hr == Ok
      ensures pending == old(pending) + [MakeDocumentWork(options, packageTarget)]
    {
      if previewOptions.None? {
        PaginationFirstAppend(pending, MakeDocumentWork(options, packageTarget));
      }
      pending := pending + [MakeDocumentWork(options, packageTarget)];
      return Ok;
    }

    method AddPrintTaskOptionsChanged(handler: Option<OptionsChangedHandler>, hasOutput: bool)
      returns (hr: HResult, token: Token)
      requires Valid()
      modifies this`optionsChangedHandlers, this`nextToken
      ensures Valid()
      ensures hr == (if handler.None? || !hasOutput then InvalidArg else Ok)
      ensures hr != Ok ==> unchanged(this)
      ensures hr == Ok ==> token == old(nextToken) && nextToken == old(nextToken) + 1
                           && optionsChangedHandlers == old(optionsChangedHandlers) + [Registration(token, handler.value)]
    {
      if handler.None? || !hasOutput {
        return InvalidArg, 0;
      }
      token := nextToken;
      optionsChangedHandlers := optionsChangedHandlers + [Registration(token, handler.value)];
      nextToken := nextToken + 1;
      hr := Ok;
    }

    method AddPreview(handler: Option<PreviewHandler>, hasOutput: bool) returns (hr: HResult, token: Token)
      requires Valid()
      modifies this`previewHandlers, this`nextToken
      ensures Valid()
      ensures hr == (if handler.None? || !hasOutput then InvalidArg else Ok)
      ensures hr != Ok ==> unchanged(this)
      ensures hr == Ok ==> token == old(nextToken) && nextToken == old(nextToken) + 1
                           && previewHandlers == old(previewHandlers) + [Registration(token, handler.value)]
    {
      if handler.None? || !hasOutput {
        return InvalidArg, 0;
      }
      token := nextToken;
      previewHandlers := previewHandlers + [Registration(token, handler.value)];
      nextToken := nextToken + 1;
      hr := Ok;
    }

    method AddPrint(handler: Option<PrintHandler>, hasOutput: bool) returns (hr: HResult, token: Token)
      requires Valid()
      modifies this`printHandlers, this`nextToken
      ensures Valid()
      ensures hr == (if handler.None? || !hasOutput then InvalidArg else Ok)
      ensures hr != Ok ==> unchanged(this)
      ensures hr == Ok ==> token == old(nextToken) && nextToken == old(nextToken) + 1
                           && printHandlers == old(printHandlers) + [Registration(token, handler.value)]
    {
      if handler.None? || !hasOutput {
        return InvalidArg, 0;
      }
      token := nextToken;
      printHandlers := printHandlers + [Registration(token, handler.value)];
      nextToken := nextToken + 1;
      hr := Ok;
    }

    /** Removals record where in the log they happened; Valid() then keeps
        the removed registration from ever being invoked again. */
    ghost predicate RemovalRecorded(kind: EventKind, token: Token, wasRegistered: bool, oldRemovedAt: map<(EventKind, Token), nat>)
      reads this
    {
      && !Registered(kind, token)
      && removedAt == (if wasRegistered then oldRemovedAt[(kind, token) := |calls|] else oldRemovedAt)
      && (forall key :: key in oldRemovedAt ==> key in removedAt && removedAt[key] == oldRemovedAt[key])
    }

    method RemovePrintTaskOptionsChanged(token: Token) returns (hr: HResult)
      requires Valid()
      modifies this`optionsChangedHandlers, this`removedAt
      ensures Valid()
      ensures hr == Ok
      ensures optionsChangedHandlers == Unregister(old(optionsChangedHandlers), token)
      ensures RemovalRecorded(OptionsChangedEvent, token, old(Registered(OptionsChangedEvent, token)), old(removedAt))
    {
      if Registered(OptionsChangedEvent, token) {
        removedAt := removedAt[(OptionsChangedEvent, token) := |calls|];
      }
      UnregisterTokensBelow(optionsChangedHandlers, token, nextToken);
      optionsChangedHandlers := Unregister(optionsChangedHandlers, token);
      return Ok;
    }

    method RemovePreview(token: Token) returns (hr: HResult)
      requires Valid()
      modifies this`previewHandlers, this`removedAt
      ensures Valid()
      ensures hr == Ok
      ensures previewHandlers == Unregister(old(previewHandlers), token)
      ensures RemovalRecorded(PreviewEvent, token, old(Registered(PreviewEvent, token)), old(removedAt))
    {
      if Registered(PreviewEvent, token) {
        removedAt := removedAt[(PreviewEvent, token) := |calls|];
      }
      UnregisterTokensBelow(previewHandlers, token, nextToken);
      previewHandlers := Unregister(previewHandlers, token);
      return Ok;
    }

    method RemovePrint(token: Token) returns (hr: HResult)
      requires Valid()
      modifies this`printHandlers, this`removedAt
      ensures Valid()
      ensures hr == Ok
      ensures printHandlers == Unregister(old(printHandlers), token)
      ensures RemovalRecorded(PrintEvent, token, old(Registered(PrintEvent, token)), old(removedAt))
    {
      if Registered(PrintEvent, token) {
        removedAt := removedAt[(PrintEvent, token) := |calls|];
      }
      UnregisterTokensBelow(printHandlers, token, nextToken);
      printHandlers := Unregister(printHandlers, token);
      return Ok;
    }

    /** Appends `extra` to the log; whatever handlers it invokes are registered now. */
    method Record(extra: seq<Call>)
      requires RemovalsHold()
      requires forall i :: 0 <= i < |extra| && RaisedBy(extra[i]).Some? ==>
                 Registered(RaisedBy(extra[i]).value.0, RaisedBy(extra[i]).value.1)
      modifies this`calls
      ensures RemovalsHold()
      ensures calls == old(calls) + extra
    {
      assert RaisesNoneOf(extra, removedAt.Keys);
      NotRaisedAppend(calls, extra, removedAt);
      calls := calls + extra;
    }

    /** The dispatcher's Tick: runs the oldest queued item, if any. */
    method RunNextAction()
      requires Valid()
      modifies this
      ensures Valid()
      ensures old(pending) == [] ==> unchanged(this)
      ensures old(pending) != [] ==> pending == old(pending)[1..]
      ensures previewTarget == old(previewTarget) && nextToken == old(nextToken) && removedAt == old(removedAt)
      ensures optionsChangedHandlers == old(optionsChangedHandlers)
      ensures previewHandlers == old(previewHandlers) && printHandlers == old(printHandlers)
      ensures old(pending) != [] && old(pending)[0].PaginateWork? ==>
        var work := old(pending)[0];
        && calls == old(calls) + OptionsChangedRaises(optionsChangedHandlers, work.currentPage, work.options, 1)
        && previewOptions == Some(work.options)
        && newPreviewPageNumber == CommittedPage(optionsChangedHandlers, 1)
      ensures old(pending) != [] && old(pending)[0].MakePageWork? ==>
        var work := old(pending)[0];
        var page := ResolvePreviewPage(work.page, old(newPreviewPageNumber));
        && old(previewOptions).Some? && previewTarget.Some?
        && var bitmap := PreviewBitmap(old(previewOptions).value, page, adapter.logicalDpi, work.displayWidth);
        && calls == old(calls) + [CreateRenderTarget(bitmap)]
                    + PreviewRaises(previewHandlers, page, old(previewOptions).value, bitmap)
                    + [DrawPage(previewTarget.value, page, bitmap, bitmap.dpi, bitmap.dpi)]
        && previewOptions == old(previewOptions) && newPreviewPageNumber == old(newPreviewPageNumber)
      ensures old(pending) != [] && old(pending)[0].MakeDocumentWork? ==>
        var work := old(pending)[0];
        && PrintRound(old(calls), calls, work.options, device, work.packageTarget, printHandlers)
        && previewOptions == old(previewOptions) && newPreviewPageNumber == old(newPreviewPageNumber)
    {
      if pending == [] {
        return;
      }
      match pending[0]
      case PaginateWork(_, _) =>
        RunQueuedPagination();
      case MakePageWork(_, _, _) =>
        RunQueuedPage();
      case MakeDocumentWork(_, _) =>
        RunQueuedDocument();
    }

    /** Takes queued pagination work off the queue and runs it. */
    method RunQueuedPagination()
      requires Valid() && pending != [] && pending[0].PaginateWork?
      modifies this`pending, this`calls, this`previewOptions, this`newPreviewPageNumber
      ensures Valid() && pending == old(pending)[1..]
      ensures calls == old(calls) + OptionsChangedRaises(optionsChangedHandlers, old(pending)[0].currentPage,
                                                         old(pending)[0].options, 1)
      ensures previewOptions == Some(old(pending)[0].options)
      ensures newPreviewPageNumber == CommittedPage(optionsChangedHandlers, 1)
    {
      var work := pending[0];
      pending := pending[1..];
      RunPagination(work.currentPage, work.options);
    }

    /** Takes queued MakePage work off the queue and runs it. */
    method RunQueuedPage()
      requires Valid() && pending != [] && pending[0].MakePageWork?
      modifies this`pending, this`calls
      ensures Valid() && pending == old(pending)[1..]
      ensures previewOptions.Some? && previewTarget.Some?
      ensures var page := ResolvePreviewPage(old(pending)[0].page, newPreviewPageNumber);
              var bitmap := PreviewBitmap(previewOptions.value, page, adapter.logicalDpi, old(pending)[0].displayWidth);
              calls == old(calls) + [CreateRenderTarget(bitmap)]
                       + PreviewRaises(previewHandlers, page, previewOptions.value, bitmap)
                       + [DrawPage(previewTarget.value, page, bitmap, bitmap.dpi, bitmap.dpi)]
    {
      var work := pending[0];
      pending := pending[1..];
      RunMakePage(work.page, work.displayWidth);
    }

    /** Takes queued MakeDocument work off the queue and runs it. */
    method RunQueuedDocument()
      requires Valid() && pending != [] && pending[0].MakeDocumentWork?
      modifies this`pending, this`calls
      ensures Valid() && pending == old(pending)[1..]
      ensures PrintRound(old(calls), calls, old(pending)[0].options, device, old(pending)[0].packageTarget, printHandlers)
    {
      var work := pending[0];
      pending := pending[1..];
      RunMakeDocument(work.options, work.packageTarget);
    }

    /** A pagination round: PrintTaskOptionsChanged to each handler, then the
        round's options and new page are committed. */
    method RunPagination(current: UInt32, options: PrintTaskOptions)
      requires RemovalsHold()
      modifies this`calls, this`previewOptions, this`newPreviewPageNumber
      ensures RemovalsHold() && IsValidNewPreviewPage(newPreviewPageNumber)
      ensures calls == old(calls) + OptionsChangedRaises(optionsChangedHandlers, current, options, 1)
      ensures previewOptions == Some(options)
      ensures newPreviewPageNumber == CommittedPage(optionsChangedHandlers, 1)
    {
      var log, newPage := RaiseOptionsChangedRound(optionsChangedHandlers, current, options);
      forall j | 0 <= j < |log| ensures RaisedBy(log[j]).Some? ==> Registered(RaisedBy(log[j]).value.0, RaisedBy(log[j]).value.1) {
        assert Tokens(optionsChangedHandlers)[j] == optionsChangedHandlers[j].token;
      }
      Record(log);
      previewOptions := Some(options);
      newPreviewPageNumber := newPage;
    }

    /** One preview page: a page-sized render target at the preview DPI,
        Preview to each handler, then the bitmap's surface to DrawPage. */
    method RunMakePage(requestedPage: UInt32, displayWidth: real)
      requires RemovalsHold() && previewTarget.Some? && previewOptions.Some?
      modifies this`calls
      ensures RemovalsHold()
      ensures var page := ResolvePreviewPage(requestedPage, newPreviewPageNumber);
              var bitmap := PreviewBitmap(previewOptions.value, page, adapter.logicalDpi, displayWidth);
              calls == old(calls) + [CreateRenderTarget(bitmap)]
                       + PreviewRaises(previewHandlers, page, previewOptions.value, bitmap)
                       + [DrawPage(previewTarget.value, page, bitmap, bitmap.dpi, bitmap.dpi)]
    {
      var page := ResolvePreviewPage(requestedPage, newPreviewPageNumber);
      var options := previewOptions.value;
      var bitmap := PreviewBitmap(options, page, adapter.logicalDpi, displayWidth);
      var regs := previewHandlers;
      var log: seq<Call> := [CreateRenderTarget(bitmap)];
      var i := 0;
      while i < |regs|
        invariant 0 <= i <= |regs|
        invariant log == [CreateRenderTarget(bitmap)] + PreviewRaises(regs[..i], page, options, bitmap)
      {
        var raise := RaisePreview(regs[i].token, page, options, bitmap);
        log := log + [raise];
        i := i + 1;
        assert PreviewRaises(regs[..i], page, options, bitmap)
               == PreviewRaises(regs[..i - 1], page, options, bitmap) + [raise];
      }
      assert regs[..|regs|] == regs;
      log := log + [DrawPage(previewTarget.value, page, bitmap, bitmap.dpi, bitmap.dpi)];
      forall j | 0 <= j < |log| ensures RaisedBy(log[j]).Some? ==> Registered(RaisedBy(log[j]).value.0, RaisedBy(log[j]).value.1) {
        if 1 <= j <= |regs| {
          assert Tokens(regs)[j - 1] == regs[j - 1].token;
        }
      }
      Record(log);
    }

    /** Printing: one print round over the registered Print handlers. */
    method RunMakeDocument(options: PrintTaskOptions, packageTarget: Handle)
      requires RemovalsHold()
      modifies this`calls
      ensures RemovalsHold()
      ensures PrintRound(old(calls), calls, options, device, packageTarget, printHandlers)
    {
      var log := RaisePrintRound(device, options, packageTarget, printHandlers);
      PrintRoundLogFacts(log, options, device, packageTarget, printHandlers);
      RaisesOnlyOf(log, PrintEvent, Tokens(printHandlers));
      Record(log);
      assert calls[..|old(calls)|] == old(calls) && calls[|old(calls)|..] == log;
    }
  }
}
