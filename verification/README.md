# Win2D printing: print event arguments and the print-document protocol

This project models two parts of Win2D's printing layer and proves properties
of the model.

**`CanvasPrintEventArgs`** is what a `Print` handler receives. It holds:

- the DPI the application prints at;
- a print control, created lazily;
- the command list of the drawing session that is open;
- a running page number.

The handler may change the DPI until it opens its first drawing session.
Then it draws its pages one session at a time. Closing a session hands that
session's command list to the print control as the next page. Once every
handler has returned, `EndPrinting` closes the print control.

**`CanvasPrintDocument`** is the page source the Windows print pipeline
drives:

- `GetPreviewPageCollection` binds a preview target.
- `SetPageCount`, `SetIntermediatePageCount` and `InvalidatePreview` are
  forwarded to that target at once.
- `Paginate`, `MakePage` and `MakeDocument` only queue work on the UI
  dispatcher. Each dispatcher tick (`RunNextAction`) runs the oldest queued
  item, which raises one of three events to its registered handlers:
  - `PrintTaskOptionsChanged`: its handler may choose the page the preview
    should move to;
  - `Preview`: its handler draws one preview page into a render target sized
    like the page, which then goes to `DrawPage`;
  - `Print`: its handlers draw the document through a `CanvasPrintEventArgs`.
- Handlers are added under tokens and removed by token. A removed handler is
  never invoked again.

Modules:

- `Printing`: status codes, page numbers, page descriptions and the
  print-task options.
- `EventRegistry`: a token-keyed registration list.
- `PageNumbers`: the pure rules for page numbers and preview DPI.
- `PrintEventArgs`: the class `CanvasPrintEventArgs`.
- `PrintTaskOptionsChanged`: the class
  `CanvasPrintTaskOptionsChangedEventArgs`.
- `PrintDocument`:
  - the class `CanvasPrintDocument`, with its dispatcher queue, registries,
    preview state and call log;
  - the methods that run one round of handlers;
  - the specification functions those rounds are proved against.

How the outside world is modelled:

- Every handler invocation is appended to a call log, together with these
  calls on collaborators:
  - on the preview target: `SetJobPageCount`, `InvalidatePreview` and
    `DrawPage`;
  - on the device: `CreateRenderTargetBitmap`, `CreatePrintControl` (with the
    device, the package target and the DPI) and `CreateCommandList`;
  - on a command list: its close;
  - on the print control: `AddPage` and `Close`.
- The contracts state what that log looks like.
- Queries are not logged: `GetPageDescription`, `GetPackageTarget` and
  `CreateDeviceContextForDrawingSession` (see "Left out").
- A null pointer argument is an `Option` or a `hasOutput` flag.
- Runtime objects (devices, package targets) are opaque handles.
- Application handlers are scripts: the page an options-changed handler
  requests, and the DPI and number of pages a print handler draws.

The `.cpp` files that implement the document and the arguments are not part
of this model. Their behaviour is taken from the header and from the unit
tests in `winrt/test.internal/graphics/CanvasPrintDocumentUnitTests.cpp`:

- The current page is normalised when `Paginate` is called.
- The round's options and new preview page number are committed after the
  last `PrintTaskOptionsChanged` handler returns.
- The `MakePage` sentinel is resolved when the page is made.

## Model

| member | source | states |
|---|---|---|
| PrintEventArgs.CanvasPrintEventArgs.constructor | winrt/lib/printing/CanvasPrintEventArgs.h:29-33 | New arguments hold the device, target and options they were given and the initial DPI. They have no print control, no open session and page 1, and have made no calls. |
| PrintEventArgs.CanvasPrintEventArgs.GetPrintTaskOptions | winrt/lib/printing/CanvasPrintEventArgs.h:37 | A null output is invalid-argument. Otherwise it returns the options the arguments were created with. |
| PrintEventArgs.CanvasPrintEventArgs.GetDpi | winrt/lib/printing/CanvasPrintEventArgs.h:38 | A null output is invalid-argument. Otherwise it returns exactly the stored DPI. |
| PrintEventArgs.CanvasPrintEventArgs.PutDpi | winrt/lib/printing/CanvasPrintEventArgs.h:39 | Zero or a negative value gives invalid-argument. Any positive value is stored, unless a drawing session was already created: then it gives E_FAIL and the DPI is unchanged. |
| PrintEventArgs.CanvasPrintEventArgs.GetDeferral | winrt/lib/printing/CanvasPrintEventArgs.h:40 | Succeeds exactly when the output pointer is non-null, and is invalid-argument otherwise. |
| PrintEventArgs.CanvasPrintEventArgs.CreateDrawingSession | winrt/lib/printing/CanvasPrintEventArgs.h:41 | A null output is invalid-argument. While a session is open it gives E_FAIL and changes nothing. Otherwise: the first call has the device create the print control for the target at the current DPI; later calls reuse it; a command list is opened for the current page; the returned session draws into that list at the arguments' DPI. The object invariant holds throughout: pages 1..currentPage-1 were added in order, and one control was created. |
| PrintEventArgs.CanvasPrintEventArgs.DrawingSessionClosed | winrt/lib/printing/CanvasPrintEventArgs.h:45 | Closes the open command list. Adds it as exactly one `AddPage` with that page's size from `GetPageDescription`, a null print ticket and null tags. Advances the page counter by one. |
| PrintEventArgs.CanvasPrintEventArgs.EndPrinting | winrt/lib/printing/CanvasPrintEventArgs.h:35 | Appends one close of the print control if one was created, and nothing otherwise. The count of closes grows by exactly that. |
| PrintEventArgs.CreatedControlAt | winrt/lib/printing/CanvasPrintEventArgs.h:23 | In a log that creates one print control, the creating call found at any index is that one. |
| PrintEventArgs.PagesUpToAt | winrt/test.internal/graphics/CanvasPrintDocumentUnitTests.cpp:883-925 | After n pages, the k-th `AddPage` is for page k, with page k's own size and no ticket or tags. k runs 1..n with no gaps. |
| PrintEventArgs.ListsUpToAt | winrt/test.internal/graphics/CanvasPrintDocumentUnitTests.cpp:883-925 | After n pages, the command-list calls alternate create and close. The k-th pair creates and then closes command list k, for k = 1..n. |
| PrintEventArgs.SessionsFromFilters | winrt/test.internal/graphics/CanvasPrintDocumentUnitTests.cpp:883-925 | n sessions from page 1 add pages 1..n, create and close command lists 1..n, and create or close no print control. |
| PrintTaskOptionsChanged.CanvasPrintTaskOptionsChangedEventArgs.constructor | winrt/test.internal/graphics/CanvasPrintDocumentUnitTests.cpp:290-296 | The arguments carry the current page and options they were given. The new preview page number starts at 1. |
| PrintTaskOptionsChanged.CanvasPrintTaskOptionsChangedEventArgs.GetCurrentPreviewPageNumber | winrt/test.internal/graphics/CanvasPrintDocumentUnitTests.cpp:712-719 | A null output is invalid-argument. Otherwise it returns the current preview page number. |
| PrintTaskOptionsChanged.CanvasPrintTaskOptionsChangedEventArgs.GetNewPreviewPageNumber | winrt/test.internal/graphics/CanvasPrintDocumentUnitTests.cpp:712-719 | A null output is invalid-argument. Otherwise it returns the new preview page number. |
| PrintTaskOptionsChanged.CanvasPrintTaskOptionsChangedEventArgs.GetPrintTaskOptions | winrt/test.internal/graphics/CanvasPrintDocumentUnitTests.cpp:712-719 | A null output is invalid-argument. Otherwise it returns the task options. |
| PrintTaskOptionsChanged.CanvasPrintTaskOptionsChangedEventArgs.GetDeferral | winrt/test.internal/graphics/CanvasPrintDocumentUnitTests.cpp:712-719 | Succeeds exactly when the output pointer is non-null, and is invalid-argument otherwise. |
| PrintTaskOptionsChanged.CanvasPrintTaskOptionsChangedEventArgs.PutNewPreviewPageNumber | winrt/test.internal/graphics/CanvasPrintDocumentUnitTests.cpp:721-728 | 0 is refused with invalid-argument and changes nothing. Every page number from 1 up is stored. The stored number stays at least 1. |
| PageNumbers.NormalizeCurrentPage | winrt/test.internal/graphics/CanvasPrintDocumentUnitTests.cpp:308-333 | `JOB_PAGE_APPLICATION_DEFINED` becomes page 1. Every other page number passes through unchanged. The result is never the sentinel. |
| PageNumbers.ResolvePreviewPage | winrt/test.internal/graphics/CanvasPrintDocumentUnitTests.cpp:387-417 | The `MakePage` sentinel resolves to the new preview page number the last pagination round committed. Any other page number is used as given. |
| PageNumbers.PageAfterRequest | winrt/test.internal/graphics/CanvasPrintDocumentUnitTests.cpp:721-728 | A valid request (at least 1) replaces the new preview page number. An invalid one leaves it. A valid number stays valid. |
| PageNumbers.PreviewDpi | winrt/test.internal/graphics/CanvasPrintDocumentUnitTests.cpp:456-463 | The preview DPI times the page width equals the logical DPI times the display width. |
| PageNumbers.PreviewDpiAtScale | winrt/test.internal/graphics/CanvasPrintDocumentUnitTests.cpp:456-476 | A page displayed at `scale` of its size renders at `scale` times the logical DPI. |
| PageNumbers.PreviewPixelsMatchDisplay | winrt/test.internal/graphics/CanvasPrintDocumentUnitTests.cpp:467-476 | The page-sized target at the preview DPI is exactly as many pixels wide as the display area at the logical DPI. |
| EventRegistry.Unregister | winrt/test.internal/graphics/CanvasPrintDocumentUnitTests.cpp:335-344 | Removal by token keeps every registration under another token and no registration under that token. The removed token is absent afterwards. |
| EventRegistry.UnregisterKeepsOrder | winrt/test.internal/graphics/CanvasPrintDocumentUnitTests.cpp:335-344 | Removal keeps exactly the registrations under other tokens, in their original order. |
| EventRegistry.UnregisterAbsent | winrt/test.internal/graphics/CanvasPrintDocumentUnitTests.cpp:335-344 | Removing a token that no registration carries leaves the registry exactly as it was. |
| EventRegistry.UnregisterUndoesRegister | winrt/test.internal/graphics/CanvasPrintDocumentUnitTests.cpp:335-344 | Adding a handler under a fresh token and then removing that token restores the registry exactly. |
| EventRegistry.UnregisterTokensBelow | winrt/test.internal/graphics/CanvasPrintDocumentUnitTests.cpp:191-203 | After a removal, every remaining token is still below the next token to be handed out. |
| PrintDocument.CommittedPage | winrt/test.internal/graphics/CanvasPrintDocumentUnitTests.cpp:387-417 | The page a pagination round commits is a valid preview page number when the round starts from one. |
| PrintDocument.CommittedPageUnrequested | winrt/test.internal/graphics/CanvasPrintDocumentUnitTests.cpp:290-296 | When no handler requests a page, the round commits the page it started from, which is 1. |
| PrintDocument.OptionsChangedRaises | winrt/test.internal/graphics/CanvasPrintDocumentUnitTests.cpp:274-306 | A pagination round makes one `PrintTaskOptionsChanged` invocation per registration, in registration order, each under that registration's token. |
| PrintDocument.RaisesCarryRound | winrt/test.internal/graphics/CanvasPrintDocumentUnitTests.cpp:284-300 | Every invocation of a round is shown the round's current page and its task options. The first is shown the default new preview page number. |
| PrintDocument.OptionsChangedRaisesTokens | winrt/test.internal/graphics/CanvasPrintDocumentUnitTests.cpp:284-305 | A round invokes exactly the registered `PrintTaskOptionsChanged` handlers, once each and in order, and no handler of another event. |
| PrintDocument.PreviewRaises | winrt/test.internal/graphics/CanvasPrintDocumentUnitTests.cpp:367-384 | Making a page invokes each `Preview` registration once, in order. Each is shown the page number, the round's options and the page's render target. |
| PrintDocument.PreviewRaisesTokens | winrt/test.internal/graphics/CanvasPrintDocumentUnitTests.cpp:367-384 | A page invokes exactly the registered `Preview` handlers, in order, and no handler of another event. |
| PrintDocument.RemovedTokenNotRaised | winrt/test.internal/graphics/CanvasPrintDocumentUnitTests.cpp:335-344 | After removal, a token is carried by no invocation of a later pagination round or preview page. |
| PrintDocument.PreviewBitmap | winrt/test.internal/graphics/CanvasPrintDocumentUnitTests.cpp:456-482 | The render target is the page description's size, not the display size. It is B8G8R8A8 premultiplied. Its DPI makes it exactly as many pixels wide as the display area at the logical DPI. |
| PrintDocument.RunPrintHandler | winrt/test.internal/graphics/CanvasPrintDocumentUnitTests.cpp:815-925 | A print handler puts its DPI, if it has one, then draws n pages, closing each session before it opens the next. The DPI it puts is taken only when positive and no print control exists yet; otherwise the DPI stays. The page counter advances by n. Exactly these calls are appended: the print control at the DPI the handler leaves, if none existed and n > 0; then, for each of its pages k in turn, command list k created, command list k closed and page k added. The arguments' invariant is kept. |
| PrintDocument.DrawNextPage | winrt/test.internal/graphics/CanvasPrintDocumentUnitTests.cpp:839-925 | One drawing session for the current page k, opened and closed. Exactly these calls are appended: the print control at the current DPI if none existed, command list k created, command list k closed, page k added. The page counter advances by one. The DPI is unchanged, and a print control at that DPI exists afterwards. |
| PrintDocument.DrawPages | winrt/test.internal/graphics/CanvasPrintDocumentUnitTests.cpp:883-925 | Drawing n pages in turn leaves the DPI unchanged and advances the page counter by n. It appends exactly the print control (if none existed and n > 0) and one create, close and add per page, for the n pages from the current one. |
| PrintDocument.RaiseOptionsChangedRound | winrt/test.internal/graphics/CanvasPrintDocumentUnitTests.cpp:274-306 | Running the handlers on one arguments object produces exactly the round's invocations. It returns the page they committed, which is at least 1. |
| PrintDocument.RaisePrintTo | winrt/test.internal/graphics/CanvasPrintDocumentUnitTests.cpp:573-632 | Raising Print to one handler records the invocation, shown the DPI the arguments hold then, followed by exactly the calls that handler appends. The arguments change as `RunPrintHandler` states. |
| PrintDocument.RaisePrintNext | winrt/test.internal/graphics/CanvasPrintDocumentUnitTests.cpp:573-595 | Raising Print to registration i moves the round from "after i handlers" to "after i + 1". The page counter is one more than the pages those handlers drew. The DPI is the one they leave. The print calls are exactly the control and sessions for those pages. The new log is the old log followed by exactly this registration's part: Print raised to it, shown the DPI the arguments held before its handler ran, then exactly the calls its handler made, from its first page on. |
| PrintDocument.RaisePrintEach | winrt/test.internal/graphics/CanvasPrintDocumentUnitTests.cpp:573-595 | Raising Print to every registration in turn takes the arguments and the log from "after no handler" to "after all handlers". |
| PrintDocument.RaisePrintHandlers | winrt/test.internal/graphics/CanvasPrintDocumentUnitTests.cpp:573-632 | The log is exactly each registration's part in registration order. A part is Print raised to that registration, shown the DPI the handlers before it left, followed by the calls its own handler made. Hence Print is raised to each registration once, in order, and to nothing else, and the log holds only those invocations and calls on the print event arguments. The first invocation is shown the initial DPI. Afterwards the DPI is the one the handlers leave. The print calls are exactly the control at that DPI (if a page is drawn) and one create, close and add session per page 1..N. No control is closed yet. |
| PrintDocument.PrintRoundCompleted | winrt/test.internal/graphics/CanvasPrintDocumentUnitTests.cpp:634-670 | Given what the handlers' invocations record, appending the single close of the control (when a page was drawn) gives a log with only Print invocations and print calls. Print is raised to each registration in order, the first at page 1's DPI. The print calls are exactly the round's, and the close is the last entry. |
| PrintDocument.RaisePrintRound | winrt/test.internal/graphics/CanvasPrintDocumentUnitTests.cpp:597-670 | A print round's log is exactly each registration's part, in registration order, then the control's close if a page was drawn. A part is Print raised to that registration, shown the DPI the handlers before it left (page 1's DPI for the first), followed by the calls its own handler made on the print event arguments. Those calls are the print control, created by the document's device for the package target at the DPI that handler leaves, if it draws the round's first page; then, for each of its pages k, command list k created, command list k closed and page k added with page k's size. |
| PrintDocument.PrintRoundLogFacts | winrt/test.internal/graphics/CanvasPrintDocumentUnitTests.cpp:597-670 | A print round's log holds only Print invocations and calls on the print event arguments. Print is raised to each handler in order, the first at page 1's DPI, and no other event is raised. The calls on the arguments are exactly as follows. When N > 0, one print control is created by the document's device for the package target, at the DPI the handlers leave. For k = 1..N in order, command list k is created, closed and added as page k. Then that control is closed once, as the last call. |
| PrintDocument.PrintRoundInvocationAt | winrt/test.internal/graphics/CanvasPrintDocumentUnitTests.cpp:573-632 | In a print round's log, registration j's part sits right after the parts of the registrations before it, with nothing in between: Print raised to it at the DPI they left, then exactly its own handler's calls. |
| PrintDocument.PrintInvocationAt | winrt/test.internal/graphics/CanvasPrintDocumentUnitTests.cpp:573-632 | Any log that starts with all registrations' parts holds registration j's part right after the parts before it. |
| PrintDocument.PrintInvocationsPrefix | winrt/test.internal/graphics/CanvasPrintDocumentUnitTests.cpp:573-595 | The parts of the first j registrations are a prefix of the parts of the first i, for j <= i. |
| PrintDocument.PrintInvocationsLog | winrt/test.internal/graphics/CanvasPrintDocumentUnitTests.cpp:573-632 | The parts of the first i registrations, taken together, raise Print to exactly those registrations in order and nothing else. The first is shown the initial DPI. Their print calls are exactly the control and sessions for the pages those handlers draw. |
| PrintDocument.PrintRoundOneHandler | winrt/test.internal/graphics/CanvasPrintDocumentUnitTests.cpp:597-670 | With one Print handler, as every print test registers, the round's log is its invocation at page 1's DPI, then the round's whole print-call sequence: the control at the DPI the handler leaves, one session per page, and the close. |
| PrintDocument.PrintRoundLogCalls | winrt/test.internal/graphics/CanvasPrintDocumentUnitTests.cpp:597-670 | In a print round's log, pages 1..N are added in order. Command lists 1..N are each created and closed once, in order. One control is created and one closed exactly when N > 0. The control is at page 1's DPI unless a handler puts a positive DPI before the first page is drawn. |
| PrintDocument.DpiFrozen | winrt/lib/printing/CanvasPrintEventArgs.h:39 | Once a page has been drawn, no later handler changes the DPI. |
| PrintDocument.DpiUnrequested | winrt/test.internal/graphics/CanvasPrintDocumentUnitTests.cpp:597-632 | When no handler that runs before the first page puts a positive DPI, the arguments keep the DPI they started with, which is page 1's. |
| PrintDocument.NotRaisedAppend | winrt/test.internal/graphics/CanvasPrintDocumentUnitTests.cpp:517-529 | Appending calls that invoke no removed registration keeps "never invoked after its removal" true of the whole log. |
| PrintDocument.PaginationFirstAppend | winrt/test.internal/graphics/CanvasPrintDocumentUnitTests.cpp:361-363 | Queued `MakePage` work only follows pagination work, so a pagination round always runs before the first page is made. |
| PrintDocument.CanvasPrintDocument.constructor | winrt/test.internal/graphics/CanvasPrintDocumentUnitTests.cpp:93-99 | A new document has no preview target and no handlers. Its queue and log are empty and its new preview page number is 1. |
| PrintDocument.CanvasPrintDocument.ActivateInstance | winrt/test.internal/graphics/CanvasPrintDocumentUnitTests.cpp:102-122 | With no dispatcher on the calling thread, activation gives RPC_E_WRONG_THREAD and no document. Otherwise the new document uses the given adapter, with its logical DPI, and the shared device. |
| PrintDocument.CanvasPrintDocument.CreateWithDevice | winrt/test.internal/graphics/CanvasPrintDocumentUnitTests.cpp:124-148 | A null device or output gives invalid-argument, and that check comes first. Then, as for default activation, no dispatcher on the calling thread gives RPC_E_WRONG_THREAD and no document. Otherwise the document uses the given adapter, with its logical DPI, and the device it was given. |
| PrintDocument.CanvasPrintDocument.GetDevice | winrt/test.internal/graphics/CanvasPrintDocumentUnitTests.cpp:112-137 | A null output is invalid-argument. Otherwise it returns the document's device. |
| PrintDocument.CanvasPrintDocument.GetPreviewPageCollection | winrt/test.internal/graphics/CanvasPrintDocumentUnitTests.cpp:150-210 | A null target or output is invalid-argument and binds nothing. Otherwise the target's preview target is bound. |
| PrintDocument.CanvasPrintDocument.InvalidatePreview | winrt/test.internal/graphics/CanvasPrintDocumentUnitTests.cpp:212-226 | Before a preview target is bound, a successful no-op. Afterwards it forwards exactly one invalidation to the target. |
| PrintDocument.CanvasPrintDocument.SetPageCountOfKind | winrt/test.internal/graphics/CanvasPrintDocumentUnitTests.cpp:228-272 | Before a preview target is bound, E_FAIL and no call. Afterwards exactly one `SetJobPageCount` of that kind and count. |
| PrintDocument.CanvasPrintDocument.SetPageCount | winrt/test.internal/graphics/CanvasPrintDocumentUnitTests.cpp:228-258 | E_FAIL before a target is bound. Afterwards one `SetJobPageCount(FinalPageCount, n)`. |
| PrintDocument.CanvasPrintDocument.SetIntermediatePageCount | winrt/test.internal/graphics/CanvasPrintDocumentUnitTests.cpp:237-272 | E_FAIL before a target is bound. Afterwards one `SetJobPageCount(IntermediatePageCount, n)`. |
| PrintDocument.CanvasPrintDocument.Paginate | winrt/test.internal/graphics/CanvasPrintDocumentUnitTests.cpp:274-306 | Only queues the round, with its page normalised. It invokes no handler and makes no call. |
| PrintDocument.CanvasPrintDocument.MakePage | winrt/test.internal/graphics/CanvasPrintDocumentUnitTests.cpp:355-385 | Only queues the page. It invokes no handler and makes no call. |
| PrintDocument.CanvasPrintDocument.MakeDocument | winrt/test.internal/graphics/CanvasPrintDocumentUnitTests.cpp:573-595 | Only queues the printing. It invokes no handler and makes no call. |
| PrintDocument.CanvasPrintDocument.AddPrintTaskOptionsChanged | winrt/test.internal/graphics/CanvasPrintDocumentUnitTests.cpp:346-353 | A null handler or token output is invalid-argument and changes nothing. Otherwise the handler is appended under a fresh token, which is returned. |
| PrintDocument.CanvasPrintDocument.AddPreview | winrt/test.internal/graphics/CanvasPrintDocumentUnitTests.cpp:531-538 | A null handler or token output is invalid-argument and changes nothing. Otherwise the handler is appended under a fresh token. |
| PrintDocument.CanvasPrintDocument.AddPrint | winrt/test.internal/graphics/CanvasPrintDocumentUnitTests.cpp:686-693 | A null handler or token output is invalid-argument and changes nothing. Otherwise the handler is appended under a fresh token. |
| PrintDocument.CanvasPrintDocument.RemovePrintTaskOptionsChanged | winrt/test.internal/graphics/CanvasPrintDocumentUnitTests.cpp:335-344 | Removes the registration under the token and records when. The document invariant then keeps that handler from ever being invoked again. |
| PrintDocument.CanvasPrintDocument.RemovePreview | winrt/test.internal/graphics/CanvasPrintDocumentUnitTests.cpp:517-529 | Removes the registration under the token and records when. The handler is never invoked again. |
| PrintDocument.CanvasPrintDocument.RemovePrint | winrt/test.internal/graphics/CanvasPrintDocumentUnitTests.cpp:672-684 | Removes the registration under the token and records when. The handler is never invoked again. |
| PrintDocument.CanvasPrintDocument.RunNextAction | winrt/test.internal/graphics/CanvasPrintDocumentUnitTests.cpp:66-69 | Runs the oldest queued item and leaves the rest queued in order. On an empty queue it does nothing. Registrations and the preview target are unchanged. The log grows by exactly that item's pagination round, preview page or print round. A print round is one as `RaisePrintRound` states it. |
| PrintDocument.CanvasPrintDocument.RunPagination | winrt/test.internal/graphics/CanvasPrintDocumentUnitTests.cpp:274-333 | Appends the round's `PrintTaskOptionsChanged` invocations. Commits the round's options and the page the handlers left, which is at least 1. |
| PrintDocument.CanvasPrintDocument.RunMakePage | winrt/test.internal/graphics/CanvasPrintDocumentUnitTests.cpp:419-515 | In order: one page-sized render target at the preview DPI, the `Preview` invocations, then one `DrawPage` with the resolved page number and that DPI on both axes. |
| PrintDocument.CanvasPrintDocument.RunMakeDocument | winrt/test.internal/graphics/CanvasPrintDocumentUnitTests.cpp:573-684 | Appends exactly one print round over the registered Print handlers, with everything `RaisePrintRound` states of it, and nothing else. |

## Left out

- COM and WinRT plumbing is not modelled: reference counting, interface casts, `IsSameInstance` and factory mechanics. Objects are handles or Dafny references.
- Direct2D and DXGI work is not modelled: device contexts, command-list contents, surfaces and pixels. Only the calls made are recorded, with their page, size and DPI.
- Threads and the real dispatcher are not modelled. The dispatcher is a FIFO queue drained one item per `RunNextAction`.
- Deferrals have no behaviour beyond the null check of their output.
- The stored error-message strings are not modelled, only the status codes.
- Floating-point rounding is not modelled. DPI and sizes are `real`, and page sizes are positive.
- The logical DPI of the display is a constant of the adapter.
- The queries are not recorded in the call log:
  - `GetPageDescription` is a pure function of the page number, so how often it is asked, and for which page, is not modelled;
  - the `GetPackageTarget` lookup made when a preview target is bound;
  - the device context made for each drawing session.
- PrintDocument.CanvasPrintDocument.RunMakePage: the preview DPI is computed from the width alone. The display height is assumed to be at the same scale as the width, and `displayHeight` is carried but not used.
- Failure paths inside the queued work are not modelled: device loss, or a collaborator failing during `Paginate`, `MakePage` or `MakeDocument` work. Nothing pins them down.
- PrintDocument.CanvasPrintDocument.Paginate: requires a bound preview target. The page collection it is called on exists only after `GetPreviewPageCollection`.
- PrintDocument.CanvasPrintDocument.MakePage: requires a bound target and a pagination round run or queued. The print pipeline always paginates before making a page.
- PrintDocument.CanvasPrintDocument.GetPreviewPageCollection: a second call rebinds to the new target. What the implementation does then is not part of this model.
- PrintEventArgs.CanvasPrintEventArgs.EndPrinting: with no print control it does nothing. Whether the implementation does anything when no page was drawn is not part of this model.
- PrintEventArgs.CanvasPrintEventArgs.PutDpi: checks a non-positive value before the frozen-DPI check. The order for a non-positive value after a session was created is not pinned down.
- Application handlers are scripts:
  - An options-changed handler may request one page.
  - A print handler may set a DPI and then draws a number of pages, closing each session before the next.
  - A preview handler only observes.
  - Handlers that misuse the arguments are not modelled. Examples are opening two sessions, or setting a DPI after drawing.
- The getters of `CanvasPreviewEventArgs` are not modelled. Its invocation records the page number, options and render target it carries.
- The mock classes and the GUID check on the package target are not modelled.
