/**
 * The pure rules of the preview protocol: the "application defined" page
 * sentinel, the validation of a new preview page number, and the DPI at
 * which a preview page is rendered.
 */
module PageNumbers {
  import opened Printing

  /** JOB_PAGE_APPLICATION_DEFINED, the 32-bit value -1: the pipeline passes it
      when no page is displayed yet (Paginate) or when the application is to
      choose the page (MakePage). */
  const JobPageApplicationDefined: UInt32 := 0xFFFF_FFFF

  /** The current preview page number that PrintTaskOptionsChanged reports
      for a Paginate argument. */
  function NormalizeCurrentPage(page: UInt32): (r: UInt32)
    ensures r != JobPageApplicationDefined
    ensures page != JobPageApplicationDefined ==> r == page
    ensures page == JobPageApplicationDefined ==> r == 1
  {
    if page == JobPageApplicationDefined then 1 else page
  }

  /** The page MakePage renders: the requested one, or, for the sentinel,
      the new preview page number committed by the last pagination round. */
  function ResolvePreviewPage(page: UInt32, committed: UInt32): (r: UInt32)
    ensures page != JobPageApplicationDefined ==> r == page
    ensures page == JobPageApplicationDefined ==> r == committed
  {
    if page == JobPageApplicationDefined then committed else page
  }

  /** put_NewPreviewPageNumber accepts exactly the page numbers from 1 up. */
  predicate IsValidNewPreviewPage(page: UInt32)
  {
    page >= 1
  }

  /** The new preview page number after a handler asks for `requested`:
      a valid request replaces it, an invalid one is refused and leaves it. */
  function PageAfterRequest(current: UInt32, requested: UInt32): (r: UInt32)
    ensures IsValidNewPreviewPage(current) ==> IsValidNewPreviewPage(r)
    ensures r == requested || r == current
    ensures r == requested <== IsValidNewPreviewPage(requested)
  {
    if IsValidNewPreviewPage(requested) then requested else current
  }

  /** Device-independent units per inch. */
  const DipsPerInch: real := 96.0

  /** The size in pixels of `dips` device-independent units rendered at `dpi`. */
  function Pixels(dips: real, dpi: real): real
  {
    dips * dpi / DipsPerInch
  }

  /** The DPI of the render target MakePage creates: the target keeps the
      page's own size, so the DPI is scaled by display size / page size. */
  function PreviewDpi(logicalDpi: real, displayWidth: real, pageWidth: Positive): (dpi: real)
    ensures dpi * pageWidth == logicalDpi * displayWidth
  {
    logicalDpi * displayWidth / pageWidth
  }

  /** A page shown at `scale` of its size renders at `scale` times the logical DPI. */
  lemma PreviewDpiAtScale(logicalDpi: real, pageWidth: Positive, scale: real)
    ensures PreviewDpi(logicalDpi, pageWidth * scale, pageWidth) == logicalDpi * scale
  {
    var dpi := PreviewDpi(logicalDpi, pageWidth * scale, pageWidth);
    assert dpi * pageWidth == (logicalDpi * scale) * pageWidth;
  }

  /** The page-sized render target at the preview DPI has exactly as many
      pixels across as the display area at the logical DPI. */
  lemma PreviewPixelsMatchDisplay(logicalDpi: real, displayWidth: real, pageWidth: Positive)
    ensures Pixels(pageWidth, PreviewDpi(logicalDpi, displayWidth, pageWidth)) == Pixels(displayWidth, logicalDpi)
  {
    var dpi := PreviewDpi(logicalDpi, displayWidth, pageWidth);
    assert pageWidth * dpi == displayWidth * logicalDpi;
  }
}
