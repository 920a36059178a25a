/**
 * The arguments of PrintTaskOptionsChanged: the page on display, the task
 * options, and the page the preview should move to, which the handler may
 * set to any page number from 1 up.
 */
module PrintTaskOptionsChanged {
  import opened Printing
  import opened PageNumbers

  class CanvasPrintTaskOptionsChangedEventArgs {
    const currentPreviewPageNumber: UInt32
    const printTaskOptions: PrintTaskOptions
    var newPreviewPageNumber: UInt32

    ghost predicate Valid()
      reads this
    {
      IsValidNewPreviewPage(newPreviewPageNumber)
    }

    constructor (currentPreviewPageNumber: UInt32, printTaskOptions: PrintTaskOptions)
      ensures Valid()
      ensures this.currentPreviewPageNumber == currentPreviewPageNumber
      ensures this.printTaskOptions == printTaskOptions
      ensures newPreviewPageNumber == 1
    {
      this.currentPreviewPageNumber := currentPreviewPageNumber;
      this.printTaskOptions := printTaskOptions;
      newPreviewPageNumber := 1;
    }

    method GetCurrentPreviewPageNumber(hasOutput: bool) returns (hr: HResult, value: UInt32)
      ensures hr == (if hasOutput then Ok else InvalidArg)
      ensures hr == Ok ==> value == currentPreviewPageNumber
    {
      if !hasOutput {
        return InvalidArg, 0;
      }
      return Ok, currentPreviewPageNumber;
    }

    method GetNewPreviewPageNumber(hasOutput: bool) returns (hr: HResult, value: UInt32)
      ensures hr == (if hasOutput then Ok else InvalidArg)
      ensures hr == Ok ==> value == newPreviewPageNumber
    {
      if !hasOutput {
        return InvalidArg, 0;
      }
      return Ok, newPreviewPageNumber;
    }

    method GetPrintTaskOptions(hasOutput: bool) returns (hr: HResult, value: PrintTaskOptions?)
      ensures hr == (if hasOutput then Ok else InvalidArg)
      ensures value == (if hasOutput then printTaskOptions else null)
    {
      if !hasOutput {
        return InvalidArg, null;
      }
      return Ok, printTaskOptions;
    }

    /** The deferral itself has no behaviour here; only the null check does. */
    method GetDeferral(hasOutput: bool) returns (hr: HResult)
      ensures hr == Ok <==> hasOutput
      ensures hr != Ok ==> hr == InvalidArg
    {
      hr := if hasOutput then Ok else InvalidArg;
    }

    /** Page 0 is refused with invalid-argument and changes nothing; every
        other page number is stored and read back unchanged. */
    method PutNewPreviewPageNumber(value: UInt32) returns (hr: HResult)
      requires Valid()
      modifies this`newPreviewPageNumber
      ensures Valid()
      ensures hr == (if value >= 1 then Ok else InvalidArg)
      ensures newPreviewPageNumber == PageAfterRequest(old(newPreviewPageNumber), value)
      ensures newPreviewPageNumber == (if hr == Ok then value else old(newPreviewPageNumber))
    {
      if !IsValidNewPreviewPage(value) {
        return InvalidArg;
      }
      newPreviewPageNumber := value;
      return Ok;
    }
  }
}
