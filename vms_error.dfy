/**
 * The error table of the `vms` package: every error the HTTP handlers answer
 * with carries a machine-readable code, a message for people and the HTTP
 * status of the response.
 */
module VmsErrors {

  /** `apperror.Error`; its `Error()` is the message. */
  datatype AppError = AppError(code: string, message: string, httpStatus: int)
  {
    function Error(): string
    {
      message
    }
  }

  const StatusOK := 200
  const StatusAccepted := 202
  const StatusNoContent := 204
  const StatusBadRequest := 400
  const StatusNotFound := 404
  const StatusMethodNotAllowed := 405
  const StatusConflict := 409
  const StatusUnsupportedMediaType := 415
  const StatusInternalServerError := 500

  const ErrInternal := AppError(
    "internal-error",
    "Whops! Our team is currently looking into this. Apologies for the inconvenience",
    StatusInternalServerError)

  const ErrVMNotFound := AppError(
    "vm-not-found",
    "The requested virtual machine ID was not found",
    StatusNotFound)

  const ErrReadingReqBody := AppError(
    "request-io-error",
    "There was an IO error while reading request's body. Please try again.",
    StatusBadRequest)

  const ErrParsingJSON := AppError(
    "invalid-json",
    "There was an error parsing the provided JSON message. Please try again.",
    StatusUnsupportedMediaType)

  const ErrCreatingVM := AppError(
    "vm-create-error",
    "There was an unexpected error trying to create the virtual machine. We are looking into it.",
    StatusInternalServerError)

  const ErrOpeningVM := AppError(
    "vm-open-error",
    "The VM was found but we were unable to open its configuration file. "
    + "Caused, most likely, by a corrupt VMX file or a stalled lock.",
    StatusConflict)

  /** The callback payload when marshalling the result fails; it sets no HTTP status. */
  const ErrCbURL := AppError(
    "err-marshalling-response",
    "There was an error marshaling the response. Please try again creating your virtual machine.",
    0)

  /** All seven errors of the package. */
  function Table(): (t: seq<AppError>)
    ensures |t| == 7
    ensures forall i, j :: 0 <= i < j < |t| ==> t[i].code != t[j].code
    ensures forall i :: 0 <= i < |t| ==> t[i].message != "" && 0 <= t[i].httpStatus < 600
  {
    var t := [ErrInternal, ErrVMNotFound, ErrReadingReqBody, ErrParsingJSON, ErrCreatingVM, ErrOpeningVM, ErrCbURL];
    assert |t[0].code| == 14 && |t[1].code| == 12 && |t[2].code| == 16 && |t[3].code| == 12;
    assert |t[4].code| == 15 && |t[5].code| == 13 && |t[6].code| == 24;
    assert t[1].code[0] != t[3].code[0];
    t
  }

  /** The status each error answers with. */
  lemma Statuses()
    ensures ErrVMNotFound.httpStatus == 404 && ErrOpeningVM.httpStatus == 409
    ensures ErrReadingReqBody.httpStatus == 400 && ErrParsingJSON.httpStatus == 415
    ensures ErrInternal.httpStatus == 500 && ErrCreatingVM.httpStatus == 500
    ensures ErrCbURL.httpStatus == 0
  {
  }

  /** An error is determined by its code: no two entries of the table share one. */
  lemma CodeDetermines(e1: AppError, e2: AppError)
    requires e1 in Table() && e2 in Table() && e1.code == e2.code
    ensures e1 == e2
  {
    var t := Table();
    var i :| 0 <= i < |t| && t[i] == e1;
    var j :| 0 <= j < |t| && t[j] == e2;
  }
}
