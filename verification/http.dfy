/** FastAPI's `HTTPException`, the error every endpoint of the backend raises. */
module Http {
  import opened Text

  datatype HttpError = HttpError(status: nat, detail: string)

  /** `str(e)` for an `HTTPException`, which Starlette renders as
      "{status_code}: {detail}"; the routes embed it when they re-wrap an
      exception. */
  function ExceptionText(e: HttpError): string {
    NatToString(e.status) + ": " + e.detail
  }
}
