/**
 * The document list of the upload feature: the mapping from the server's
 * indexing status to the four states the UI shows, and the normalisation
 * of the list payload.
 */
module UploadApi {
  import opened Base
  import opened Js

  /** What the document table shows for a document. */
  datatype UiStatus = Ready | Processing | Error | Waiting

  /** The server's status words and their UI states (`statusMap`). */
  function StatusMap(): map<string, UiStatus> {
    map["INDEXED" := Ready, "INDEXING" := Processing, "FAILED" := Error, "UPLOADED" := Waiting]
  }

  /**
   * `mapDocumentStatus`: a known status maps through the table; an absent,
   * empty or unknown status shows as waiting.
   */
  function MapDocumentStatus(status: Option<string>): (r: UiStatus)
    ensures r == Ready <==> status == Some("INDEXED")
    ensures r == Processing <==> status == Some("INDEXING")
    ensures r == Error <==> status == Some("FAILED")
    ensures r == Waiting <==> status !in {Some("INDEXED"), Some("INDEXING"), Some("FAILED")}
  {
    if status.None? || status.value == "" then Waiting
    else if status.value in StatusMap() then StatusMap()[status.value]
    else Waiting
  }

  /**
   * `normalizeDocuments`: a list payload is the list; an object whose `data`
   * is a list yields that list; anything else yields no documents.
   */
  function NormalizeDocuments(payload: Value): (r: seq<Value>)
    ensures payload.Arr? ==> r == payload.items
    ensures payload.Obj? && Get(payload, "data").Arr? ==> r == Get(payload, "data").items
    ensures !payload.Arr? && !(payload.Obj? && Get(payload, "data").Arr?) ==> r == []
  {
    if payload.Arr? then payload.items
    else if Truthy(payload) && IsObject(payload) && Get(payload, "data").Arr? then Get(payload, "data").items
    else []
  }
}
