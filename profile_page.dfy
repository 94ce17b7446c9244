/**
 * The decision rules of the profile page: the message shown for a failed
 * API call, the date and role labels, the avatar size guard, and how a JSON
 * POST's response is classified into data or a request error.
 */
module ProfilePage {
  import opened Base
  import opened Js

  /** `MAX_AVATAR_BYTES`: 2 MiB. */
  const MaxAvatarBytes: int := 2 * 1024 * 1024

  /** The optional overrides of `getApiErrorMessage`. */
  datatype MessageOptions = MessageOptions(forbidden: Option<string>, unauthenticated: Option<string>)

  /**
   * `getApiErrorMessage`. For an object error: status 401 and 403 give their
   * override or their default text, in that order of priority; otherwise a
   * truthy `message` field is the result. Anything else gives the fallback.
   * (An `Error` is an object carrying its `message`, so its own branch adds
   * nothing to the object branch.)
   */
  function GetApiErrorMessage(error: Value, fallback: string, options: MessageOptions): (r: Value)
    ensures IsObject(error) && Get(error, "status") == Num(401) ==>
              r == Str(OrElse(options.unauthenticated, "未登录，请先登录"))
    ensures IsObject(error) && Get(error, "status") == Num(403) ==>
              r == Str(OrElse(options.forbidden, "无权限执行当前操作"))
    ensures IsObject(error) && Get(error, "status") !in {Num(401), Num(403)} && Truthy(Get(error, "message")) ==>
              r == Get(error, "message")
    ensures !IsObject(error) || (Get(error, "status") !in {Num(401), Num(403)} && !Truthy(Get(error, "message"))) ==>
              r == Str(fallback)
    ensures r.Str? && r.s == "" ==> r == Str(fallback) && fallback == ""
  {
    if Truthy(error) && IsObject(error) then
      var status := Get(error, "status");
      var message := Get(error, "message");
      if status == Num(401) then Str(OrElse(options.unauthenticated, "未登录，请先登录"))
      else if status == Num(403) then Str(OrElse(options.forbidden, "无权限执行当前操作"))
      else if Truthy(message) then message
      else Str(fallback)
    else Str(fallback)
  }

  /**
   * `formatDate`: "--" for a missing or empty value, otherwise the part of
   * the timestamp before its first 'T' (the whole value when it has none).
   */
  function FormatDate(value: Option<string>): (r: string)
    ensures value.None? || value.value == "" ==> r == "--"
    ensures value.Some? && value.value != "" ==>
              && r <= value.value && 'T' !in r
              && (r == value.value || value.value[|r|] == 'T')
    ensures value.Some? && 'T' !in value.value && value.value != "" ==> r == value.value
  {
    if value.None? || value.value == "" then "--" else PrefixBefore(value.value, 'T')
  }

  /** The date part of an ISO timestamp is what `formatDate` shows. */
  lemma FormatDateOfTimestamp(date: string, time: string)
    requires date != "" && 'T' !in date
    ensures FormatDate(Some(date + "T" + time)) == date
  {
    var s := date + "T" + time;
    assert s[|date|] == 'T';
    assert forall k :: 0 <= k < |date| ==> s[k] == date[k];
  }

  /** `roleLabel`: fixed labels for the missing role, `admin` and `ban`; any other role is shown as it is. */
  function RoleLabel(role: Option<string>): (r: string)
    ensures role.None? || role.value == "" ==> r == "用户"
    ensures role == Some("admin") ==> r == "Administrator"
    ensures role == Some("ban") ==> r == "Suspended"
    ensures role.Some? && role.value !in {"", "admin", "ban"} ==> r == role.value
    ensures r != ""
  {
    if role.None? || role.value == "" then "用户"
    else if role.value == "admin" then "Administrator"
    else if role.value == "ban" then "Suspended"
    else role.value
  }

  /** `file.size > MAX_AVATAR_BYTES`, the guard applied on selection and again on upload. */
  predicate TooLarge(size: int) {
    size > MaxAvatarBytes
  }

  /** What `handleFileChange` does with the chosen file (its size, None when no file was chosen). */
  datatype Selection = NothingChosen | RejectedTooLarge | Selected(size: int)

  function SelectFile(chosen: Option<int>): (r: Selection)
    ensures chosen.None? <==> r == NothingChosen
    ensures r == RejectedTooLarge <==> chosen.Some? && chosen.value > 2097152
    ensures r.Selected? ==> r.size == chosen.value && r.size <= 2097152
  {
    if chosen.None? then NothingChosen
    else if TooLarge(chosen.value) then RejectedTooLarge
    else Selected(chosen.value)
  }

  /** What `handleUpload` does before any request, given the size of the selected file. */
  datatype UploadStart = WarnNoFile | RejectUpload | StartUpload(size: int)

  function BeginUpload(selected: Option<int>): (r: UploadStart)
    ensures selected.None? <==> r == WarnNoFile
    ensures r == RejectUpload <==> selected.Some? && selected.value > 2097152
    ensures r.StartUpload? ==> r.size == selected.value && r.size <= 2097152
  {
    if selected.None? then WarnNoFile
    else if TooLarge(selected.value) then RejectUpload
    else StartUpload(selected.value)
  }

  /**
   * The two guards agree: a file that selection keeps is uploaded, and no
   * file over the limit ever reaches the upload request, however it got
   * selected.
   */
  lemma SizeGuardsAgree(chosen: Option<int>, selected: Option<int>)
    ensures SelectFile(chosen).Selected? ==> BeginUpload(Some(SelectFile(chosen).size)).StartUpload?
    ensures BeginUpload(selected).StartUpload? ==> BeginUpload(selected).size <= MaxAvatarBytes
  {
  }

  /** The `RequestError` `requestJson` throws. */
  datatype RequestError = RequestError(status: int, message: string, code: Option<int>)

  /** The thrown record as a value: all three keys are own properties, `code` possibly undefined. */
  function ErrorValue(e: RequestError): Value {
    Obj(map["status" := Num(e.status), "message" := Str(e.message),
            "code" := if e.code.Some? then Num(e.code.value) else Undefined])
  }

  /**
   * The classification in `requestJson`. `payload` is the parsed body (None
   * when the body is not JSON). A non-OK response fails with its status and
   * the payload's message, else the status text, else "请求失败"; an OK
   * response whose payload carries a present non-zero code fails with the
   * payload's message or "请求失败"; anything else yields `payload.data`.
   */
  function ClassifyResponse(ok: bool, status: int, statusText: string, payload: Option<BaseResponse>)
    : (r: Result<Option<Value>, RequestError>)
    ensures !ok ==> r == Err(RequestError(status,
                               OrElse(if payload.Some? then payload.value.message else None,
                                      if statusText != "" then statusText else "请求失败"),
                               if payload.Some? then payload.value.code else None))
    ensures ok && RejectsCode(payload) ==>
              r == Err(RequestError(status, OrElse(payload.value.message, "请求失败"), payload.value.code))
    ensures r.Ok? <==> ok && !RejectsCode(payload)
    ensures r.Ok? ==> r.value == if payload.Some? then payload.value.data else None
    ensures r.Err? ==> r.error.status == status && r.error.message != ""
  {
    if !ok then
      var message := if payload.Some? then payload.value.message else None;
      Err(RequestError(status, OrElse(message, if statusText != "" then statusText else "请求失败"),
                       if payload.Some? then payload.value.code else None))
    else if RejectsCode(payload) then
      Err(RequestError(status, OrElse(payload.value.message, "请求失败"), payload.value.code))
    else Ok(if payload.Some? then payload.value.data else None)
  }

  /**
   * What the page shows for a failed request: 401 and 403 are reported by
   * their fixed texts (or overrides), every other failure by the request's
   * own non-empty message — the caller's fallback is never needed.
   */
  lemma RequestFailureMessage(ok: bool, status: int, statusText: string, payload: Option<BaseResponse>,
                              fallback: string, options: MessageOptions)
    requires ClassifyResponse(ok, status, statusText, payload).Err?
    ensures var e := ClassifyResponse(ok, status, statusText, payload).error;
            var shown := GetApiErrorMessage(ErrorValue(e), fallback, options);
            && (status == 401 ==> shown == Str(OrElse(options.unauthenticated, "未登录，请先登录")))
            && (status == 403 ==> shown == Str(OrElse(options.forbidden, "无权限执行当前操作")))
            && (status != 401 && status != 403 ==> shown == Str(e.message) && e.message != "")
  {
    var e := ClassifyResponse(ok, status, statusText, payload).error;
    assert Get(ErrorValue(e), "status") == Num(status);
    assert Get(ErrorValue(e), "message") == Str(e.message);
  }
}
