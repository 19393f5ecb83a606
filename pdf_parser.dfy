/**
 * tools/pdf_parser.py: the MinerU round trip. The upload-link request, the
 * polling loop and the download are HTTP replies supplied by the caller
 * (`requests` is foreign); the downloaded zip is its name list and a reader;
 * the time-based deadline is a number of polls. What is modelled is how the
 * replies are checked, when polling stops, and how the archive becomes text
 * chunks and figures.
 */
module PdfParser {
  import opened Wrappers
  import opened Text
  import opened Json
  import opened Schema
  import JsonOps = Json
  import Codec

  /** The status code and body of an HTTP response. */
  datatype HttpResponse = HttpResponse(status: int, text: string)

  /** One HTTP request: its response, or the message of the exception `requests` raised. */
  type HttpReply = Result<HttpResponse, string>

  // ---------------------------------------------------------------------------
  // _get_upload_url

  const NoFileUrls := "API返回的 file_urls 为空"

  /** `v[0]` on a truthy value: the first element of a list, the first character of a string. */
  function First(v: Json): (r: Result<Json, string>)
    ensures v.JArr? && v.items != [] ==> r == Ok(v.items[0])
  {
    match v
    case JArr(items) => if items != [] then Ok(items[0]) else Err("list index out of range")
    case JStr(s) => if s != [] then Ok(JStr([s[0]])) else Err("string index out of range")
    case JObj(_) => Err("0")
    case _ => Err("'" + TypeName(v) + "' object is not subscriptable")
  }

  /** `data['batch_id']` and the first of `data['file_urls']`, which must be truthy. */
  function UploadData(data: Json): Result<(Json, Json), string>
  {
    var batchId := Index(data, "batch_id");
    if batchId.Err? then Err(batchId.error)
    else
      var urls := Index(data, "file_urls");
      if urls.Err? then Err(urls.error)
      else if !JsonOps.Truthy(urls.value) then Err(NoFileUrls)
      else
        var first := First(urls.value);
        if first.Err? then Err(first.error) else Ok((batchId.value, first.value))
  }

  /** `_get_upload_url`: the batch id and the upload URL, or the message of the exception raised. */
  function UploadTarget(reply: HttpReply, loads: Loads): Result<(Json, Json), string>
  {
    if reply.Err? then Err(reply.error)
    else if reply.value.status != 200 then
      Err("请求API失败 Status: " + IntToString(reply.value.status) + ", Msg: " + reply.value.text)
    else
      var j := loads(reply.value.text);
      if j.Err? then Err(j.error)
      else if !j.value.JObj? then Err(NoGetMessage(j.value))
      else
        var code := GetOr(j.value.fields, "code", JNull);
        if !EqualsZero(code) then
          Err("获取上传链接失败 Code: " + Show(code) + ", Msg: " + Show(GetOr(j.value.fields, "msg", JNull)))
        else
          var data := Index(j.value, "data");
          if data.Err? then Err(data.error) else UploadData(data.value)
  }

  /** A reply with status 200, code 0 and a non-empty `file_urls` list yields its batch id and first URL. */
  lemma UploadSucceeds(reply: HttpReply, loads: Loads, batchId: Json, urls: seq<Json>, rest: map<string, Json>)
    requires reply.Ok? && reply.value.status == 200
    requires loads(reply.value.text).Ok? && loads(reply.value.text).value.JObj?
    requires EqualsZero(GetOr(loads(reply.value.text).value.fields, "code", JNull))
    requires GetOr(loads(reply.value.text).value.fields, "data", JNull) == JObj(rest)
    requires GetOr(rest, "batch_id", JNull) == batchId && "batch_id" in rest
    requires GetOr(rest, "file_urls", JNull) == JArr(urls) && urls != []
    ensures UploadTarget(reply, loads) == Ok((batchId, urls[0]))
  {
    var d := loads(reply.value.text).value;
    assert Index(d, "data") == Ok(JObj(rest));
    assert Index(JObj(rest), "batch_id") == Ok(batchId);
    assert Index(JObj(rest), "file_urls") == Ok(JArr(urls));
  }

  /** Each of the three rejections the source names: status, code, and an empty `file_urls`. */
  lemma UploadRejects(reply: HttpReply, loads: Loads)
    requires reply.Ok?
    ensures reply.value.status != 200 ==> UploadTarget(reply, loads).Err?
    ensures reply.value.status == 200 && loads(reply.value.text).Ok? && loads(reply.value.text).value.JObj?
              && !EqualsZero(GetOr(loads(reply.value.text).value.fields, "code", JNull)) ==>
              UploadTarget(reply, loads).Err? && StartsWith(UploadTarget(reply, loads).error, "获取上传链接失败 Code: ")
    ensures reply.value.status == 200 && loads(reply.value.text).Ok? && loads(reply.value.text).value.JObj?
              && EqualsZero(GetOr(loads(reply.value.text).value.fields, "code", JNull))
              && GetOr(loads(reply.value.text).value.fields, "data", JNull).JObj?
              && "batch_id" in GetOr(loads(reply.value.text).value.fields, "data", JNull).fields
              && GetOr(GetOr(loads(reply.value.text).value.fields, "data", JNull).fields, "file_urls", JNull) == JArr([]) ==>
              UploadTarget(reply, loads) == Err(NoFileUrls)
  {
    if reply.value.status == 200 && loads(reply.value.text).Ok? && loads(reply.value.text).value.JObj? {
      var d := loads(reply.value.text).value;
      var code := GetOr(d.fields, "code", JNull);
      if !EqualsZero(code) {
        var m := "获取上传链接失败 Code: " + Show(code) + ", Msg: " + Show(GetOr(d.fields, "msg", JNull));
        assert m == "获取上传链接失败 Code: " + (Show(code) + ", Msg: " + Show(GetOr(d.fields, "msg", JNull)));
      }
    }
  }

  // ---------------------------------------------------------------------------
  // _poll_batch_task

  const TimeoutMessage := "解析任务超时"
  /** The text that makes the generic handler re-raise instead of polling again. */
  const FatalMarker := "服务端解析失败"
  const UnknownError := "未知错误"
  /** The start of the exception raised for a non-zero code. */
  const CodeFailurePrefix := "查询任务失败: "

  /**
   * A message that ends polling: it names a server-side failure, or it is the
   * exception for a non-zero code whose list or dict `msg` does (the model
   * renders such a `msg` by a stand-in naming its type).
   */
  predicate NamesFailure(m: string)
  {
    Contains(m, FatalMarker) || m == CodeFailurePrefix + "<list>" || m == CodeFailurePrefix + "<dict>"
  }

  /** What one poll leads to. */
  datatype PollStep = Continue | Finished(task: map<string, Json>) | Fatal(message: string)

  /** The generic handler: re-raise an exception whose message names a server-side failure, otherwise poll again. */
  function Handled(message: string): (s: PollStep)
    ensures s.Continue? || s == Fatal(message)
  {
    if Contains(message, FatalMarker) then Fatal(message) else Continue
  }

  /** Every one of the first `n` items has a `file_name`, and none of them is `target`. */
  predicate MissesBefore(items: seq<Json>, target: string, n: nat)
    requires n <= |items|
  {
    forall j :: 0 <= j < n ==> Index(items[j], "file_name").Ok? && Index(items[j], "file_name").value != JStr(target)
  }

  /**
   * `next(t for t in items if t['file_name'] == target)`, or the message of the
   * exception raised on the way: the first item whose name is the target, or
   * the first item that cannot be asked for its name.
   */
  function FindIn(items: seq<Json>, target: string): (r: Result<Option<map<string, Json>>, string>)
    ensures r.Ok? && r.value.None? ==> MissesBefore(items, target, |items|)
    ensures r.Ok? && r.value.Some? ==>
              exists i :: 0 <= i < |items| && MissesBefore(items, target, i) && items[i] == JObj(r.value.value)
                && Index(items[i], "file_name") == Ok(JStr(target))
    ensures r.Err? ==>
              exists i :: 0 <= i < |items| && MissesBefore(items, target, i) && Index(items[i], "file_name") == Err(r.error)
    ensures r.Ok? && r.value.Some? ==> Get(r.value.value, "file_name") == Some(JStr(target))
    decreases |items|
  {
    if items == [] then Ok(None)
    else
      var name := Index(items[0], "file_name");
      if name.Err? then
        assert MissesBefore(items, target, 0);
        Err(name.error)
      else if name.value == JStr(target) then
        assert MissesBefore(items, target, 0);
        Ok(Some(items[0].fields))
      else
        var r := FindIn(items[1..], target);
        MissesShift(items, target);
        r
  }

  /** A miss at the head shifts every prefix of misses in the tail by one. */
  lemma MissesShift(items: seq<Json>, target: string)
    requires items != [] && Index(items[0], "file_name").Ok? && Index(items[0], "file_name").value != JStr(target)
    ensures forall n :: 0 <= n <= |items| - 1 && MissesBefore(items[1..], target, n) ==> MissesBefore(items, target, n + 1)
  {
    forall n | 0 <= n <= |items| - 1 && MissesBefore(items[1..], target, n)
      ensures MissesBefore(items, target, n + 1)
    {
      forall j | 0 <= j < n + 1
        ensures Index(items[j], "file_name").Ok? && Index(items[j], "file_name").value != JStr(target)
      {
        if j > 0 {
          assert items[j] == items[1..][j - 1];
        }
      }
    }
  }

  /** The same lookup on whatever `extract_result` holds: iterating a string or a dict yields strings, which cannot be indexed by a name. */
  function FindTask(results: Json, target: string): Result<Option<map<string, Json>>, string>
  {
    match results
    case JArr(items) => FindIn(items, target)
    case JStr(s) => if s == [] then Ok(None) else Err("string indices must be integers, not 'str'")
    case JObj(m) => if m == map[] then Ok(None) else Err("string indices must be integers, not 'str'")
    case _ => Err("'" + TypeName(results) + "' object is not iterable")
  }

  /** The task's state: done ends polling, failed raises, anything else polls again. */
  function TaskStep(task: map<string, Json>): PollStep
  {
    var state := GetOr(task, "state", JNull);
    if state == JStr("done") then Finished(task)
    else if state == JStr("failed") then Handled(FatalMarker + ": " + Show(GetOr(task, "err_msg", JStr(UnknownError))))
    else if state == JStr("running") && "extract_progress" in task && !task["extract_progress"].JObj? then
      Handled(NoGetMessage(task["extract_progress"]))
    else Continue
  }

  /**
   * One pass of the polling loop's body on one reply. A bad status and a body
   * that is not JSON poll again directly; every other exception goes to the
   * generic handler, including the one raised for a non-zero code.
   */
  function Examine(reply: HttpReply, loads: Loads, target: string): PollStep
  {
    if reply.Err? then Handled(reply.error)
    else if reply.value.status != 200 then Continue
    else
      var j := loads(reply.value.text);
      if j.Err? then Continue
      else if !j.value.JObj? then Handled(NoGetMessage(j.value))
      else if !EqualsZero(GetOr(j.value.fields, "code", JNull)) then
        // The handler looks for the marker in Python's rendering of `msg`,
        // which holds it exactly when some string inside `msg` does.
        var msg := GetOr(j.value.fields, "msg", JNull);
        if Mentions(msg, FatalMarker) then Fatal(CodeFailurePrefix + Show(msg)) else Continue
      else
        var data := Index(j.value, "data");
        if data.Err? then Handled(data.error)
        else if !data.value.JObj? then Handled(NoGetMessage(data.value))
        else
          var found := FindTask(GetOr(data.value.fields, "extract_result", JArr([])), target);
          if found.Err? then Handled(found.error)
          else if found.value.None? then Continue
          else TaskStep(found.value.value)
  }

  /** Polling from the k-th request on, when the deadline passes before the `budget`-th. */
  function PollFrom(budget: nat, get: nat -> HttpReply, loads: Loads, target: string, k: nat): Result<map<string, Json>, string>
    decreases budget - k
  {
    if k >= budget then Err(TimeoutMessage)
    else
      match Examine(get(k), loads, target)
      case Continue => PollFrom(budget, get, loads, target, k + 1)
      case Finished(task) => Ok(task)
      case Fatal(m) => Err(m)
  }

  /** `_poll_batch_task`; `get(k)` is the reply to the k-th status request. */
  method PollBatchTask(budget: nat, get: nat -> HttpReply, loads: Loads, target: string) returns (r: Result<map<string, Json>, string>)
    ensures r == PollFrom(budget, get, loads, target, 0)
  {
    var polls := 0;
    while polls < budget
      invariant polls <= budget
      invariant PollFrom(budget, get, loads, target, 0) == PollFrom(budget, get, loads, target, polls)
      decreases budget - polls
    {
      var step := Examine(get(polls), loads, target);
      match step {
        case Finished(task) => return Ok(task);
        case Fatal(m) => return Err(m);
        case Continue =>
      }
      polls := polls + 1;
    }
    return Err(TimeoutMessage);
  }

  /**
   * Polling returns a task only when some request within the budget found it
   * done, and raises only on the deadline or a server-side failure.
   */
  lemma {:induction false} PollOutcome(budget: nat, get: nat -> HttpReply, loads: Loads, target: string, k: nat)
    ensures PollFrom(budget, get, loads, target, k).Ok? ==>
              exists i :: k <= i < budget && Examine(get(i), loads, target) == Finished(PollFrom(budget, get, loads, target, k).value)
    ensures PollFrom(budget, get, loads, target, k).Err? ==>
              PollFrom(budget, get, loads, target, k).error == TimeoutMessage || NamesFailure(PollFrom(budget, get, loads, target, k).error)
    decreases budget - k
  {
    if k < budget {
      PollOutcome(budget, get, loads, target, k + 1);
      var s := Examine(get(k), loads, target);
      if s.Fatal? {
        FatalNamesFailure(get(k), loads, target);
      }
    }
  }

  /** A reply that keeps polling on every request runs into the deadline. */
  lemma {:induction false} PollTimesOut(budget: nat, get: nat -> HttpReply, loads: Loads, target: string, k: nat)
    requires forall i :: k <= i < budget ==> Examine(get(i), loads, target) == Continue
    ensures PollFrom(budget, get, loads, target, k) == Err(TimeoutMessage)
    decreases budget - k
  {
    if k < budget {
      PollTimesOut(budget, get, loads, target, k + 1);
    }
  }

  lemma FatalNamesFailure(reply: HttpReply, loads: Loads, target: string)
    ensures Examine(reply, loads, target).Fatal? ==> NamesFailure(Examine(reply, loads, target).message)
  {
    if reply.Ok? && reply.value.status == 200 && loads(reply.value.text).Ok? && loads(reply.value.text).value.JObj? {
      var msg := GetOr(loads(reply.value.text).value.fields, "msg", JNull);
      if Mentions(msg, FatalMarker) {
        CodeFailureNamesFailure(msg);
      }
      var data := Index(loads(reply.value.text).value, "data");
      if data.Ok? && data.value.JObj? {
        var found := FindTask(GetOr(data.value.fields, "extract_result", JArr([])), target);
        if found.Ok? && found.value.Some? {
          TaskStepFatal(found.value.value);
        }
      }
    }
  }

  /** The exception for a code error whose `msg` mentions a server-side failure ends polling. */
  lemma CodeFailureNamesFailure(msg: Json)
    requires Mentions(msg, FatalMarker)
    ensures NamesFailure(CodeFailurePrefix + Show(msg))
  {
    if msg.JStr? {
      ContainsConcat(CodeFailurePrefix, msg.s, FatalMarker);
    } else if msg.JArr? {
      assert Show(msg) == "<list>";
    } else {
      assert Show(msg) == "<dict>";
    }
  }

  lemma TaskStepFatal(task: map<string, Json>)
    ensures TaskStep(task).Fatal? ==> Contains(TaskStep(task).message, FatalMarker)
  {
  }

  /** A task in state "failed" always ends polling with the server's error message (or "未知错误"). */
  lemma FailedIsFatal(task: map<string, Json>)
    requires GetOr(task, "state", JNull) == JStr("failed")
    ensures TaskStep(task) == Fatal(FatalMarker + ": " + Show(GetOr(task, "err_msg", JStr(UnknownError))))
  {
    var m := FatalMarker + ": " + Show(GetOr(task, "err_msg", JStr(UnknownError)));
    assert m == FatalMarker + (": " + Show(GetOr(task, "err_msg", JStr(UnknownError))));
    assert m[..|FatalMarker|] == FatalMarker;
  }

  /** A task in any state but done or failed (or not yet listed) keeps the loop polling. */
  lemma OtherStatesContinue(task: map<string, Json>)
    requires GetOr(task, "state", JNull) != JStr("done") && GetOr(task, "state", JNull) != JStr("failed")
    ensures TaskStep(task) == Continue
  {
    if GetOr(task, "state", JNull) == JStr("running") && "extract_progress" in task && !task["extract_progress"].JObj? {
      NoGetMessageAscii(task["extract_progress"]);
      AsciiLacksMarker(NoGetMessage(task["extract_progress"]));
    }
  }

  /**
   * A non-zero code raises inside the loop, but the generic handler swallows it
   * whenever the server's message does not itself name a server-side failure.
   */
  lemma CodeErrorKeepsPolling(reply: HttpReply, loads: Loads, target: string)
    requires reply.Ok? && reply.value.status == 200
    requires loads(reply.value.text).Ok? && loads(reply.value.text).value.JObj?
    requires !EqualsZero(GetOr(loads(reply.value.text).value.fields, "code", JNull))
    requires !Mentions(GetOr(loads(reply.value.text).value.fields, "msg", JNull), FatalMarker)
    ensures Examine(reply, loads, target) == Continue
  {
  }

  /** A non-zero code whose message names a server-side failure anywhere inside it ends polling. */
  lemma CodeErrorMentioningFails(reply: HttpReply, loads: Loads, target: string)
    requires reply.Ok? && reply.value.status == 200
    requires loads(reply.value.text).Ok? && loads(reply.value.text).value.JObj?
    requires !EqualsZero(GetOr(loads(reply.value.text).value.fields, "code", JNull))
    requires Mentions(GetOr(loads(reply.value.text).value.fields, "msg", JNull), FatalMarker)
    ensures Examine(reply, loads, target) == Fatal(CodeFailurePrefix + Show(GetOr(loads(reply.value.text).value.fields, "msg", JNull)))
  {
  }

  /**
   * For a `msg` that is None, a boolean, an integer or a string, whose text the
   * model renders exactly, the decision is the generic handler's on that text.
   */
  lemma CodeErrorIsHandled(reply: HttpReply, loads: Loads, target: string)
    requires reply.Ok? && reply.value.status == 200
    requires loads(reply.value.text).Ok? && loads(reply.value.text).value.JObj?
    requires !EqualsZero(GetOr(loads(reply.value.text).value.fields, "code", JNull))
    requires !GetOr(loads(reply.value.text).value.fields, "msg", JNull).JFloat?
    requires !GetOr(loads(reply.value.text).value.fields, "msg", JNull).JArr?
    requires !GetOr(loads(reply.value.text).value.fields, "msg", JNull).JObj?
    ensures Examine(reply, loads, target) == Handled(CodeFailurePrefix + Show(GetOr(loads(reply.value.text).value.fields, "msg", JNull)))
  {
    var msg := GetOr(loads(reply.value.text).value.fields, "msg", JNull);
    var text := Show(msg);
    forall i | 0 <= i < |CodeFailurePrefix| ensures CodeFailurePrefix[i] != FatalMarker[0] { }
    if Contains(CodeFailurePrefix + text, FatalMarker) {
      PastPrefix(CodeFailurePrefix, text, FatalMarker);
    }
    if msg.JStr? {
      if Contains(text, FatalMarker) {
        ContainsConcat(CodeFailurePrefix, text, FatalMarker);
      }
    } else {
      ShowScalarAscii(msg);
      AsciiLacksMarker(text);
    }
  }

  lemma ShowScalarAscii(v: Json)
    requires !v.JStr? && !v.JFloat? && !v.JArr? && !v.JObj?
    ensures Ascii(Show(v))
  {
    if v.JInt? {
      var d := Text.NatToString(if v.i < 0 then -v.i else v.i);
      assert Ascii(d);
      AsciiConcat("-", d);
    }
  }

  /** An occurrence in `a + b` of a text whose first character is not in `a` lies inside `b`. */
  lemma PastPrefix(a: string, b: string, t: string)
    requires t != [] && forall i :: 0 <= i < |a| ==> a[i] != t[0]
    requires Contains(a + b, t)
    ensures Contains(b, t)
  {
    var i := ContainsWitness(a + b, t);
    assert (a + b)[i] == t[0];
    assert i >= |a|;
    assert b[i - |a|..i - |a| + |t|] == (a + b)[i..i + |t|];
    ContainsAt(b, t, i - |a|);
  }

  predicate Ascii(s: string)
  {
    forall i :: 0 <= i < |s| ==> s[i] < '\U{80}'
  }

  lemma AsciiConcat(a: string, b: string)
    requires Ascii(a) && Ascii(b)
    ensures Ascii(a + b)
  {
  }

  lemma NoGetMessageAscii(v: Json)
    ensures Ascii(NoGetMessage(v))
  {
    var n := TypeName(v);
    assert Ascii(n);
    assert Ascii("'");
    assert Ascii("' object has no attribute 'get'");
    AsciiConcat("'", n);
    AsciiConcat("'" + n, "' object has no attribute 'get'");
  }

  /** No text made of ASCII characters names a server-side failure. */
  lemma AsciiLacksMarker(s: string)
    requires Ascii(s)
    ensures !Contains(s, FatalMarker)
    decreases |s|
  {
    assert !StartsWith(s, FatalMarker) by {
      assert |s| >= |FatalMarker| ==> s[..|FatalMarker|][0] == s[0];
    }
    if s != [] {
      assert Ascii(s[1..]);
      AsciiLacksMarker(s[1..]);
    }
  }

  // ---------------------------------------------------------------------------
  // _process_zip_result

  const ZipDownloadFailed := "下载解析结果ZIP失败"

  /** The downloaded zip: its names in listing order, and the contents of each member as text. */
  datatype Archive = Archive(names: seq<string>, read: string -> string)

  datatype ZipResponse = ZipResponse(status: int, archive: Archive)

  /** The names satisfying `p`, in order (a list comprehension with a condition). */
  function Filter(names: seq<string>, p: string -> bool): (r: seq<string>)
    ensures |r| <= |names|
    decreases |names|
  {
    if names == [] then []
    else Filter(names[..|names| - 1], p) + (if p(names[|names| - 1]) then [names[|names| - 1]] else [])
  }

  predicate IsContentList(n: string)
  {
    EndsWith(n, "content_list.json")
  }

  predicate IsMarkdown(n: string)
  {
    EndsWith(n, ".md")
  }

  predicate IsImage(n: string)
  {
    StartsWith(n, "images/") && !EndsWith(n, "/")
  }

  /** The figure id of an image file: the PDF's stem, "_", the file's name. */
  function UniqueName(stem: string, file: string): string
  {
    stem + "_" + PathName(file)
  }

  /**
   * Images with the same file name in different directories of the archive
   * get the same figure id: the name, after the document's stem.
   */
  lemma SameFileNameSameId(stem: string, imageDir: string, dir1: string, dir2: string, name: string)
    requires name != "" && name != "." && forall i :: 0 <= i < |name| ==> name[i] != '/'
    ensures NewFigure(stem, imageDir, dir1 + "/" + name).figureId == stem + "_" + name
    ensures NewFigure(stem, imageDir, dir2 + "/" + name).figureId == stem + "_" + name
  {
    PathNameOfFile(dir1, name);
    PathNameOfFile(dir2, name);
  }

  /** A freshly extracted image: page 0 and no caption until the content list says otherwise. */
  function NewFigure(stem: string, imageDir: string, file: string): FigureData
  {
    FigureData(UniqueName(stem, file), 0, imageDir + "/" + UniqueName(stem, file), None)
  }

  function NewFigures(stem: string, imageDir: string, files: seq<string>): (r: seq<FigureData>)
    ensures |r| == |files|
    decreases |files|
  {
    if files == [] then [] else NewFigures(stem, imageDir, files[..|files| - 1]) + [NewFigure(stem, imageDir, files[|files| - 1])]
  }

  predicate IsTextKind(kind: Json)
  {
    kind == JStr("text") || kind == JStr("title") || kind == JStr("section_header")
  }

  /** `page_idx + 1`, or the message of the TypeError Python raises. */
  function NextPage(v: Json): Result<Json, string>
  {
    match v
    case JInt(i) => Ok(JInt(i + 1))
    case JBool(b) => Ok(JInt(if b then 2 else 1))
    case JFloat(f) => Ok(JFloat(f + 1.0))
    case JStr(_) => Err("can only concatenate str (not \"int\") to str")
    case JArr(_) => Err("can only concatenate list (not \"int\") to list")
    case _ => Err("unsupported operand type(s) for +: '" + TypeName(v) + "' and 'int'")
  }

  /** An integer page number, as pydantic's lax mode validates one. */
  function PageNumber(v: Json, model: string): Result<int, string>
  {
    var n := LaxInt(v);
    if n.Some? then Ok(n.value) else Err(Codec.ValidationMessage(model, "page_number"))
  }

  /** The page an item of the content list is on: its 0-based `page_idx` (0 when absent) plus one. */
  function PageOf(d: map<string, Json>, model: string): Result<int, string>
  {
    var n := NextPage(GetOr(d, "page_idx", JInt(0)));
    if n.Err? then Err(n.error) else PageNumber(n.value, model)
  }

  /** The chunk for a text item with truthy text: the text stripped, on its page, under the given id. */
  function ChunkOf(d: map<string, Json>, id: string): Result<TextChunk, string>
    requires "text" in d
  {
    var n := NextPage(GetOr(d, "page_idx", JInt(0)));
    if n.Err? then Err(n.error)
    else if !d["text"].JStr? then Err("'" + TypeName(d["text"]) + "' object has no attribute 'strip'")
    else
      var page := PageNumber(n.value, "TextChunk");
      if page.Err? then Err(page.error) else Ok(TextChunk(id, page.value, Strip(d["text"].s)))
  }

  /** A figure given the page of its image item and, when that item has a truthy caption, the caption. */
  function Retitled(f: FigureData, page: int, caption: Option<string>): FigureData
  {
    f.(pageNumber := page, caption := if caption.Some? then caption else f.caption)
  }

  /**
   * The figures after one image item: those with the target id retitled, the
   * others unchanged; the page is computed only when some figure matches.
   */
  function Relabel(figs: seq<FigureData>, target: string, page: Result<int, string>, caption: Option<string>): (r: Result<seq<FigureData>, string>)
  {
    if forall j :: 0 <= j < |figs| ==> figs[j].figureId != target then Ok(figs)
    else if page.Err? then Err(page.error)
    else Ok(seq(|figs|, j requires 0 <= j < |figs| => if figs[j].figureId == target then Retitled(figs[j], page.value, caption) else figs[j]))
  }

  /** The caption an image item supplies: its truthy `caption`, a string as it is and any other value by a stand-in naming its type. */
  function CaptionOf(d: map<string, Json>): Option<string>
  {
    var c := GetOr(d, "caption", JNull);
    if JsonOps.Truthy(c) then Some(Show(c)) else None
  }

  /** `Path(img_path).name` needs a string. */
  function PathTypeMessage(v: Json): string
  {
    "expected str, bytes or os.PathLike object, not " + TypeName(v)
  }

  /**
   * One item of the content list: a text item adds a chunk (the `|chunks|`-th
   * id), an image item retitles its figures; anything that is not a dict raises.
   */
  function ItemStep(item: Json, stem: string, ids: nat -> string, chunks: seq<TextChunk>, figs: seq<FigureData>): Result<(seq<TextChunk>, seq<FigureData>), string>
  {
    if !item.JObj? then Err(NoGetMessage(item))
    else
      var d := item.fields;
      var kind := GetOr(d, "type", JNull);
      var added := if IsTextKind(kind) && JsonOps.Truthy(GetOr(d, "text", JNull)) then
          (var c := ChunkOf(d, ids(|chunks|)); if c.Err? then Err(c.error) else Ok(chunks + [c.value]))
        else Ok(chunks);
      if added.Err? then Err(added.error)
      else if kind == JStr("image") && JsonOps.Truthy(GetOr(d, "img_path", JNull)) then
        var p := d["img_path"];
        if !p.JStr? then Err(PathTypeMessage(p))
        else
          var r := Relabel(figs, stem + "_" + PathName(p.s), PageOf(d, "FigureData"), CaptionOf(d));
          if r.Err? then Err(r.error) else Ok((added.value, r.value))
      else Ok((added.value, figs))
  }

  /** The content list's items in order, from no chunks and the extracted figures. */
  function ContentItems(items: seq<Json>, stem: string, ids: nat -> string, figs: seq<FigureData>): Result<(seq<TextChunk>, seq<FigureData>), string>
    decreases |items|
  {
    if items == [] then Ok(([], figs))
    else
      var prev := ContentItems(items[..|items| - 1], stem, ids, figs);
      if prev.Err? then prev else ItemStep(items[|items| - 1], stem, ids, prev.value.0, prev.value.1)
  }

  const ParagraphBreak := "\n\n"

  /** Each paragraph stripped. */
  function StripAll(ps: seq<string>): (r: seq<string>)
    ensures |r| == |ps|
  {
    seq(|ps|, i requires 0 <= i < |ps| => Strip(ps[i]))
  }

  /** The non-empty texts among `qs`, as page-1 chunks in order, the k-th one under `ids(k)`. */
  function Kept(qs: seq<string>, ids: nat -> string): seq<TextChunk>
    decreases |qs|
  {
    if qs == [] then []
    else
      var prev := Kept(qs[..|qs| - 1], ids);
      var q := qs[|qs| - 1];
      if q != "" then prev + [TextChunk(ids(|prev|), 1, q)] else prev
  }

  /** The Markdown fallback: every non-blank paragraph, stripped, on page 1. */
  function Paragraphs(ps: seq<string>, ids: nat -> string): seq<TextChunk>
  {
    Kept(StripAll(ps), ids)
  }

  /**
   * `_process_zip_result`: the chunks and figures of the downloaded archive, or
   * the message of the exception raised. `ids(k)` is the id drawn for the k-th
   * chunk; `imageDir` is the absolute image directory.
   */
  function Processed(reply: Result<ZipResponse, string>, pdfPath: string, imageDir: string, loads: Loads, ids: nat -> string)
    : Result<(seq<TextChunk>, seq<FigureData>), string>
  {
    if reply.Err? then Err(reply.error)
    else if reply.value.status != 200 then Err(ZipDownloadFailed)
    else
      Converted(reply.value.archive, PathStem(pdfPath), imageDir, loads, ids)
  }

  /** The archive's text and figures: the first content list if any, else the first Markdown file, else no text. */
  function Converted(a: Archive, stem: string, imageDir: string, loads: Loads, ids: nat -> string)
    : Result<(seq<TextChunk>, seq<FigureData>), string>
  {
    var jsonFiles := Filter(a.names, IsContentList);
    var mdFiles := Filter(a.names, IsMarkdown);
    var figs := NewFigures(stem, imageDir, Filter(a.names, IsImage));
    if jsonFiles != [] then FromContentList(loads(a.read(jsonFiles[0])), stem, ids, figs)
    else if mdFiles != [] then Ok((Paragraphs(Split(a.read(mdFiles[0]), ParagraphBreak), ids), figs))
    else Ok(([], figs))
  }

  /** A decoded content list: its items if it is a list, no text otherwise; a decode error raises. */
  function FromContentList(content: Result<Json, string>, stem: string, ids: nat -> string, figs: seq<FigureData>)
    : Result<(seq<TextChunk>, seq<FigureData>), string>
  {
    if content.Err? then Err(content.error)
    else if content.value.JArr? then ContentItems(content.value.items, stem, ids, figs)
    else Ok(([], figs))
  }

  /** The figure loop: one figure per image entry, in listing order. */
  method ExtractFigures(stem: string, imageDir: string, files: seq<string>) returns (figs: seq<FigureData>)
    ensures figs == NewFigures(stem, imageDir, files)
  {
    figs := [];
    for i := 0 to |files|
      invariant figs == NewFigures(stem, imageDir, files[..i])
    {
      assert files[..i + 1][..i] == files[..i];
      var name := UniqueName(stem, files[i]);
      figs := figs + [FigureData(name, 0, imageDir + "/" + name, None)];
    }
    assert files[..|files|] == files;
  }

  /** The inner loop over the figures for one image item, updating the matching ones in place. */
  method RelabelFigures(figs: seq<FigureData>, target: string, d: map<string, Json>) returns (r: Result<seq<FigureData>, string>)
    ensures r == Relabel(figs, target, PageOf(d, "FigureData"), CaptionOf(d))
  {
    var out := figs;
    ghost var matched := false;
    for j := 0 to |figs|
      invariant |out| == |figs|
      invariant matched <==> exists m :: 0 <= m < j && figs[m].figureId == target
      invariant matched ==> PageOf(d, "FigureData").Ok?
      invariant forall m :: j <= m < |figs| ==> out[m] == figs[m]
      invariant forall m :: 0 <= m < j ==> out[m] == (if figs[m].figureId == target then Retitled(figs[m], PageOf(d, "FigureData").value, CaptionOf(d)) else figs[m])
    {
      if out[j].figureId == target {
        var page := PageOf(d, "FigureData");
        if page.Err? {
          return Err(page.error);
        }
        out := out[j := Retitled(out[j], page.value, CaptionOf(d))];
        matched := true;
      }
    }
    if !matched {
      assert out == figs;
    } else {
      assert out == seq(|figs|, j requires 0 <= j < |figs| =>
        if figs[j].figureId == target then Retitled(figs[j], PageOf(d, "FigureData").value, CaptionOf(d)) else figs[j]);
    }
    return Ok(out);
  }

  /** One item of the content list, as the body of the item loop. */
  method HandleItem(item: Json, stem: string, ids: nat -> string, chunks: seq<TextChunk>, figs: seq<FigureData>)
    returns (r: Result<(seq<TextChunk>, seq<FigureData>), string>)
    ensures r == ItemStep(item, stem, ids, chunks, figs)
  {
    if !item.JObj? {
      return Err(NoGetMessage(item));
    }
    var d := item.fields;
    var kind := GetOr(d, "type", JNull);
    var added := chunks;
    if IsTextKind(kind) && JsonOps.Truthy(GetOr(d, "text", JNull)) {
      var c := ChunkOf(d, ids(|chunks|));
      if c.Err? {
        return Err(c.error);
      }
      added := chunks + [c.value];
    }
    if kind == JStr("image") && JsonOps.Truthy(GetOr(d, "img_path", JNull)) {
      var p := d["img_path"];
      if !p.JStr? {
        return Err(PathTypeMessage(p));
      }
      var relabelled := RelabelFigures(figs, stem + "_" + PathName(p.s), d);
      if relabelled.Err? {
        return Err(relabelled.error);
      }
      return Ok((added, relabelled.value));
    }
    return Ok((added, figs));
  }

  /** The item loop over a content list. */
  method ReadContentList(items: seq<Json>, stem: string, ids: nat -> string, figs: seq<FigureData>)
    returns (r: Result<(seq<TextChunk>, seq<FigureData>), string>)
    ensures r == ContentItems(items, stem, ids, figs)
  {
    var chunks: seq<TextChunk> := [];
    var current := figs;
    for i := 0 to |items|
      invariant ContentItems(items[..i], stem, ids, figs) == Ok((chunks, current))
    {
      assert items[..i + 1][..i] == items[..i];
      var step := HandleItem(items[i], stem, ids, chunks, current);
      if step.Err? {
        ContentErrPersists(items, stem, ids, figs, i + 1);
        return Err(step.error);
      }
      chunks, current := step.value.0, step.value.1;
    }
    assert items[..|items|] == items;
    return Ok((chunks, current));
  }

  /** Once an item raises, the whole content list raises the same way. */
  lemma {:induction false} ContentErrPersists(items: seq<Json>, stem: string, ids: nat -> string, figs: seq<FigureData>, n: nat)
    requires n <= |items| && ContentItems(items[..n], stem, ids, figs).Err?
    ensures ContentItems(items, stem, ids, figs) == ContentItems(items[..n], stem, ids, figs)
    decreases |items| - n
  {
    if n < |items| {
      assert items[..n + 1][..n] == items[..n];
      ContentErrPersists(items, stem, ids, figs, n + 1);
    } else {
      assert items[..n] == items;
    }
  }

  /** The Markdown loop. */
  method ReadMarkdown(content: string, ids: nat -> string) returns (chunks: seq<TextChunk>)
    ensures chunks == Paragraphs(Split(content, ParagraphBreak), ids)
  {
    var paragraphs := Split(content, ParagraphBreak);
    ghost var stripped := StripAll(paragraphs);
    chunks := [];
    for i := 0 to |paragraphs|
      invariant chunks == Kept(stripped[..i], ids)
    {
      var q := Strip(paragraphs[i]);
      assert q == stripped[i];
      KeptStep(stripped, i, ids);
      if q != "" {
        chunks := chunks + [TextChunk(ids(|chunks|), 1, q)];
      }
    }
    assert stripped[..|paragraphs|] == stripped;
  }

  /** Keeping one more text: it is added, under the next id, exactly when it is not empty. */
  lemma KeptStep(qs: seq<string>, i: nat, ids: nat -> string)
    requires i < |qs|
    ensures var prev := Kept(qs[..i], ids);
            Kept(qs[..i + 1], ids) == if qs[i] != "" then prev + [TextChunk(ids(|prev|), 1, qs[i])] else prev
  {
    assert qs[..i + 1][..i] == qs[..i];
  }

  /** `_process_zip_result`. */
  method ProcessZipResult(reply: Result<ZipResponse, string>, pdfPath: string, imageDir: string, loads: Loads, ids: nat -> string)
    returns (r: Result<(seq<TextChunk>, seq<FigureData>), string>)
    ensures r == Processed(reply, pdfPath, imageDir, loads, ids)
  {
    if reply.Err? {
      return Err(reply.error);
    }
    if reply.value.status != 200 {
      return Err(ZipDownloadFailed);
    }
    var a := reply.value.archive;
    var stem := PathStem(pdfPath);
    var jsonFiles := Filter(a.names, IsContentList);
    var mdFiles := Filter(a.names, IsMarkdown);
    var imageFiles := Filter(a.names, IsImage);
    var figs := ExtractFigures(stem, imageDir, imageFiles);
    if jsonFiles != [] {
      var content := loads(a.read(jsonFiles[0]));
      if content.Err? {
        return Err(content.error);
      }
      if content.value.JArr? {
        r := ReadContentList(content.value.items, stem, ids, figs);
        return;
      }
      return Ok(([], figs));
    }
    if mdFiles != [] {
      var chunks := ReadMarkdown(a.read(mdFiles[0]), ids);
      return Ok((chunks, figs));
    }
    return Ok(([], figs));
  }

  // ---------------------------------------------------------------------------
  // Properties of the archive conversion

  /** Filtering keeps exactly the names satisfying the condition, in their order. */
  lemma {:induction false} FilterSpec(names: seq<string>, p: string -> bool)
    ensures forall n :: n in Filter(names, p) <==> n in names && p(n)
    ensures forall i :: 0 <= i < |Filter(names, p)| ==> p(Filter(names, p)[i])
    decreases |names|
  {
    if names != [] {
      var init := names[..|names| - 1];
      FilterSpec(init, p);
      assert names == init + [names[|names| - 1]];
    }
  }

  /** Every image entry becomes one figure, in listing order: id stem_name, page 0, no caption. */
  lemma {:induction false} NewFiguresSpec(stem: string, imageDir: string, files: seq<string>)
    ensures forall i :: 0 <= i < |files| ==>
              NewFigures(stem, imageDir, files)[i] == NewFigure(stem, imageDir, files[i])
    decreases |files|
  {
    if files != [] {
      var n := |files| - 1;
      NewFiguresSpec(stem, imageDir, files[..n]);
      var prev := NewFigures(stem, imageDir, files[..n]);
      var r := NewFigures(stem, imageDir, files);
      assert r == prev + [NewFigure(stem, imageDir, files[n])];
      forall i | 0 <= i < |files|
        ensures r[i] == NewFigure(stem, imageDir, files[i])
      {
        if i < n {
          assert r[i] == prev[i];
          assert files[..n][i] == files[i];
        }
      }
    }
  }

  /** Relabelling keeps the figures, their ids and their image paths; only pages and captions change. */
  lemma RelabelKeepsFigures(figs: seq<FigureData>, target: string, page: Result<int, string>, caption: Option<string>)
    ensures Relabel(figs, target, page, caption).Ok? ==>
              var r := Relabel(figs, target, page, caption).value;
              |r| == |figs| && forall j :: 0 <= j < |figs| ==> r[j].figureId == figs[j].figureId && r[j].imagePath == figs[j].imagePath
    ensures Relabel(figs, target, page, caption).Ok? ==>
              var r := Relabel(figs, target, page, caption).value;
              forall j :: 0 <= j < |figs| && figs[j].figureId != target ==> r[j] == figs[j]
    ensures Relabel(figs, target, page, caption).Err? ==> page.Err? && exists j :: 0 <= j < |figs| && figs[j].figureId == target
  {
  }

  /**
   * Every figure carrying the target id gets the item's page and, when the
   * item has a truthy caption, that caption; its own caption stays otherwise.
   */
  lemma RelabelSetsMatching(figs: seq<FigureData>, target: string, page: int, caption: Option<string>, j: nat)
    requires j < |figs| && figs[j].figureId == target
    ensures Relabel(figs, target, Ok(page), caption).Ok?
    ensures var r := Relabel(figs, target, Ok(page), caption).value;
            |r| == |figs| && r[j].pageNumber == page
            && r[j].caption == (if caption.Some? then caption else figs[j].caption)
  {
  }

  /** Every content-list item keeps the figures, their ids and their image paths, and never drops a chunk. */
  lemma ItemStepKeepsFigures(item: Json, stem: string, ids: nat -> string, chunks: seq<TextChunk>, figs: seq<FigureData>)
    ensures ItemStep(item, stem, ids, chunks, figs).Ok? ==>
              var r := ItemStep(item, stem, ids, chunks, figs).value;
              |r.1| == |figs| && (forall j :: 0 <= j < |figs| ==> r.1[j].figureId == figs[j].figureId && r.1[j].imagePath == figs[j].imagePath)
              && |chunks| <= |r.0| <= |chunks| + 1 && r.0[..|chunks|] == chunks
  {
    if item.JObj? {
      var d := item.fields;
      var kind := GetOr(d, "type", JNull);
      if kind == JStr("image") && JsonOps.Truthy(GetOr(d, "img_path", JNull)) && d["img_path"].JStr? {
        RelabelKeepsFigures(figs, stem + "_" + PathName(d["img_path"].s), PageOf(d, "FigureData"), CaptionOf(d));
      }
    }
  }

  /** The whole content list keeps the extracted figures' ids and image paths, in order. */
  lemma {:induction false} ContentKeepsFigures(items: seq<Json>, stem: string, ids: nat -> string, figs: seq<FigureData>)
    ensures ContentItems(items, stem, ids, figs).Ok? ==>
              var r := ContentItems(items, stem, ids, figs).value.1;
              |r| == |figs| && forall j :: 0 <= j < |figs| ==> r[j].figureId == figs[j].figureId && r[j].imagePath == figs[j].imagePath
    decreases |items|
  {
    if items != [] {
      var prev := ContentItems(items[..|items| - 1], stem, ids, figs);
      ContentKeepsFigures(items[..|items| - 1], stem, ids, figs);
      if prev.Ok? {
        ItemStepKeepsFigures(items[|items| - 1], stem, ids, prev.value.0, prev.value.1);
      }
    }
  }

  /** A text-kind item with a string text adds exactly one chunk: the stripped text, on page `page_idx + 1`. */
  lemma TextItemAddsChunk(d: map<string, Json>, stem: string, ids: nat -> string, chunks: seq<TextChunk>, figs: seq<FigureData>, page: int)
    requires IsTextKind(GetOr(d, "type", JNull))
    requires "text" in d && d["text"].JStr? && d["text"].s != ""
    requires GetOr(d, "page_idx", JInt(0)) == JInt(page)
    ensures ItemStep(JObj(d), stem, ids, chunks, figs) == Ok((chunks + [TextChunk(ids(|chunks|), page + 1, Strip(d["text"].s))], figs))
  {
    assert JsonOps.Truthy(GetOr(d, "text", JNull));
    assert GetOr(d, "type", JNull) != JStr("image");
  }

  /** An item without "page_idx" counts as page 1. */
  lemma MissingPageIsOne(d: map<string, Json>, model: string)
    requires "page_idx" !in d
    ensures PageOf(d, model) == Ok(1)
  {
  }

  /** Every kept chunk is on page 1 and holds one of the non-empty texts. */
  lemma {:induction false} KeptShape(qs: seq<string>, ids: nat -> string)
    ensures |Kept(qs, ids)| <= |qs|
    ensures forall k :: 0 <= k < |Kept(qs, ids)| ==>
              Kept(qs, ids)[k].pageNumber == 1 && Kept(qs, ids)[k].content != "" && Kept(qs, ids)[k].content in qs
    decreases |qs|
  {
    if qs != [] {
      var init := qs[..|qs| - 1];
      KeptShape(init, ids);
      var prev := Kept(init, ids);
      var r := Kept(qs, ids);
      assert forall k :: 0 <= k < |prev| ==> r[k] == prev[k];
      assert forall q :: q in init ==> q in qs;
    }
  }

  /** A non-empty text is kept, at the returned position. */
  lemma {:induction false} KeptHas(qs: seq<string>, ids: nat -> string, i: nat) returns (k: nat)
    requires i < |qs| && qs[i] != ""
    ensures k < |Kept(qs, ids)| && Kept(qs, ids)[k].content == qs[i]
    decreases |qs|
  {
    var n := |qs| - 1;
    var init := qs[..n];
    var prev := Kept(init, ids);
    assert forall j :: 0 <= j < |prev| ==> Kept(qs, ids)[j] == prev[j];
    if i < n {
      assert init[i] == qs[i];
      k := KeptHas(init, ids, i);
    } else {
      k := |prev|;
    }
  }

  /**
   * The Markdown fallback keeps exactly the non-blank paragraphs: every chunk
   * is on page 1 and holds a non-empty stripped paragraph, and every non-blank
   * paragraph is kept, stripped.
   */
  lemma ParagraphsSpec(ps: seq<string>, ids: nat -> string)
    ensures |Paragraphs(ps, ids)| <= |ps|
    ensures forall k :: 0 <= k < |Paragraphs(ps, ids)| ==>
              Paragraphs(ps, ids)[k].pageNumber == 1 && Paragraphs(ps, ids)[k].content != ""
              && exists i :: 0 <= i < |ps| && Paragraphs(ps, ids)[k].content == Strip(ps[i])
    ensures forall i :: 0 <= i < |ps| && Strip(ps[i]) != "" ==>
              exists k :: 0 <= k < |Paragraphs(ps, ids)| && Paragraphs(ps, ids)[k].content == Strip(ps[i])
  {
    var qs := StripAll(ps);
    KeptShape(qs, ids);
    forall k | 0 <= k < |Kept(qs, ids)|
      ensures exists i :: 0 <= i < |ps| && Kept(qs, ids)[k].content == Strip(ps[i])
    {
      var i :| 0 <= i < |qs| && qs[i] == Kept(qs, ids)[k].content;
      assert qs[i] == Strip(ps[i]);
    }
    forall i | 0 <= i < |ps| && Strip(ps[i]) != ""
      ensures exists k :: 0 <= k < |Kept(qs, ids)| && Kept(qs, ids)[k].content == Strip(ps[i])
    {
      assert qs[i] == Strip(ps[i]);
      var k := KeptHas(qs, ids, i);
    }
  }

  /** The content list wins: whenever one is present, the Markdown files are never read. */
  lemma JsonPreferred(names: seq<string>, read1: string -> string, read2: string -> string, status: int, pdfPath: string, imageDir: string, loads: Loads, ids: nat -> string)
    requires Filter(names, IsContentList) != []
    requires read1(Filter(names, IsContentList)[0]) == read2(Filter(names, IsContentList)[0])
    ensures Processed(Ok(ZipResponse(status, Archive(names, read1))), pdfPath, imageDir, loads, ids)
         == Processed(Ok(ZipResponse(status, Archive(names, read2))), pdfPath, imageDir, loads, ids)
  {
    var j := Filter(names, IsContentList)[0];
    var stem := PathStem(pdfPath);
    var figs := NewFigures(stem, imageDir, Filter(names, IsImage));
    assert Converted(Archive(names, read1), stem, imageDir, loads, ids) == FromContentList(loads(read1(j)), stem, ids, figs);
    assert Converted(Archive(names, read2), stem, imageDir, loads, ids) == FromContentList(loads(read2(j)), stem, ids, figs);
  }

  // ---------------------------------------------------------------------------
  // parse_pdf

  /**
   * `parse_pdf`: check the file, ask for an upload link, upload, poll for the
   * task named after the file, and convert the archive at its `full_zip_url`.
   */
  function ParsedPdf(
    pdfPath: string, pdfExists: bool, post: HttpReply, put: Json -> HttpReply,
    budget: nat, get: nat -> HttpReply, download: Json -> Result<ZipResponse, string>,
    imageDir: string, loads: Loads, ids: nat -> string): Result<(seq<TextChunk>, seq<FigureData>), string>
  {
    if !pdfExists then Err("PDF文件不存在: " + pdfPath)
    else
      var fileName := LastSegment(pdfPath);
      var target := UploadTarget(post, loads);
      if target.Err? then Err(target.error)
      else
        var up := put(target.value.1);
        if up.Err? then Err(up.error)
        else if up.value.status != 200 then Err("文件上传到OSS失败, Code: " + IntToString(up.value.status))
        else
          var task := PollFrom(budget, get, loads, fileName, 0);
          if task.Err? then Err(task.error)
          else if "full_zip_url" !in task.value then Err(KeyMessage("full_zip_url"))
          else Processed(download(task.value["full_zip_url"]), pdfPath, imageDir, loads, ids)
  }

  /** `parse_pdf`. */
  method ParsePdf(
    pdfPath: string, pdfExists: bool, post: HttpReply, put: Json -> HttpReply,
    budget: nat, get: nat -> HttpReply, download: Json -> Result<ZipResponse, string>,
    imageDir: string, loads: Loads, ids: nat -> string) returns (r: Result<(seq<TextChunk>, seq<FigureData>), string>)
    ensures r == ParsedPdf(pdfPath, pdfExists, post, put, budget, get, download, imageDir, loads, ids)
  {
    if !pdfExists {
      return Err("PDF文件不存在: " + pdfPath);
    }
    var fileName := LastSegment(pdfPath);
    var target := UploadTarget(post, loads);
    if target.Err? {
      return Err(target.error);
    }
    var up := put(target.value.1);
    if up.Err? {
      return Err(up.error);
    }
    if up.value.status != 200 {
      return Err("文件上传到OSS失败, Code: " + IntToString(up.value.status));
    }
    var task := PollBatchTask(budget, get, loads, fileName);
    if task.Err? {
      return Err(task.error);
    }
    if "full_zip_url" !in task.value {
      return Err(KeyMessage("full_zip_url"));
    }
    r := ProcessZipResult(download(task.value["full_zip_url"]), pdfPath, imageDir, loads, ids);
  }
}
