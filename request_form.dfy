/**
 * The request form: its editable cells, the submit handler that validates them
 * and dispatches the request, and export and import of a request document.
 *
 * The method, URL and body cells hold JSON values rather than strings: typing
 * stores strings, but an import stores `json.method || 'GET'` and the like,
 * which is whatever truthy value the document holds.
 */
module RequestForm {
  import opened JsonValues
  import opened Url
  import opened ApiClient

  /** The editable request: the raw contents of the four form cells. */
  datatype Fields = Fields(httpMethod: Json, url: Json, headers: string, body: Json)

  /** The cells of a new form: GET, empty URL, headers `{}`, empty body. */
  const InitialFields: Fields := Fields(JString("GET"), JString(""), "{}", JString(""))

  const HeadersError: string := "\U{274C} Headers must be valid JSON"
  const BodyError: string := "\U{274C} Body must be valid JSON"

  /** ['POST', 'PUT'].includes(method). */
  predicate IsBodyMethod(m: Json) {
    m == JString("POST") || m == JString("PUT")
  }

  /** `headers ? JSON.parse(headers) : {}`; None when JSON.parse throws. */
  function ParseHeaders(lib: JsonLib, text: string): (r: Option<Json>)
    ensures text == "" ==> r == Some(EmptyObject)
    ensures text != "" ==> r == lib.parse(text)
  {
    if text == "" then Some(EmptyObject) else lib.parse(text)
  }

  /** `body ? JSON.parse(body) : {}`; JSON.parse reads String(body), which
      for a string cell is the cell's text. */
  function ParseBody(lib: JsonLib, body: Json): (r: Option<Json>)
    ensures !Truthy(body) ==> r == Some(EmptyObject)
    ensures body.JString? && body.s != "" ==> r == lib.parse(body.s)
    ensures Truthy(body) && !body.JString? ==> r == lib.parse(lib.display(body))
  {
    if !Truthy(body) then Some(EmptyObject) else lib.parse(ToText(lib, body))
  }

  /** How a submit ends: `url.trim()` throws because the URL cell holds no
      string, or validation rejects the input with a message, or the request
      is dispatched. */
  datatype SubmitPlan =
    | Throws
    | Rejected(message: string)
    | Dispatched(request: ApiRequest)

  /** The outcome of validating the form cells. */
  function PlanSubmit(lib: JsonLib, f: Fields): (r: SubmitPlan)
    ensures r.Rejected? ==> r.message == HeadersError || r.message == BodyError
  {
    if !f.url.JString? then Throws
    else
      var finalUrl := NormalizeUrl(f.url.s);
      match ParseHeaders(lib, f.headers)
      case None => Rejected(HeadersError)
      case Some(headers) =>
        if !IsBodyMethod(f.httpMethod) then Dispatched(ApiRequest(f.httpMethod, finalUrl, headers, EmptyObject))
        else
          match ParseBody(lib, f.body)
          case None => Rejected(BodyError)
          case Some(body) => Dispatched(ApiRequest(f.httpMethod, finalUrl, headers, body))
  }

  /** Each outcome of validation, and what it depends on: the URL cell decides
      whether the handler throws, the headers are checked before the body, the
      body is checked only for POST and PUT, and a dispatched request carries
      the method, the normalised URL and the parsed headers and body. */
  lemma PlanSubmitCases(lib: JsonLib, f: Fields)
    ensures PlanSubmit(lib, f).Throws? <==> !f.url.JString?
    ensures PlanSubmit(lib, f) == Rejected(HeadersError) <==>
              f.url.JString? && ParseHeaders(lib, f.headers).None?
    ensures PlanSubmit(lib, f) == Rejected(BodyError) <==>
              f.url.JString? && ParseHeaders(lib, f.headers).Some?
              && IsBodyMethod(f.httpMethod) && ParseBody(lib, f.body).None?
    ensures PlanSubmit(lib, f).Rejected? ==>
              PlanSubmit(lib, f).message == HeadersError || PlanSubmit(lib, f).message == BodyError
    ensures PlanSubmit(lib, f).Dispatched? <==>
              f.url.JString? && ParseHeaders(lib, f.headers).Some?
              && (IsBodyMethod(f.httpMethod) ==> ParseBody(lib, f.body).Some?)
    ensures PlanSubmit(lib, f).Dispatched? ==>
              && PlanSubmit(lib, f).request.httpMethod == f.httpMethod
              && PlanSubmit(lib, f).request.url == NormalizeUrl(f.url.s)
              && Some(PlanSubmit(lib, f).request.headers) == ParseHeaders(lib, f.headers)
              && (IsBodyMethod(f.httpMethod) ==>
                    Some(PlanSubmit(lib, f).request.body) == ParseBody(lib, f.body))
              && (!IsBodyMethod(f.httpMethod) ==> PlanSubmit(lib, f).request.body == EmptyObject)
  {
  }

  /** Headers are validated first: when the headers do not parse, the headers
      error is reported whatever the method and body are. */
  lemma HeadersErrorTakesPrecedence(lib: JsonLib, f: Fields, body: Json)
    requires f.url.JString? && f.headers != "" && lib.parse(f.headers).None?
    ensures PlanSubmit(lib, f) == Rejected(HeadersError)
    ensures PlanSubmit(lib, f.(body := body)) == Rejected(HeadersError)
  {
  }

  /** For GET and DELETE the body cell is never read: any body gives the same
      outcome, and a dispatched request carries `{}`. */
  lemma BodyIgnoredUnlessPostOrPut(lib: JsonLib, f: Fields, body: Json)
    requires !IsBodyMethod(f.httpMethod)
    ensures PlanSubmit(lib, f.(body := body)) == PlanSubmit(lib, f)
    ensures PlanSubmit(lib, f) != Rejected(BodyError)
  {
  }

  /** The document handleExport writes: exactly the members method, url,
      headers and body, holding the raw cells (the URL as typed, the headers
      as a string). */
  function ExportDocument(f: Fields): (doc: Json)
    ensures doc.JObject? && |doc.members| == 4
    ensures doc.members[0].0 == "method" && doc.members[1].0 == "url"
    ensures doc.members[2].0 == "headers" && doc.members[3].0 == "body"
    ensures Property(doc, "method") == Some(f.httpMethod)
    ensures Property(doc, "url") == Some(f.url)
    ensures Property(doc, "headers") == Some(JString(f.headers))
    ensures Property(doc, "body") == Some(f.body)
  {
    var members := [("method", f.httpMethod), ("url", f.url), ("headers", JString(f.headers)), ("body", f.body)];
    assert members[..3][..2] == members[..2] && members[..2][..1] == members[..1];
    assert Lookup(members[..1], "method") == Some(f.httpMethod);
    assert Lookup(members[..2], "url") == Some(f.url);
    assert Lookup(members[..3], "headers") == Some(JString(f.headers));
    assert Lookup(members[..3], "url") == Lookup(members[..2], "url");
    assert Lookup(members[..3], "method") == Lookup(members[..2], "method")
                                         == Lookup(members[..1], "method");
    JObject(members)
  }

  /** The downloaded file: its name, its type and its text. */
  datatype Download = Download(fileName: string, mimeType: string, text: string)

  /** The file handleExport downloads for the cells `f`. */
  function ExportFile(lib: JsonLib, f: Fields): (d: Download)
    ensures d.fileName == "api-request.json" && d.mimeType == "application/json"
    ensures d.text == lib.prettyPrint(ExportDocument(f))
  {
    Download("api-request.json", "application/json", lib.prettyPrint(ExportDocument(f)))
  }

  /** The cells an import of `text` sets, or None when nothing changes: the text
      is not JSON, or it is `null`, whose property read throws. A missing or
      falsy method, url or body falls back to 'GET', '' and ''; the headers cell
      gets the pretty-printed JSON of the document's headers, or of `{}`. */
  function ImportText(lib: JsonLib, text: string): (r: Option<Fields>)
    ensures r.None? <==> lib.parse(text).None? || lib.parse(text) == Some(JNull)
    ensures r.Some? ==> Truthy(r.value.httpMethod)
    ensures r.Some? ==>
              var doc := lib.parse(text).value;
              && (Property(doc, "method").Some? && Truthy(Property(doc, "method").value)
                  ==> r.value.httpMethod == Property(doc, "method").value)
              && (Property(doc, "url").Some? && Truthy(Property(doc, "url").value)
                  ==> r.value.url == Property(doc, "url").value)
              && (Property(doc, "body").Some? && Truthy(Property(doc, "body").value)
                  ==> r.value.body == Property(doc, "body").value)
              && (Property(doc, "headers").Some? && Truthy(Property(doc, "headers").value)
                  ==> r.value.headers == lib.prettyPrint(Property(doc, "headers").value))
    ensures r.Some? ==>
              var doc := lib.parse(text).value;
              && (Property(doc, "method").None? || !Truthy(Property(doc, "method").value)
                  ==> r.value.httpMethod == JString("GET"))
              && (Property(doc, "url").None? || !Truthy(Property(doc, "url").value)
                  ==> r.value.url == JString(""))
              && (Property(doc, "body").None? || !Truthy(Property(doc, "body").value)
                  ==> r.value.body == JString(""))
              && (Property(doc, "headers").None? || !Truthy(Property(doc, "headers").value)
                  ==> r.value.headers == lib.prettyPrint(EmptyObject))
  {
    match lib.parse(text)
    case None => None
    case Some(doc) =>
      if doc.JNull? then None
      else
        Some(Fields(
          OrElse(Property(doc, "method"), JString("GET")),
          OrElse(Property(doc, "url"), JString("")),
          lib.prettyPrint(OrElse(Property(doc, "headers"), EmptyObject)),
          OrElse(Property(doc, "body"), JString(""))))
  }

  /** The library reads back what it printed for this document. */
  ghost predicate ReadsBackExport(lib: JsonLib, f: Fields) {
    lib.parse(ExportFile(lib, f).text) == Some(ExportDocument(f))
  }

  /** Exporting and importing again keeps string cells as they were, except
      the headers: export stores them as a string, and import pretty-prints
      that string, so the headers cell receives a JSON string literal. Empty
      headers are falsy and come back as the pretty-printed `{}`. */
  lemma ExportThenImport(lib: JsonLib, f: Fields)
    requires ReadsBackExport(lib, f)
    requires f.httpMethod.JString? && f.httpMethod.s != ""
    requires f.url.JString? && f.body.JString?
    ensures f.headers != "" ==>
              ImportText(lib, ExportFile(lib, f).text)
              == Some(f.(headers := lib.prettyPrint(JString(f.headers))))
    ensures f.headers == "" ==>
              ImportText(lib, ExportFile(lib, f).text)
              == Some(f.(headers := lib.prettyPrint(EmptyObject)))
  {
    var doc := ExportDocument(f);
    var r := ImportText(lib, ExportFile(lib, f).text);
    assert r.Some?;
    assert r.value.httpMethod == f.httpMethod;
    assert r.value.url == f.url by {
      if f.url.s == "" { assert r.value.url == JString(""); }
    }
    assert r.value.body == f.body by {
      if f.body.s == "" { assert r.value.body == JString(""); }
    }
    if f.headers != "" {
      assert Truthy(JString(f.headers));
    }
  }

  /** The export the `trigger-export` event performs as written holds the
      initial cells; for any other cells it is not their export, so edits
      made in the form never reach the file. */
  lemma StaleExportLosesEdits(f: Fields)
    requires f != InitialFields
    ensures ExportDocument(InitialFields) != ExportDocument(f)
  {
  }

  /** The export/import round trip does not restore headers text that does not
      begin with a double quote; in particular the initial `{}` comes back as a
      quoted string. */
  lemma ExportThenImportChangesHeaders(lib: JsonLib, f: Fields)
    requires ReadsBackExport(lib, f) && QuotesStrings(lib)
    requires f.httpMethod.JString? && f.httpMethod.s != ""
    requires f.url.JString? && f.body.JString?
    requires f.headers != "" && f.headers[0] != '"'
    ensures ImportText(lib, ExportFile(lib, f).text).Some?
    ensures ImportText(lib, ExportFile(lib, f).text).value.headers != f.headers
  {
    ExportThenImport(lib, f);
    var printed := lib.prettyPrint(JString(f.headers));
    assert |printed| > 0 && printed[0] == '"';
  }

  /**
   * The form's state cells, together with the application-wide loading flag
   * that the form sets through setAppLoading.
   */
  class FormState {
    var httpMethod: Json
    var url: Json
    var headers: string
    var body: Json
    var response: Option<Envelope>
    var errorMessage: Option<string>
    var appLoading: bool

    /** The cells the `trigger-export` listener sees. The listener is added
        once, when the form mounts, and calls the export handler of the first
        render, whose cells are the initial ones. */
    const listenerCells: Fields

    /** Every value handed to setAppLoading, in order. */
    ghost var loadingHistory: seq<bool>

    /** The loading flag is the last value set, and false before any. */
    ghost predicate Valid()
      reads this`appLoading, this`loadingHistory
    {
      appLoading == (if loadingHistory == [] then false else loadingHistory[|loadingHistory| - 1])
    }

    function Descriptor(): Fields
      reads this`httpMethod, this`url, this`headers, this`body
    {
      Fields(httpMethod, url, headers, body)
    }

    constructor ()
      ensures Valid()
      ensures Descriptor() == InitialFields
      ensures response.None? && errorMessage.None? && !appLoading
      ensures loadingHistory == []
      ensures listenerCells == InitialFields
    {
      httpMethod, url, headers, body := JString("GET"), JString(""), "{}", JString("");
      response, errorMessage, appLoading := None, None, false;
      loadingHistory := [];
      listenerCells := Fields(httpMethod, url, headers, body);
    }

    method SetAppLoading(loading: bool)
      requires Valid()
      modifies this`appLoading, this`loadingHistory
      ensures Valid()
      ensures appLoading == loading
      ensures loadingHistory == old(loadingHistory) + [loading]
    {
      appLoading := loading;
      loadingHistory := loadingHistory + [loading];
    }

    /** The state a submit leaves behind, given how validation ended and the
        loading history and the transport's log before it: the response is the
        envelope of the one request sent or absent, the error is the rejection
        message or absent, and the loading flag was raised, then lowered unless
        the handler threw. */
    ghost predicate SubmittedAs(plan: SubmitPlan, net: Network, history: seq<bool>, log: seq<ApiRequest>)
      reads this`response, this`errorMessage, this`loadingHistory, net`sent
    {
      match plan
      case Throws =>
        && response.None? && errorMessage.None?
        && loadingHistory == history + [true]
        && net.sent == log
      case Rejected(message) =>
        && response.None? && errorMessage == Some(message)
        && loadingHistory == history + [true] + [false]
        && net.sent == log
      case Dispatched(request) =>
        && response == Some(ToEnvelope(net.respond(request))) && errorMessage.None?
        && loadingHistory == history + [true] + [false]
        && net.sent == log + [request]
    }

    /** handleSubmit, sending through `net`. It clears the error and the
        response and raises the loading flag; then it either throws (the URL
        cell holds no string), or reports the first validation error and
        lowers the flag, or sends one request, stores its envelope and lowers
        the flag. `threw` is true when the handler's promise rejects. */
    method Submit(lib: JsonLib, net: Network) returns (threw: bool)
      requires Valid()
      modifies this`response, this`errorMessage, this`appLoading, this`loadingHistory, net`sent
      ensures Valid()
      ensures Descriptor() == old(Descriptor())
      ensures threw == PlanSubmit(lib, old(Descriptor())).Throws?
      ensures SubmittedAs(PlanSubmit(lib, old(Descriptor())), net, old(loadingHistory), old(net.sent))
      ensures !threw ==> !appLoading
      ensures |net.sent| <= |old(net.sent)| + 1
    {
      var f := Descriptor();
      ghost var plan := PlanSubmit(lib, f);
      assert plan == PlanSubmit(lib, old(Descriptor()));
      errorMessage := None;
      response := None;
      SetAppLoading(true);

      if !f.url.JString? {
        assert plan == Throws;
        threw := true;
        return;
      }
      threw := false;
      var finalUrl := NormalizeUrl(f.url.s);

      var parsedHeaders := ParseHeaders(lib, f.headers);
      if parsedHeaders.None? {
        assert plan == Rejected(HeadersError);
        errorMessage := Some(HeadersError);
        SetAppLoading(false);
        return;
      }

      var parsedBody := EmptyObject;
      if IsBodyMethod(f.httpMethod) {
        var parsed := ParseBody(lib, f.body);
        if parsed.None? {
          assert plan == Rejected(BodyError);
          errorMessage := Some(BodyError);
          SetAppLoading(false);
          return;
        }
        parsedBody := parsed.value;
      }

      var request := ApiRequest(f.httpMethod, finalUrl, parsedHeaders.value, parsedBody);
      assert plan == Dispatched(request);
      var result := SendApiRequest(net, f.httpMethod, finalUrl, parsedHeaders.value, parsedBody);
      response := Some(result);
      SetAppLoading(false);
    }

    /** The file reader's load handler for the chosen file (None when no file
        was chosen): all four cells change together, or none does and the user
        is alerted. Response, error and loading flag are untouched. */
    method Import(lib: JsonLib, file: Option<string>) returns (alerted: bool)
      modifies this`httpMethod, this`url, this`headers, this`body
      ensures file.None? ==> !alerted && Descriptor() == old(Descriptor())
      ensures file.Some? && ImportText(lib, file.value).None? ==>
                alerted && Descriptor() == old(Descriptor())
      ensures file.Some? && ImportText(lib, file.value).Some? ==>
                !alerted && Descriptor() == ImportText(lib, file.value).value
    {
      if file.None? {
        return false;
      }
      var parsed := lib.parse(file.value);
      if parsed.None? || parsed.value.JNull? {
        return true;
      }
      var doc := parsed.value;
      httpMethod := OrElse(Property(doc, "method"), JString("GET"));
      url := OrElse(Property(doc, "url"), JString(""));
      headers := lib.prettyPrint(OrElse(Property(doc, "headers"), EmptyObject));
      body := OrElse(Property(doc, "body"), JString(""));
      alerted := false;
    }

    /** handleExport called on the current cells: the file holds what the
        form shows now. */
    method Export(lib: JsonLib) returns (file: Download)
      ensures file == ExportFile(lib, Descriptor())
    {
      file := Download("api-request.json", "application/json",
                       lib.prettyPrint(ExportDocument(Descriptor())));
    }

    /** The export that the `trigger-export` event performs: the listener's
        handler exports the cells it captured at mount, whatever the form
        shows now. */
    method TriggerExport(lib: JsonLib) returns (file: Download)
      ensures file == ExportFile(lib, listenerCells)
    {
      file := Download("api-request.json", "application/json",
                       lib.prettyPrint(ExportDocument(listenerCells)));
    }
  }
}
