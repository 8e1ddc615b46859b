/**
 * The Trello client: credential resolution, the client object with its stored
 * credentials, the merge of the credentials into every query, the classification of
 * a failed exchange into a message, and the two operations that do their own HTTP
 * (file upload and attachment download).
 *
 * The HTTP library is replaced by an oracle: the response (or transport failure)
 * a request receives is a parameter, and the model returns the request it sends
 * together with the outcome.
 */
module Client {

  import opened Wrappers
  import opened Text
  import opened Values
  import opened Operations

  const BaseUrl: string := "https://api.trello.com/1"

  const MissingCredentials: string :=
    "Trello API credentials not found. Please set TRELLO_API_KEY and TRELLO_API_TOKEN environment variables."

  /** What the environment holds for `TRELLO_API_KEY` and `TRELLO_API_TOKEN`. */
  datatype Env = Env(apiKey: Option<string>, apiToken: Option<string>)

  /** Python's `arg or default` on optional strings. */
  function Or(arg: Option<string>, default: Option<string>): Option<string>
  {
    if Truthy(arg) then arg else default
  }

  /** The credentials the constructor keeps, or its error when either is missing or empty;
      an explicit non-empty argument wins over the environment. */
  function Credentials(key: Option<string>, token: Option<string>, env: Env): (r: Result<(string, string), string>)
    ensures r.Ok? <==> (Truthy(key) || Truthy(env.apiKey)) && (Truthy(token) || Truthy(env.apiToken))
    ensures r.Err? ==> r.error == MissingCredentials
    ensures r.Ok? ==> r.value.0 != "" && r.value.1 != ""
    ensures r.Ok? && Truthy(key) ==> r.value.0 == key.value
    ensures r.Ok? && !Truthy(key) ==> env.apiKey == Some(r.value.0)
    ensures r.Ok? && Truthy(token) ==> r.value.1 == token.value
    ensures r.Ok? && !Truthy(token) ==> env.apiToken == Some(r.value.1)
  {
    var k := Or(key, env.apiKey);
    var t := Or(token, env.apiToken);
    if !Truthy(k) || !Truthy(t) then Err(MissingCredentials) else Ok((k.value, t.value))
  }

  // ----- Exchanges with the HTTP oracle -----

  /** What the HTTP library reports for a request: a response, or a transport error. */
  datatype HttpResult<+T> = Response(status: int, body: T) | NetworkFailure(cause: string)

  /** `raise_for_status` lets exactly the 2xx responses through. */
  predicate Succeeded<T>(h: HttpResult<T>) { h.Response? && 200 <= h.status < 300 }

  /** A request as sent: verb, full URL, query parameters and, for an upload, the file part's name. */
  datatype Sent = Sent(verb: Verb, url: string, query: Params, filePart: Option<string>)

  /** The requests an operation sends, in order, and what it returns or raises. */
  datatype Exchange<+T> = Exchange(sent: seq<Sent>, outcome: Result<T, string>)

  const InvalidCredentials: string := "Invalid Trello API credentials"

  /** The texts one `except` block uses for 404, for 429, before another status code, and
      before a transport error's text; the 401 text is common to all of them. */
  datatype FailureTexts = FailureTexts(notFound: string, rateLimited: string, otherPrefix: string,
                                       networkPrefix: string)

  /** The 429 text of the upload and the download; `_request` adds advice to it. */
  const RateLimitText: string := "Trello API rate limit exceeded"

  /** `_request`; its texts are pairwise apart whatever the endpoint. */
  function RequestTexts(endpoint: string): (t: FailureTexts)
    ensures Separated(t)
  {
    var t := FailureTexts("Resource not found: " + endpoint,
                          RateLimitText + ". Consider using webhooks for frequent updates.",
                          "Trello API error: ", "Network error: ");
    CommonTextsApart();
    RateLimitTextApart(". Consider using webhooks for frequent updates.");
    assert t.notFound[0] == 'R' && t.rateLimited[0] == 'T';
    ApartAt(t.networkPrefix, t.notFound, 0);
    ApartAt(t.networkPrefix, t.rateLimited, 0);
    ApartAt(InvalidCredentials, t.notFound, 0);
    ApartAt(InvalidCredentials, t.rateLimited, 0);
    ApartAt(t.notFound, t.rateLimited, 0);
    ApartAt(t.notFound, t.otherPrefix, 0);
    SeparatedByPairs(t);
    t
  }

  /** `add_attachment_file`; its texts are pairwise apart whatever the card. */
  function UploadTexts(cardId: string): (t: FailureTexts)
    ensures Separated(t)
  {
    var t := FailureTexts("Card not found: " + cardId, RateLimitText, "Trello API error: ",
                          "Network error: ");
    CommonTextsApart();
    RateLimitTextApart("");
    assert RateLimitText + "" == RateLimitText;
    assert t.notFound[0] == 'C' && t.rateLimited[0] == 'T';
    ApartAt(t.networkPrefix, t.notFound, 0);
    ApartAt(t.networkPrefix, t.rateLimited, 0);
    ApartAt(InvalidCredentials, t.notFound, 0);
    ApartAt(InvalidCredentials, t.rateLimited, 0);
    ApartAt(t.notFound, t.rateLimited, 0);
    ApartAt(t.notFound, t.otherPrefix, 0);
    SeparatedByPairs(t);
    t
  }

  /** `download_attachment`, for the file request; its texts are pairwise apart whatever
      the attachment. */
  function DownloadTexts(attachmentId: string): (t: FailureTexts)
    ensures Separated(t)
  {
    var t := FailureTexts("Attachment not found: " + attachmentId, RateLimitText,
                          "Failed to download attachment: ", "Network error during download: ");
    assert InvalidCredentials[0] == 'I' && t.notFound[0] == 'A' && t.rateLimited[0] == 'T';
    ApartAt(t.networkPrefix, InvalidCredentials, 0);
    ApartAt(t.networkPrefix, t.notFound, 0);
    ApartAt(t.networkPrefix, t.rateLimited, 0);
    ApartAt(t.networkPrefix, t.otherPrefix, 0);
    ApartAt(InvalidCredentials, t.notFound, 0);
    ApartAt(InvalidCredentials, t.rateLimited, 0);
    ApartAt(InvalidCredentials, t.otherPrefix, 0);
    ApartAt(t.notFound, t.rateLimited, 0);
    ApartAt(t.notFound, t.otherPrefix, 0);
    ApartAt(t.rateLimited, t.otherPrefix, 0);
    SeparatedByPairs(t);
    t
  }

  /** The outcome of one exchange: the body of a 2xx response, otherwise the message raised. */
  function Classify<T>(texts: FailureTexts, h: HttpResult<T>): (r: Result<T, string>)
    ensures r.Ok? <==> Succeeded(h)
    ensures r.Ok? ==> r.value == h.body
  {
    match h
    case NetworkFailure(cause) => Err(texts.networkPrefix + cause)
    case Response(status, body) =>
      if 200 <= status < 300 then Ok(body)
      else if status == 401 then Err(InvalidCredentials)
      else if status == 404 then Err(texts.notFound)
      else if status == 429 then Err(texts.rateLimited)
      else Err(texts.otherPrefix + IntToString(status))
  }

  /** The kinds of failure the messages tell apart. */
  datatype Failure = Unauthorized | NotFound | RateLimited | ApiError(status: int) | Network(cause: string)

  /** The kind of failure a failed exchange is. */
  function FailureOf<T>(h: HttpResult<T>): Failure
    requires !Succeeded(h)
  {
    match h
    case NetworkFailure(cause) => Network(cause)
    case Response(status, _) =>
      if status == 401 then Unauthorized
      else if status == 404 then NotFound
      else if status == 429 then RateLimited
      else ApiError(status)
  }

  /** Reads the kind of failure back from a message. */
  function KindOf(texts: FailureTexts, msg: string): Option<Failure>
  {
    if StartsWith(msg, texts.networkPrefix) then Some(Network(msg[|texts.networkPrefix|..]))
    else if msg == InvalidCredentials then Some(Unauthorized)
    else if msg == texts.notFound then Some(NotFound)
    else if msg == texts.rateLimited then Some(RateLimited)
    else if StartsWith(msg, texts.otherPrefix) && Canonical(msg[|texts.otherPrefix|..]) then
      Some(ApiError(ParseInt(msg[|texts.otherPrefix|..]).value))
    else None
  }

  /** Digits exactly as `str(code)` writes them: no leading zeros, no `-0`. */
  predicate Canonical(digits: string)
  {
    ParseInt(digits).Some? && IntToString(ParseInt(digits).value) == digits
  }

  /** The message each kind of failure is raised with. */
  function MessageOf(texts: FailureTexts, f: Failure): string
  {
    match f
    case Network(cause) => texts.networkPrefix + cause
    case Unauthorized => InvalidCredentials
    case NotFound => texts.notFound
    case RateLimited => texts.rateLimited
    case ApiError(status) => texts.otherPrefix + IntToString(status)
  }

  /** A message the decoder reads is exactly the message of the kind it reads, so a decoded
      kind fixes the whole text, the status code written without padding included. */
  lemma KindOfDetermines(texts: FailureTexts, msg: string)
    ensures KindOf(texts, msg).Some? ==> msg == MessageOf(texts, KindOf(texts, msg).value)
  {
    if StartsWith(msg, texts.networkPrefix) {
      StartsWithSplit(msg, texts.networkPrefix);
    } else if StartsWith(msg, texts.otherPrefix) {
      StartsWithSplit(msg, texts.otherPrefix);
    }
  }

  /** The five texts of one block: the transport prefix, the 401 text, the 404 text, the 429
      text and the other-status prefix. */
  function Messages(texts: FailureTexts): seq<string>
  {
    [texts.networkPrefix, InvalidCredentials, texts.notFound, texts.rateLimited, texts.otherPrefix]
  }

  /** The texts of one block are told apart, pair by pair, by a character at a common position. */
  predicate Separated(texts: FailureTexts)
  {
    forall i, j :: 0 <= i < j < |Messages(texts)| ==> Apart(Messages(texts)[i], Messages(texts)[j])
  }

  /** The ten pairs of a block that are apart make the block separated. */
  lemma SeparatedByPairs(texts: FailureTexts)
    requires && Apart(texts.networkPrefix, InvalidCredentials) && Apart(texts.networkPrefix, texts.notFound)
             && Apart(texts.networkPrefix, texts.rateLimited) && Apart(texts.networkPrefix, texts.otherPrefix)
             && Apart(InvalidCredentials, texts.notFound) && Apart(InvalidCredentials, texts.rateLimited)
             && Apart(InvalidCredentials, texts.otherPrefix)
             && Apart(texts.notFound, texts.rateLimited) && Apart(texts.notFound, texts.otherPrefix)
             && Apart(texts.rateLimited, texts.otherPrefix)
    ensures Separated(texts)
  {
  }

  /** Every failed exchange's message names its kind of failure, status code and transport
      error text included, so no two kinds of failure share a message. */
  lemma KindOfClassify<T>(texts: FailureTexts, h: HttpResult<T>)
    requires Separated(texts)
    ensures Classify(texts, h).Err? ==> KindOf(texts, Classify(texts, h).error) == Some(FailureOf(h))
  {
    if Succeeded(h) { return; }
    var msg := Classify(texts, h).error;
    var m := Messages(texts);
    assert Apart(m[0], m[1]) && Apart(m[0], m[2]) && Apart(m[0], m[3]) && Apart(m[0], m[4]);
    assert Apart(m[1], m[2]) && Apart(m[1], m[3]) && Apart(m[1], m[4]);
    assert Apart(m[2], m[3]) && Apart(m[2], m[4]) && Apart(m[3], m[4]);
    match h
    case NetworkFailure(cause) =>
      StartsWithConcat(texts.networkPrefix, cause);
      assert msg[|texts.networkPrefix|..] == cause;
    case Response(status, _) =>
      if status == 401 {
        ApartExtensions(texts.networkPrefix, InvalidCredentials, [], []);
        assert InvalidCredentials + [] == InvalidCredentials;
      } else if status == 404 {
        ApartExtensions(texts.networkPrefix, texts.notFound, [], []);
        ApartExtensions(InvalidCredentials, texts.notFound, [], []);
        assert texts.notFound + [] == texts.notFound && InvalidCredentials + [] == InvalidCredentials;
      } else if status == 429 {
        ApartExtensions(texts.networkPrefix, texts.rateLimited, [], []);
        ApartExtensions(InvalidCredentials, texts.rateLimited, [], []);
        ApartExtensions(texts.notFound, texts.rateLimited, [], []);
        assert texts.rateLimited + [] == texts.rateLimited && InvalidCredentials + [] == InvalidCredentials;
        assert texts.notFound + [] == texts.notFound;
      } else {
        var digits := IntToString(status);
        assert msg == texts.otherPrefix + digits;
        ApartExtensions(texts.networkPrefix, texts.otherPrefix, [], digits);
        ApartExtensions(InvalidCredentials, texts.otherPrefix, [], digits);
        ApartExtensions(texts.notFound, texts.otherPrefix, [], digits);
        ApartExtensions(texts.rateLimited, texts.otherPrefix, [], digits);
        assert InvalidCredentials + [] == InvalidCredentials && texts.notFound + [] == texts.notFound;
        assert texts.rateLimited + [] == texts.rateLimited;
        StartsWithConcat(texts.otherPrefix, digits);
        assert msg[|texts.otherPrefix|..] == digits;
        ParseIntToString(status);
        assert Canonical(digits);
      }
  }

  /** A witness that two strings are apart: they differ at position `i`. */
  lemma ApartAt(a: string, b: string, i: nat)
    requires i < |a| && i < |b| && a[i] != b[i]
    ensures Apart(a, b)
  {
  }

  /** The 401 text and the transport prefix of `_request` and `add_attachment_file`. */
  lemma CommonTextsApart()
    ensures Apart("Network error: ", InvalidCredentials)
    ensures Apart(InvalidCredentials, "Trello API error: ")
    ensures Apart("Network error: ", "Trello API error: ")
  {
    assert InvalidCredentials[0] == 'I';
    ApartAt("Network error: ", InvalidCredentials, 0);
    ApartAt(InvalidCredentials, "Trello API error: ", 0);
    ApartAt("Network error: ", "Trello API error: ", 0);
  }

  /** The 429 text and the prefix of other statuses first differ at `rate` against `error`. */
  lemma RateLimitTextApart(suffix: string)
    ensures Apart(RateLimitText + suffix, "Trello API error: ")
  {
    assert (RateLimitText + suffix)[11] == 'r';
    ApartAt(RateLimitText + suffix, "Trello API error: ", 11);
  }

  // ----- Upload and download inputs -----

  /** What opening the local file to upload finds. */
  datatype LocalFile = Missing | Unreadable(reason: string) | Readable

  /** What writing the downloaded content to the output path does. */
  datatype WriteOutcome = Written | WriteFailed(reason: string)

  /** The two fields of an attachment's metadata the download reads. */
  datatype AttachmentInfo = AttachmentInfo(fileName: Field, name: Field)

  /** The dictionary the download returns besides `success: True`. */
  datatype DownloadReport = DownloadReport(path: string, size: nat, name: string, attachmentId: string)

  /** The file part's name: the given name when non-empty, else the last component of the path. */
  function UploadName(name: Option<string>, path: string): (n: string)
    ensures Truthy(name) ==> n == name.value
    ensures !Truthy(name) ==> '/' !in n && |n| <= |path| && path[|path| - |n|..] == n
    ensures !Truthy(name) && |n| < |path| ==> path[|path| - |n| - 1] == '/'
  {
    if Truthy(name) then name.value else Basename(path)
  }

  /** The download's file name: `fileName`, else `name`, else `"download"`. */
  function DownloadName(info: AttachmentInfo): (n: string)
    ensures n != ""
    ensures IsTruthy(info.fileName) ==> n == info.fileName.text
    ensures !IsTruthy(info.fileName) && IsTruthy(info.name) ==> n == info.name.text
    ensures !IsTruthy(info.fileName) && !IsTruthy(info.name) ==> n == "download"
  {
    if IsTruthy(info.fileName) then info.fileName.text
    else if IsTruthy(info.name) then info.name.text
    else "download"
  }

  /** The download endpoint for an attachment under a file name. */
  function DownloadEndpoint(cardId: string, attachmentId: string, fileName: string): string
  {
    "/cards/" + cardId + "/attachments/" + attachmentId + "/download/" + fileName
  }

  /** The download endpoint extends the attachment's metadata endpoint. */
  lemma DownloadEndpointExtendsMetadata(cardId: string, attachmentId: string, fileName: string)
    ensures DownloadEndpoint(cardId, attachmentId, fileName)
         == RouteOf(GetAttachment(cardId, attachmentId)).endpoint + "/download/" + fileName
  {
  }

  // ----- The client object -----

  class TrelloClient {
    const apiKey: string
    const apiToken: string

    /** A constructed client holds two non-empty credentials. */
    predicate Valid() { apiKey != "" && apiToken != "" }

    constructor (key: string, token: string)
      requires key != "" && token != ""
      ensures apiKey == key && apiToken == token
      ensures Valid()
    {
      apiKey := key;
      apiToken := token;
    }

    /** `TrelloClient(api_key, api_token)`: raises, and builds nothing, unless both credentials resolve. */
    static method Create(key: Option<string>, token: Option<string>, env: Env) returns (r: Result<TrelloClient, string>)
      ensures r.Err? <==> Credentials(key, token, env).Err?
      ensures r.Err? ==> r.error == MissingCredentials
      ensures r.Ok? ==> fresh(r.value) && r.value.Valid()
                        && (r.value.apiKey, r.value.apiToken) == Credentials(key, token, env).value
    {
      var creds := Credentials(key, token, env);
      if creds.Err? {
        return Err(creds.error);
      }
      var client := new TrelloClient(creds.value.0, creds.value.1);
      r := Ok(client);
    }

    /** `_add_auth`: the caller's parameters with the stored credentials, which win over
        any `key` or `token` the caller passed. */
    function AddAuth(params: Params): (r: Params)
      ensures r.Keys == params.Keys + {"key", "token"}
      ensures r["key"] == Str(apiKey) && r["token"] == Str(apiToken)
      ensures forall k :: k in params && k != "key" && k != "token" ==> r[k] == params[k]
    {
      var auth := map["key" := Str(apiKey), "token" := Str(apiToken)];
      if params != map[] then params + auth else auth
    }

    /** Adding the credentials twice is adding them once. */
    lemma AddAuthIdempotent(params: Params)
      ensures AddAuth(AddAuth(params)) == AddAuth(params)
    {
    }

    /** Removing the credentials from an operation's query gives the operation's own parameters back. */
    lemma AddAuthKeepsQuery(op: Operation)
      ensures AddAuth(QueryOf(op)) - {"key", "token"} == QueryOf(op)
    {
      QueryHasNoCredentials(op);
    }

    /** `_request`: one request to the base URL plus the endpoint, with the credentials added. */
    function Request<T>(verb: Verb, endpoint: string, params: Params, http: HttpResult<T>): (x: Exchange<T>)
      ensures x.sent == [Sent(verb, BaseUrl + endpoint, AddAuth(params), None)]
      ensures x.outcome.Ok? <==> Succeeded(http)
      ensures x.outcome.Ok? ==> x.outcome.value == http.body
      ensures x.outcome.Err? ==> KindOf(RequestTexts(endpoint), x.outcome.error) == Some(FailureOf(http))
    {
      KindOfClassify(RequestTexts(endpoint), http);
      Exchange([Sent(verb, BaseUrl + endpoint, AddAuth(params), None)], Classify(RequestTexts(endpoint), http))
    }

    /** An operation that is one `_request` call, given the response it receives. */
    function Call<T>(op: Operation, http: HttpResult<T>): (x: Exchange<T>)
      requires ViaRequest(op)
      ensures |x.sent| == 1 && x.sent[0].verb == RouteOf(op).verb
      ensures x.sent[0].url == BaseUrl + RouteOf(op).endpoint
      ensures x.sent[0].query == AddAuth(QueryOf(op))
      ensures x.sent[0].query - {"key", "token"} == QueryOf(op)
      ensures x.outcome.Ok? <==> Succeeded(http)
      ensures x.outcome.Ok? ==> x.outcome.value == http.body
      ensures x.outcome.Err? ==> KindOf(RequestTexts(RouteOf(op).endpoint), x.outcome.error) == Some(FailureOf(http))
    {
      AddAuthKeepsQuery(op);
      Request(RouteOf(op).verb, RouteOf(op).endpoint, QueryOf(op), http)
    }

    /** `add_attachment_file`: a missing file raises before anything is sent; a file that
        cannot be opened raises the error of `open`; otherwise one upload is sent. */
    function UploadFile<T>(cardId: string, path: string, name: Option<string>, file: LocalFile,
                           http: HttpResult<T>): (x: Exchange<T>)
      ensures file.Missing? ==> x == Exchange([], Err("File not found: " + path))
      ensures file.Unreadable? ==> x == Exchange([], Err(file.reason))
      ensures file.Readable? ==>
        && x.sent == [Sent(POST, BaseUrl + "/cards/" + cardId + "/attachments", AddAuth(map[]),
                           Some(UploadName(name, path)))]
        && (x.outcome.Ok? <==> Succeeded(http))
        && (x.outcome.Ok? ==> x.outcome.value == http.body)
        && (x.outcome.Err? ==> KindOf(UploadTexts(cardId), x.outcome.error) == Some(FailureOf(http)))
    {
      match file
      case Missing => Exchange([], Err("File not found: " + path))
      case Unreadable(reason) => Exchange([], Err(reason))
      case Readable =>
        KindOfClassify(UploadTexts(cardId), http);
        Exchange([Sent(POST, BaseUrl + "/cards/" + cardId + "/attachments", AddAuth(map[]),
                       Some(UploadName(name, path)))],
                 Classify(UploadTexts(cardId), http))
    }

    /** The part of `download_attachment` after the metadata is known: the file request,
        then the write of its content to the output path. */
    function Fetch(cardId: string, attachmentId: string, output: string, info: AttachmentInfo,
                   file: HttpResult<seq<bv8>>, write: WriteOutcome): (x: DownloadExchange)
      ensures x.sent == [Sent(GET, BaseUrl + DownloadEndpoint(cardId, attachmentId, DownloadName(info)),
                              AddAuth(map[]), None)]
      ensures !Succeeded(file) ==>
        x.wrote == None && x.outcome.Err? && KindOf(DownloadTexts(attachmentId), x.outcome.error) == Some(FailureOf(file))
      ensures Succeeded(file) ==> x.wrote == Some((output, file.body))
      ensures Succeeded(file) && write.WriteFailed? ==> x.outcome == Err("Failed to write file: " + write.reason)
      ensures x.outcome.Ok? <==> Succeeded(file) && write.Written?
      ensures x.outcome.Ok? ==> x.outcome.value == DownloadReport(output, |file.body|, DownloadName(info), attachmentId)
    {
      var fileName := DownloadName(info);
      var sent := [Sent(GET, BaseUrl + DownloadEndpoint(cardId, attachmentId, fileName), AddAuth(map[]), None)];
      var fetched := Classify(DownloadTexts(attachmentId), file);
      KindOfClassify(DownloadTexts(attachmentId), file);
      if fetched.Err? then DownloadExchange(sent, None, Err(fetched.error))
      else
        var wrote := Some((output, fetched.value));
        match write
        case WriteFailed(reason) => DownloadExchange(sent, wrote, Err("Failed to write file: " + reason))
        case Written => DownloadExchange(sent, wrote, Ok(DownloadReport(output, |fetched.value|, fileName, attachmentId)))
    }

    /** `download_attachment`: the metadata request (`get_attachment`); when it fails its error
        is raised and nothing else is sent, otherwise the file is fetched and written. */
    function Download(cardId: string, attachmentId: string, output: string, meta: HttpResult<AttachmentInfo>,
                      file: HttpResult<seq<bv8>>, write: WriteOutcome): (x: DownloadExchange)
      ensures |x.sent| >= 1
      ensures x.sent[0] == Sent(GET, BaseUrl + "/cards/" + cardId + "/attachments/" + attachmentId, AddAuth(map[]), None)
      ensures !Succeeded(meta) ==>
        && |x.sent| == 1 && x.wrote == None && x.outcome.Err?
        && KindOf(RequestTexts("/cards/" + cardId + "/attachments/" + attachmentId), x.outcome.error)
           == Some(FailureOf(meta))
      ensures Succeeded(meta) ==>
        var rest := Fetch(cardId, attachmentId, output, meta.body, file, write);
        x.sent == x.sent[..1] + rest.sent && x.wrote == rest.wrote && x.outcome == rest.outcome
      ensures x.outcome.Ok? <==> Succeeded(meta) && Succeeded(file) && write.Written?
    {
      var endpoint := "/cards/" + cardId + "/attachments/" + attachmentId;
      var first := Request(GET, endpoint, map[], meta);
      if first.outcome.Err? then DownloadExchange(first.sent, None, Err(first.outcome.error))
      else
        var rest := Fetch(cardId, attachmentId, output, first.outcome.value, file, write);
        DownloadExchange(first.sent + rest.sent, rest.wrote, rest.outcome)
    }

    /** The download's first request is the `get_attachment` call for the same attachment. */
    lemma DownloadStartsWithMetadata(cardId: string, attachmentId: string, output: string,
                                     meta: HttpResult<AttachmentInfo>, file: HttpResult<seq<bv8>>, write: WriteOutcome)
      ensures Download(cardId, attachmentId, output, meta, file, write).sent[0]
           == Call(GetAttachment(cardId, attachmentId), meta).sent[0]
    {
      var op := GetAttachment(cardId, attachmentId);
      var endpoint := "/cards/" + cardId + "/attachments/" + attachmentId;
      assert RouteOf(op) == Route(GET, endpoint) && QueryOf(op) == map[];
      assert Call(op, meta).sent == Request(GET, endpoint, map[], meta).sent;
    }
  }

  /** The requests a download sends, the write it attempts (path and bytes), and its outcome. */
  datatype DownloadExchange = DownloadExchange(sent: seq<Sent>, wrote: Option<(string, seq<bv8>)>,
                                               outcome: Result<DownloadReport, string>)
}
