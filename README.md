# Trello MCP server: a Dafny model of its client and tool layer

The Trello MCP server exposes Trello's REST API as MCP tools and resources. It has
two parts. `TrelloClient` turns each operation on boards, lists, cards, checklists,
labels and attachments into one authenticated HTTP request. The server wraps every
client method as a tool, and it renders a board, a list or a card as text for a
model's context.

This project models the deterministic logic of both parts:

- **Operations** (`operations.dfy`): one constructor per client method, with its
  verb and endpoint. It also gives the query parameters each method builds. The
  parameters are stated declaratively, and then built step by step by methods
  proved equal to that statement. The builders follow the two optional-field rules
  of the source. Some drop a field when it is falsy (`if desc:`). Others drop it
  only when it is `None` (`if due is not None:`). The request an operation sends
  carries the declarative query, which each builder is proved to construct.
- **Client** (`client.dfy`):
  - the credential check done at construction;
  - the client object and the merge of its credentials into every query;
  - how a failed exchange becomes a message, with a decoder that proves no two
    kinds of failure share a message;
  - file upload and attachment download, including the name each one chooses.
- **Facade** (`facade.dfy`): how a tool shapes the outcome of its client call. The
  value comes back unchanged. The two deletions come back as a confirmation. A
  failure comes back as an error record echoing the tool's arguments, and collection
  tools wrap that record in a list. This file also has the lazily built, shared
  client.
- **Views** (`views.dfy`): the board, list and card resources. Each is a
  specification function on the fetched records plus, where the source loops, a
  method with the same loops proved equal to it.
- `text.dfy`, `values.dfy` and `wrappers.dfy` hold the Python built-ins the core
  relies on, as strings and values. These are `str(int)`, `sep.join`, `str.split`,
  `os.path.basename`, truthiness and `dict.get` with a default.

The HTTP library is an oracle. Whatever a request receives is an input: a response
with a status and a body, or a transport error. The model returns the requests an
operation sends together with what it returns or raises. The same goes for three
other inputs: the environment variables, the local file an upload opens, and the
outcome of the download's write. On the server side, each client call is an input
of type `Result<T, string>`, holding either the value or the text of the exception.

## Model

| member | source | states |
|---|---|---|
| Values.IfTruthy | src/trello_mcp/trello_client.py:120-121 | the key is present iff the optional argument is given and non-empty, with that value, and no other key is present |
| Values.IfGiven | src/trello_mcp/trello_client.py:248-249 | the key is present iff the optional argument is given (even if empty or false), with that value, and no other key is present |
| Operations.CreateBoardQuery | src/trello_mcp/trello_client.py:119-121 | `name` is always sent; `desc` only when non-empty, with its value; no other key |
| Operations.CreateListQuery | src/trello_mcp/trello_client.py:150-152 | `name` is always sent; `pos` only when non-empty, with its value; no other key |
| Operations.CreateCardQuery | src/trello_mcp/trello_client.py:210-216 | `idList` and `name` are always sent; `desc`, `pos` and `due` each only when non-empty, with its value; no other key |
| Operations.UpdateCardQuery | src/trello_mcp/trello_client.py:241-251 | `name`, `desc` and `idList` are present iff non-empty; `due` iff given, so `""` is sent; `dueComplete` iff given, so `False` is sent; each carries its input's value; no other key |
| Operations.MoveCardQuery | src/trello_mcp/trello_client.py:278-280 | `idList` is always sent; `pos` only when non-empty, with its value; no other key |
| Operations.CreateChecklistQuery | src/trello_mcp/trello_client.py:351-355 | `idCard` is always sent; the required `name` is present iff non-empty; `pos` only when non-empty; each with its value; no other key |
| Operations.UpdateChecklistQuery | src/trello_mcp/trello_client.py:385-389 | `name` and `pos` each only when non-empty, with its value; no other key |
| Operations.AddChecklistItemQuery | src/trello_mcp/trello_client.py:434-438 | `name` is always sent; `checked` iff given, as the text `"true"` or `"false"`; `pos` only when non-empty, with its value; no other key |
| Operations.UpdateChecklistItemQuery | src/trello_mcp/trello_client.py:461-467 | `name`, `state` and `pos` each only when non-empty, each with its value; no other key |
| Operations.CreateLabelQuery | src/trello_mcp/trello_client.py:518-520 | `idBoard` and `name` are always sent; `color` iff given, so an empty colour is sent; no other key |
| Operations.UpdateLabelQuery | src/trello_mcp/trello_client.py:550-554 | `name` and `color` each iff given, so empty strings are sent; each with its value; no other key |
| Operations.AddAttachmentUrlQuery | src/trello_mcp/trello_client.py:658-660 | `url` is always sent; `name` only when non-empty, with its value; no other key |
| Operations.RouteOf | src/trello_mcp/trello_client.py:90-779 | every operation's endpoint is an absolute path of more than one character below the base URL |
| Operations.QueryOf | src/trello_mcp/trello_client.py:109-661 | every operation's query uses only the parameter names the client methods declare, so it never holds `key` or `token` |
| Operations.CreateBoardParams | src/trello_mcp/trello_client.py:119-121 | inserting the optional key in place under its guard builds exactly the declared query |
| Operations.CreateListParams | src/trello_mcp/trello_client.py:150-152 | inserting in place builds exactly the declared query |
| Operations.CreateCardParams | src/trello_mcp/trello_client.py:210-216 | inserting in place builds exactly the declared query |
| Operations.UpdateCardParams | src/trello_mcp/trello_client.py:241-251 | the five guarded in-place insertions build exactly the declared query |
| Operations.MoveCardParams | src/trello_mcp/trello_client.py:278-280 | inserting in place builds exactly the declared query |
| Operations.CreateChecklistParams | src/trello_mcp/trello_client.py:351-355 | inserting in place builds exactly the declared query |
| Operations.UpdateChecklistParams | src/trello_mcp/trello_client.py:385-389 | inserting in place builds exactly the declared query |
| Operations.AddChecklistItemParams | src/trello_mcp/trello_client.py:434-438 | inserting in place builds exactly the declared query |
| Operations.UpdateChecklistItemParams | src/trello_mcp/trello_client.py:461-467 | inserting in place builds exactly the declared query |
| Operations.CreateLabelParams | src/trello_mcp/trello_client.py:518-520 | inserting in place builds exactly the declared query |
| Operations.UpdateLabelParams | src/trello_mcp/trello_client.py:550-554 | inserting in place builds exactly the declared query |
| Operations.AddAttachmentUrlParams | src/trello_mcp/trello_client.py:658-660 | inserting in place builds exactly the declared query |
| Operations.DueDateIsUpdate | src/trello_mcp/trello_client.py:285-296 | `set_card_due_date` sends the same request as `update_card` with only `due` |
| Operations.CompletionIsUpdate | src/trello_mcp/trello_client.py:298-311 | `mark_due_date_complete` sends the same request as `update_card` with only `dueComplete` |
| Operations.MoveIsUpdate | src/trello_mcp/trello_client.py:278-281 | `move_card` without a position and with a non-empty list id sends the same request as `update_card` with only `idList` |
| Operations.MoveCardAlwaysSendsList | src/trello_mcp/trello_client.py:241-281 | `move_card` always sends `idList`; `update_card` drops an empty list id |
| Operations.ClearDueIsNoUpdate | src/trello_mcp/trello_client.py:241-323 | `clear_card_due_date` sends `due` as `None`, which differs from the query of every `update_card` call |
| Operations.ClearDueOnTheWire | src/trello_mcp/trello_client.py:322-323 | on the wire the clearing request is `due=` with an empty value, the same as `update_card(due="")` |
| Operations.SetCardLabelsRoundTrip | src/trello_mcp/trello_client.py:614 | `idLabels` is the comma-join of the ids; splitting it at commas gives the ids back when there is at least one and none contains a comma |
| Operations.SetNoCardLabels | src/trello_mcp/trello_client.py:614 | an empty id list sends `idLabels` as the empty string |
| Operations.QueryHasNoCredentials | src/trello_mcp/trello_client.py:109-661 | no operation's own parameters are named `key` or `token` |
| Client.Credentials | src/trello_mcp/trello_client.py:20-27 | construction succeeds iff both the key and the token resolve to non-empty strings; an explicit non-empty argument wins, otherwise the environment's value is used; otherwise the fixed missing-credentials message |
| Client.TrelloClient.Create | src/trello_mcp/trello_client.py:13-29 | raises the missing-credentials message and builds no client exactly when the credentials do not resolve; otherwise a new client holding the resolved pair |
| Client.TrelloClient.constructor | src/trello_mcp/trello_client.py:20-21 | the client stores the two credentials it is given |
| Client.TrelloClient.AddAuth | src/trello_mcp/trello_client.py:40-43 | the result has exactly the caller's keys plus `key` and `token`; those two hold the stored credentials even if the caller passed them; every other caller entry is unchanged |
| Client.TrelloClient.AddAuthIdempotent | src/trello_mcp/trello_client.py:40-43 | adding the credentials twice is adding them once |
| Client.TrelloClient.AddAuthKeepsQuery | src/trello_mcp/trello_client.py:40-43 | removing `key` and `token` from an authenticated operation query gives back the operation's own parameters |
| Client.Classify | src/trello_mcp/trello_client.py:70-86 | the outcome is the body iff the response is 2xx, and a message otherwise |
| Client.KindOfClassify | src/trello_mcp/trello_client.py:73-86 | messages are tied to failures: 401 gives the invalid-credentials text; 404 and 429 give their texts; any other status gives the prefix plus the status code; a transport error gives the prefix plus its text; each kind of failure, with its code or its text, can be read back from the message |
| Client.KindOfDetermines | src/trello_mcp/trello_client.py:73-86 | a message the decoder reads is exactly the message of the failure it reads; the status code must be written as `str` writes it, so `Trello API error: 0500` is not read as a 500 |
| Client.RequestTexts | src/trello_mcp/trello_client.py:73-86 | the texts of `_request` (401, 404 naming the endpoint, 429 with its advice, the other-status and transport prefixes) are pairwise distinguishable, for every endpoint |
| Client.UploadTexts | src/trello_mcp/trello_client.py:700-710 | the upload's texts (404 names the card, short rate-limit text) are pairwise distinguishable |
| Client.DownloadTexts | src/trello_mcp/trello_client.py:755-765 | the download's texts (404 names the attachment, its own fallback and transport prefixes) are pairwise distinguishable |
| Client.TrelloClient.Request | src/trello_mcp/trello_client.py:45-86 | one request with the given verb, to the base URL plus the endpoint, with the credentials added to the query; the body is returned iff the response is 2xx; otherwise the message raised decodes to the kind of failure with `_request`'s texts |
| Client.TrelloClient.Call | src/trello_mcp/trello_client.py:66-86 | one request, with the operation's verb, to the base URL plus its endpoint, whose query is the operation's query with the stored credentials added, and minus the credentials is the operation's query; ok iff 2xx, and then the body is returned; a failure's message decodes to its kind |
| Client.UploadName | src/trello_mcp/trello_client.py:692 | the given name when non-empty; otherwise a slash-free suffix of the path that starts the path or follows a `/` |
| Text.Basename | src/trello_mcp/trello_client.py:692 | the result has no `/`, is a suffix of the path, and is the whole path or is preceded by a `/` |
| Client.TrelloClient.UploadFile | src/trello_mcp/trello_client.py:685-710 | a missing file raises `File not found: <path>` with nothing sent. An unopenable file raises the error of `open`. Otherwise one POST goes to the card's attachments with only the credentials as query and the chosen part name; ok iff 2xx, and then the body is returned; a failure decodes to its kind with the upload's texts |
| Client.DownloadName | src/trello_mcp/trello_client.py:733 | `fileName` if non-empty, else `name` if non-empty, else `download`; never empty |
| Client.DownloadEndpointExtendsMetadata | src/trello_mcp/trello_client.py:737 | the download endpoint is the attachment's metadata endpoint followed by `/download/` and the file name |
| Client.TrelloClient.Fetch | src/trello_mcp/trello_client.py:737-767 | one GET to the download endpoint with only the credentials. On a non-2xx or transport failure, nothing is written and the message decodes to its kind with the download's texts. On success the body is written to the output path. A failed write raises `Failed to write file: …`. Otherwise the report holds the path, the body size, the chosen name and the attachment id |
| Client.TrelloClient.Download | src/trello_mcp/trello_client.py:730-767 | the metadata GET comes first. If it fails, its `_request` message is raised and nothing else is sent or written; otherwise the rest is `Fetch`. Ok iff both requests succeed and the write does |
| Client.TrelloClient.DownloadStartsWithMetadata | src/trello_mcp/trello_client.py:732 | the download's first request is exactly the `get_attachment` request for the same card and attachment |
| Facade.CollectionsAreReads | src/trello_mcp/server.py:26-39 | the tools declared to return a list (`list_boards` and the seven other `list[dict]` tools) are all tools and all read with GET |
| Facade.ConfirmationsAreDeletions | src/trello_mcp/server.py:258-271 | the tools that confirm (`delete_card` and `delete_attachment`, server.py:910-924) are tools that send DELETE, and none of them returns a list |
| Facade.ToolArgs | src/trello_mcp/server.py:37-927 | the arguments a tool echoes never use the name `error` |
| Facade.Shape | src/trello_mcp/server.py:32-39 | on success, the client's value unchanged, except that `delete_card` and `delete_attachment` confirm with their ids and the value. On failure, a record with `error` set to the message whose other entries are exactly the tool's echoed arguments, wrapped in a one-element list iff the tool returns a collection |
| Facade.RecoverShape | src/trello_mcp/server.py:32-39 | the outcome of the client call can always be read back from the tool's reply |
| Facade.Server.constructor | src/trello_mcp/server.py:11 | the server starts with no client |
| Facade.Server.GetClient | src/trello_mcp/server.py:14-19 | the first successful call builds the client from the environment; every later call returns that same instance; a failed build leaves no client and returns the missing-credentials message |
| Facade.Server.Tool | src/trello_mcp/server.py:32-39 | a failure to build the client is returned as an error record like any other failure; otherwise the reply is the shaped client outcome, and the shared client is kept; a client built by this call holds the credentials resolved from the environment |
| Views.BoardView | src/trello_mcp/server.py:943-981 | a failed board or list fetch gives the single line `Error loading board <id>: <message>` |
| Views.RenderBoardCards | src/trello_mcp/server.py:968-973 | the inner loop appends each card's line and, when it has one, its description line |
| Views.RenderListBlock | src/trello_mcp/server.py:961-977 | a list's heading, then `Error loading cards`, `No cards`, or `Cards (k):` and its card entries |
| Views.RenderBoardLines | src/trello_mcp/server.py:953-977 | the loops build the header and then every list's block, in order |
| Views.RenderBoard | src/trello_mcp/server.py:943-981 | the rendered text is the board view |
| Views.Headings | src/trello_mcp/server.py:960-961 | one heading per list, in the lists' order |
| Views.BoardHeader | src/trello_mcp/server.py:953-958 | four lines: `Board: ` with the name or `Unknown`, `URL: ` with the URL or `N/A`, `Description: ` with the description or `No description` (a JSON `null` shows as `None`), then `\nLists (N):` with N the list count; none of them opens a list block |
| Views.BoardHeadings | src/trello_mcp/server.py:953-961 | the fourth line is `\nLists (N):` with N the number of lists, and the lines that open a list block are exactly the list headings, in order |
| Views.FailedFetchStaysLocal | src/trello_mcp/server.py:964-977 | a failed card fetch for one list turns that list's block into its heading and `Error loading cards`; the header and every other block stay as they are |
| Views.BoardCardLines | src/trello_mcp/server.py:969-971 | one board-view card line per card, in order, each the card's bullet line |
| Views.BoardCardBullets | src/trello_mcp/server.py:967-973 | the card lines among a list's card entries are exactly the cards' lines, one per card, in the cards' order |
| Views.CardsBlockShape | src/trello_mcp/server.py:964-977 | a failed fetch gives `    Error loading cards`; no cards gives `    No cards`; k cards give `    Cards (k):` then entries whose card lines are the cards' lines in order |
| Views.ListCardEntry | src/trello_mcp/server.py:1005-1011 | one card line, plus a Description line iff the description is non-empty and a URL line iff the URL is non-empty |
| Views.ListView | src/trello_mcp/server.py:994-1017 | a failed fetch gives the single line `Error loading list <id>: <message>` |
| Views.RenderListLines | src/trello_mcp/server.py:1001-1013 | the loop builds the list view's lines |
| Views.RenderList | src/trello_mcp/server.py:994-1017 | the rendered text is the list view |
| Views.ListCardLines | src/trello_mcp/server.py:1005-1008 | one list-view card line per card, in order, each the card's bullet line |
| Views.ListLines | src/trello_mcp/server.py:1001-1013 | the list view starts with the list id and `\nCards (N):`, has as its card lines exactly the cards' lines, one per card and in order, and with no cards ends with `  No cards in this list` |
| Views.CardLines | src/trello_mcp/server.py:1035-1044 | one line per title, `Card: ` to `Labels: `, in the source's order; each shows its field, or for a missing field its default (`Unknown` for the name, `N/A` for the id, URL, list id and board id, `No description`, `None` for the due date), with JSON `null` shown as `None`; the labels line holds the comma-joined label names |
| Views.FirstNullName | src/trello_mcp/server.py:1043 | the position of the first label whose name is JSON `null`, and none exactly when no label's name is `null` |
| Views.LabelNames | src/trello_mcp/server.py:1043 | one name per label, in order, each `Unnamed` when missing |
| Views.CardView | src/trello_mcp/server.py:1030-1048 | a failed fetch gives the single line `Error loading card <id>: <message>`; a label named JSON `null` makes the join fail, giving that line with the join's type error for the first such label |
| Views.CardViewLines | src/trello_mcp/server.py:1035-1046 | the card view is exactly eight lines when no field holds a newline and no label is named `null`, and splits back into them; the labels line is `Labels: ` for a card without labels |

## Left out

- The HTTP transport, response JSON decoding, the 30-second timeout and `close`: each request's result is an input.
- URL and query escaping by the HTTP library: endpoints are plain concatenations of the ids. The download file name is placed in the path unescaped.
- The `json` argument of `_request`: no client method passes one.
- `os.path.exists` and `open` for uploads are one input. So is opening and writing the download's output file. The time between the existence check and the open is not modelled, and neither is multipart streaming. `wrote` records the write the client attempts, path and content, even when the write fails; whether a failed write leaves a partial or empty file is not modelled.
- Python exception classes: only the text of each exception is modelled. The two `except` blocks of the `add_attachment_file` tool return the same record, so they are one case.
- The constant `success: True` entry of the download's result dictionary is implied by the `Ok` outcome and not stored.
- `get_label` is a client method without a tool, so `Facade` requires `HasTool`.
- Operations.MarkDueDateComplete: the constructor takes `complete` explicitly; a call that relies on the source's default `complete=True` is `MarkDueDateComplete(c, true)`.
- Text.Basename: `os.path.basename` is modelled as the POSIX one, where only `/` separates; on Windows `\` separates too, and that is not modelled.
- Facade.Server.Tool: the client call is an input rather than `Client.TrelloClient.Call`, because on the server side every client call, upload and download included, is treated alike.
- `context.info` and `context.error` logging, the FastMCP decorators, and `__main__.py`: these are framework and process glue.
- Views: the nested card fetches are inputs carried with each list. So the endpoint a list without an `id` would hit (`/lists/None/cards`) is not modelled.
- Views.CardViewLines: a JSON `null` in place of the labels list, which makes the source raise and show the error line, is not modelled. A missing labels field is an empty sequence.
- Views.LabelNames: a label name is modelled as text, JSON `null` or missing. A name of another JSON type, such as a number, which would also make the join fail, is not modelled. The text of the join's error is CPython's `TypeError` message.
- Values.Wire: encoding `None` as the empty string and booleans as `true`/`false` is how the HTTP library writes query values. It is stated here, not derived from code in this repository.
- The remote store's behaviour, such as whether a due-date clear or a label reset takes effect: the client only sends parameters.
