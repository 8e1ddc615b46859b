/**
 * The server's tools: each one gets the client (built on first use), makes one client
 * call and returns its value unchanged; on any exception it returns instead an error
 * record holding the message and the tool's identifying arguments. The client call is
 * an input of type `Result<T, string>`: its value, or the text of what it raised.
 */
module Facade {

  import opened Wrappers
  import opened Operations
  import opened Client

  /** An argument echoed in an error record: a string, or a list of strings (`label_ids`). */
  datatype Arg = Arg(s: string) | ArgList(items: seq<string>)

  type Record = map<string, Arg>

  /** What a tool returns: the client's value; for the two deletions, a confirmation holding
      `success: True`, the ids and the client's value; or an error record, which the tools
      returning a collection wrap in a list. */
  datatype Reply<+T> =
    | Returned(value: T)
    | Confirmed(ids: Record, result: T)
    | Failed(record: Record)
    | FailedList(records: seq<Record>)

  /** Every client method is a tool except `get_label`. */
  predicate HasTool(op: Operation) { !op.GetLabel? }

  /** The tools declared to return a list. */
  predicate ReturnsCollection(op: Operation)
  {
    || op.ListBoards? || op.GetBoardLists? || op.ListCards? || op.GetCardChecklists?
    || op.GetChecklistItems? || op.GetBoardLabels? || op.GetCardLabels? || op.GetCardAttachments?
  }

  /** The tools that wrap the client's value in a confirmation. */
  predicate ConfirmsDeletion(op: Operation) { op.DeleteCard? || op.DeleteAttachment? }

  /** Every tool declared to return a list is a tool that reads, with GET. */
  lemma CollectionsAreReads(op: Operation)
    ensures ReturnsCollection(op) ==> HasTool(op) && RouteOf(op).verb == GET
  {
  }

  /** Every tool that confirms is a tool that removes, with DELETE, and returns no list. */
  lemma ConfirmationsAreDeletions(op: Operation)
    ensures ConfirmsDeletion(op) ==> HasTool(op) && RouteOf(op).verb == DELETE && !ReturnsCollection(op)
  {
  }

  /** The arguments a tool echoes, under the names of its parameters. */
  function ToolArgs(op: Operation): (args: Record)
    requires HasTool(op)
    ensures "error" !in args
  {
    match op
    case ListBoards => map[]
    case GetBoard(b) => map["board_id" := Arg(b)]
    case CreateBoard(name, _) => map["name" := Arg(name)]
    case GetBoardLists(b) => map["board_id" := Arg(b)]
    case CreateList(b, name, _) => map["board_id" := Arg(b), "name" := Arg(name)]
    case ArchiveList(l) => map["list_id" := Arg(l)]
    case ListCards(l) => map["list_id" := Arg(l)]
    case GetCard(c) => map["card_id" := Arg(c)]
    case CreateCard(l, name, _, _, _) => map["list_id" := Arg(l), "name" := Arg(name)]
    case UpdateCard(c, _, _, _, _, _) => map["card_id" := Arg(c)]
    case DeleteCard(c) => map["card_id" := Arg(c)]
    case MoveCard(c, l, _) => map["card_id" := Arg(c), "list_id" := Arg(l)]
    case SetCardDueDate(c, d) => map["card_id" := Arg(c), "due_date" := Arg(d)]
    case MarkDueDateComplete(c, _) => map["card_id" := Arg(c)]
    case ClearCardDueDate(c) => map["card_id" := Arg(c)]
    case GetCardChecklists(c) => map["card_id" := Arg(c)]
    case CreateChecklist(c, name, _) => map["card_id" := Arg(c), "name" := Arg(name)]
    case GetChecklist(k) => map["checklist_id" := Arg(k)]
    case UpdateChecklist(k, _, _) => map["checklist_id" := Arg(k)]
    case DeleteChecklist(k) => map["checklist_id" := Arg(k)]
    case GetChecklistItems(k) => map["checklist_id" := Arg(k)]
    case AddChecklistItem(k, name, _, _) => map["checklist_id" := Arg(k), "name" := Arg(name)]
    case UpdateChecklistItem(c, i, _, _, _) => map["card_id" := Arg(c), "checklist_item_id" := Arg(i)]
    case DeleteChecklistItem(k, i) => map["checklist_id" := Arg(k), "checklist_item_id" := Arg(i)]
    case GetBoardLabels(b) => map["board_id" := Arg(b)]
    case CreateLabel(b, name, _) => map["board_id" := Arg(b), "name" := Arg(name)]
    case UpdateLabel(l, _, _) => map["label_id" := Arg(l)]
    case DeleteLabel(l) => map["label_id" := Arg(l)]
    case GetCardLabels(c) => map["card_id" := Arg(c)]
    case AddLabelToCard(c, l) => map["card_id" := Arg(c), "label_id" := Arg(l)]
    case RemoveLabelFromCard(c, l) => map["card_id" := Arg(c), "label_id" := Arg(l)]
    case SetCardLabels(c, ids) => map["card_id" := Arg(c), "label_ids" := ArgList(ids)]
    case GetCardAttachments(c) => map["card_id" := Arg(c)]
    case GetAttachment(c, a) => map["card_id" := Arg(c), "attachment_id" := Arg(a)]
    case AddAttachmentUrl(c, url, _) => map["card_id" := Arg(c), "url" := Arg(url)]
    case AddAttachmentFile(c, path, _) => map["card_id" := Arg(c), "file_path" := Arg(path)]
    case DownloadAttachment(c, a, out) =>
      map["card_id" := Arg(c), "attachment_id" := Arg(a), "output_path" := Arg(out)]
    case DeleteAttachment(c, a) => map["card_id" := Arg(c), "attachment_id" := Arg(a)]
  }

  /** The error record of a failed reply. */
  function ErrorRecord<T>(r: Reply<T>): Record
    requires r.Failed? || (r.FailedList? && |r.records| == 1)
  {
    if r.Failed? then r.record else r.records[0]
  }

  /** A tool's reply to the outcome of its client call. It never raises: a failure is
      returned as the message plus the echoed arguments, a success as the value unchanged. */
  function Shape<T>(op: Operation, call: Result<T, string>): (r: Reply<T>)
    requires HasTool(op)
    ensures call.Ok? && !ConfirmsDeletion(op) ==> r == Returned(call.value)
    ensures call.Ok? && ConfirmsDeletion(op) ==> r == Confirmed(ToolArgs(op), call.value)
    ensures call.Err? ==> (r.Failed? && !ReturnsCollection(op))
                          || (r.FailedList? && ReturnsCollection(op) && |r.records| == 1)
    ensures call.Err? ==> "error" in ErrorRecord(r) && ErrorRecord(r)["error"] == Arg(call.error)
    ensures call.Err? ==> ErrorRecord(r) - {"error"} == ToolArgs(op)
  {
    match call
    case Ok(v) => if ConfirmsDeletion(op) then Confirmed(ToolArgs(op), v) else Returned(v)
    case Err(msg) =>
      var record := ToolArgs(op)["error" := Arg(msg)];
      if ReturnsCollection(op) then FailedList([record]) else Failed(record)
  }

  /** What a caller reads back from a reply: the client's value, or the error message. */
  function Recover<T>(r: Reply<T>): Result<T, string>
  {
    match r
    case Returned(v) => Ok(v)
    case Confirmed(_, v) => Ok(v)
    case Failed(record) => if "error" in record && record["error"].Arg? then Err(record["error"].s) else Err("")
    case FailedList(records) =>
      if |records| == 1 && "error" in records[0] && records[0]["error"].Arg? then Err(records[0]["error"].s)
      else Err("")
  }

  /** A caller recovers exactly the outcome of the client call from any tool's reply. */
  lemma RecoverShape<T>(op: Operation, call: Result<T, string>)
    requires HasTool(op)
    ensures Recover(Shape(op, call)) == call
  {
  }

  /** The server's module-level state: the client, built on first use. */
  class Server {
    var client: TrelloClient?

    predicate Valid()
      reads this
    {
      client != null ==> client.Valid()
    }

    constructor ()
      ensures client == null && Valid()
    {
      client := null;
    }

    /** `get_client`: builds the client from the environment the first time, and returns
        the same instance on every later call; a failed build leaves no client behind. */
    method GetClient(env: Env) returns (r: Result<TrelloClient, string>)
      requires Valid()
      modifies this
      ensures Valid()
      ensures old(client) != null ==> r == Ok(old(client)) && client == old(client)
      ensures old(client) == null ==> (r.Err? <==> Credentials(None, None, env).Err?)
      ensures old(client) == null && r.Ok? ==>
        fresh(r.value) && client == r.value
        && (r.value.apiKey, r.value.apiToken) == Credentials(None, None, env).value
      ensures r.Err? ==> client == null && r.error == MissingCredentials
    {
      if client == null {
        r := TrelloClient.Create(None, None, env);
        if r.Ok? {
          client := r.value;
        }
      } else {
        r := Ok(client);
      }
    }

    /** A tool: `get_client` and the client call both happen inside the tool's `try`, so a
        failure to build the client is returned as an error record like any other failure. */
    method Tool<T>(op: Operation, env: Env, call: Result<T, string>) returns (reply: Reply<T>)
      requires Valid() && HasTool(op)
      modifies this
      ensures Valid()
      ensures old(client) != null ==> client == old(client) && reply == Shape(op, call)
      ensures old(client) == null && Credentials(None, None, env).Err? ==>
        client == null && reply == Shape(op, Err(MissingCredentials))
      ensures old(client) == null && Credentials(None, None, env).Ok? ==>
        && client != null && fresh(client) && reply == Shape(op, call)
        && (client.apiKey, client.apiToken) == Credentials(None, None, env).value
    {
      var c := GetClient(env);
      if c.Err? {
        reply := Shape(op, Err(c.error));
      } else {
        reply := Shape(op, call);
      }
    }
  }
}
