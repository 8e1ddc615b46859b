/**
 * The per-resource operations of the client, one constructor per client method
 * (the server exposes each as a tool with the same arguments), with the HTTP verb
 * and endpoint each one uses and the query parameters it builds before the
 * credentials are added.
 */
module Operations {

  import opened Wrappers
  import opened Text
  import opened Values

  datatype Verb = GET | POST | PUT | DELETE

  datatype Operation =
    | ListBoards
    | GetBoard(boardId: string)
    | CreateBoard(name: string, desc: Option<string>)
    | GetBoardLists(boardId: string)
    | CreateList(boardId: string, name: string, pos: Option<string>)
    | ArchiveList(listId: string)
    | ListCards(listId: string)
    | GetCard(cardId: string)
    | CreateCard(listId: string, name: string, desc: Option<string>, pos: Option<string>, due: Option<string>)
    | UpdateCard(cardId: string, newName: Option<string>, desc: Option<string>, newListId: Option<string>,
                 due: Option<string>, dueComplete: Option<bool>)
    | DeleteCard(cardId: string)
    | MoveCard(cardId: string, listId: string, pos: Option<string>)
    | SetCardDueDate(cardId: string, dueDate: string)
    | MarkDueDateComplete(cardId: string, complete: bool)
    | ClearCardDueDate(cardId: string)
    | GetCardChecklists(cardId: string)
    | CreateChecklist(cardId: string, name: string, pos: Option<string>)
    | GetChecklist(checklistId: string)
    | UpdateChecklist(checklistId: string, newName: Option<string>, pos: Option<string>)
    | DeleteChecklist(checklistId: string)
    | GetChecklistItems(checklistId: string)
    | AddChecklistItem(checklistId: string, name: string, checked: Option<bool>, pos: Option<string>)
    | UpdateChecklistItem(cardId: string, checkItemId: string, newName: Option<string>, state: Option<string>,
                          pos: Option<string>)
    | DeleteChecklistItem(checklistId: string, checkItemId: string)
    | GetBoardLabels(boardId: string)
    | CreateLabel(boardId: string, name: string, color: Option<string>)
    | GetLabel(labelId: string)
    | UpdateLabel(labelId: string, newName: Option<string>, color: Option<string>)
    | DeleteLabel(labelId: string)
    | GetCardLabels(cardId: string)
    | AddLabelToCard(cardId: string, labelId: string)
    | RemoveLabelFromCard(cardId: string, labelId: string)
    | SetCardLabels(cardId: string, labelIds: seq<string>)
    | GetCardAttachments(cardId: string)
    | GetAttachment(cardId: string, attachmentId: string)
    | AddAttachmentUrl(cardId: string, url: string, attachmentName: Option<string>)
    | AddAttachmentFile(cardId: string, filePath: string, attachmentName: Option<string>)
    | DownloadAttachment(cardId: string, attachmentId: string, outputPath: string)
    | DeleteAttachment(cardId: string, attachmentId: string)

  /** The operations that consist of one `_request` call; upload and download do their own HTTP. */
  predicate ViaRequest(op: Operation)
  {
    !op.AddAttachmentFile? && !op.DownloadAttachment?
  }

  datatype Route = Route(verb: Verb, endpoint: string)

  /** The verb and endpoint (relative to the API base URL) of an operation's request;
      for a download, the attachment-metadata request it starts with. Every endpoint is an
      absolute path below the base URL. */
  function RouteOf(op: Operation): (r: Route)
    ensures |r.endpoint| > 1 && r.endpoint[0] == '/'
  {
    match op
    case ListBoards => Route(GET, "/members/me/boards")
    case GetBoard(b) => Route(GET, "/boards/" + b)
    case CreateBoard(_, _) => Route(POST, "/boards/")
    case GetBoardLists(b) => Route(GET, "/boards/" + b + "/lists")
    case CreateList(b, _, _) => Route(POST, "/boards/" + b + "/lists")
    case ArchiveList(l) => Route(PUT, "/lists/" + l + "/closed")
    case ListCards(l) => Route(GET, "/lists/" + l + "/cards")
    case GetCard(c) => Route(GET, "/cards/" + c)
    case CreateCard(_, _, _, _, _) => Route(POST, "/cards")
    case UpdateCard(c, _, _, _, _, _) => Route(PUT, "/cards/" + c)
    case DeleteCard(c) => Route(DELETE, "/cards/" + c)
    case MoveCard(c, _, _) => Route(PUT, "/cards/" + c)
    case SetCardDueDate(c, _) => Route(PUT, "/cards/" + c)
    case MarkDueDateComplete(c, _) => Route(PUT, "/cards/" + c)
    case ClearCardDueDate(c) => Route(PUT, "/cards/" + c)
    case GetCardChecklists(c) => Route(GET, "/cards/" + c + "/checklists")
    case CreateChecklist(_, _, _) => Route(POST, "/checklists")
    case GetChecklist(k) => Route(GET, "/checklists/" + k)
    case UpdateChecklist(k, _, _) => Route(PUT, "/checklists/" + k)
    case DeleteChecklist(k) => Route(DELETE, "/checklists/" + k)
    case GetChecklistItems(k) => Route(GET, "/checklists/" + k + "/checkItems")
    case AddChecklistItem(k, _, _, _) => Route(POST, "/checklists/" + k + "/checkItems")
    case UpdateChecklistItem(c, i, _, _, _) => Route(PUT, "/cards/" + c + "/checkItem/" + i)
    case DeleteChecklistItem(k, i) => Route(DELETE, "/checklists/" + k + "/checkItems/" + i)
    case GetBoardLabels(b) => Route(GET, "/boards/" + b + "/labels")
    case CreateLabel(_, _, _) => Route(POST, "/labels")
    case GetLabel(l) => Route(GET, "/labels/" + l)
    case UpdateLabel(l, _, _) => Route(PUT, "/labels/" + l)
    case DeleteLabel(l) => Route(DELETE, "/labels/" + l)
    case GetCardLabels(c) => Route(GET, "/cards/" + c + "/labels")
    case AddLabelToCard(c, _) => Route(POST, "/cards/" + c + "/idLabels")
    case RemoveLabelFromCard(c, l) => Route(DELETE, "/cards/" + c + "/idLabels/" + l)
    case SetCardLabels(c, _) => Route(PUT, "/cards/" + c)
    case GetCardAttachments(c) => Route(GET, "/cards/" + c + "/attachments")
    case GetAttachment(c, a) => Route(GET, "/cards/" + c + "/attachments/" + a)
    case AddAttachmentUrl(c, _, _) => Route(POST, "/cards/" + c + "/attachments")
    case AddAttachmentFile(c, _, _) => Route(POST, "/cards/" + c + "/attachments")
    case DownloadAttachment(c, a, _) => Route(GET, "/cards/" + c + "/attachments/" + a)
    case DeleteAttachment(c, a) => Route(DELETE, "/cards/" + c + "/attachments/" + a)
  }

  // The query parameters each operation builds before the credentials are added,
  // stated declaratively: the fixed entries plus each optional one under its guard,
  // `IfTruthy` for `if v:` and `IfGiven` for `if v is not None:`.

  function CreateBoardQuery(name: string, desc: Option<string>): (q: Params)
    ensures "name" in q && q["name"] == Str(name)
    ensures "desc" in q <==> Truthy(desc)
    ensures "desc" in q ==> q["desc"] == Str(desc.value)
    ensures q.Keys <= {"name", "desc"}
  {
    map["name" := Str(name)] + IfTruthy("desc", desc)
  }

  function CreateListQuery(name: string, pos: Option<string>): (q: Params)
    ensures "name" in q && q["name"] == Str(name)
    ensures "pos" in q <==> Truthy(pos)
    ensures "pos" in q ==> q["pos"] == Str(pos.value)
    ensures q.Keys <= {"name", "pos"}
  {
    map["name" := Str(name)] + IfTruthy("pos", pos)
  }

  function CreateCardQuery(listId: string, name: string, desc: Option<string>, pos: Option<string>,
                           due: Option<string>): (q: Params)
    ensures "idList" in q && q["idList"] == Str(listId) && "name" in q && q["name"] == Str(name)
    ensures "desc" in q <==> Truthy(desc)
    ensures "desc" in q ==> q["desc"] == Str(desc.value)
    ensures "pos" in q <==> Truthy(pos)
    ensures "pos" in q ==> q["pos"] == Str(pos.value)
    ensures "due" in q <==> Truthy(due)
    ensures "due" in q ==> q["due"] == Str(due.value)
    ensures q.Keys <= {"idList", "name", "desc", "pos", "due"}
  {
    map["idList" := Str(listId), "name" := Str(name)] + IfTruthy("desc", desc) + IfTruthy("pos", pos)
    + IfTruthy("due", due)
  }

  /** `update_card` mixes the two rules: `name`, `desc` and `idList` are dropped when empty,
      while `due` and `dueComplete` are dropped only when `None`, so `""` and `False` are sent. */
  function UpdateCardQuery(name: Option<string>, desc: Option<string>, listId: Option<string>,
                           due: Option<string>, dueComplete: Option<bool>): (q: Params)
    ensures "name" in q <==> Truthy(name)
    ensures "name" in q ==> q["name"] == Str(name.value)
    ensures "desc" in q <==> Truthy(desc)
    ensures "desc" in q ==> q["desc"] == Str(desc.value)
    ensures "idList" in q <==> Truthy(listId)
    ensures "idList" in q ==> q["idList"] == Str(listId.value)
    ensures "due" in q <==> due.Some?
    ensures "due" in q ==> q["due"] == Str(due.value)
    ensures "dueComplete" in q <==> dueComplete.Some?
    ensures "dueComplete" in q ==> q["dueComplete"] == Bool(dueComplete.value)
    ensures q.Keys <= {"name", "desc", "idList", "due", "dueComplete"}
  {
    IfTruthy("name", name) + IfTruthy("desc", desc) + IfTruthy("idList", listId)
    + IfGiven("due", StrOf(due)) + IfGiven("dueComplete", BoolOf(dueComplete))
  }

  function MoveCardQuery(listId: string, pos: Option<string>): (q: Params)
    ensures "idList" in q && q["idList"] == Str(listId)
    ensures "pos" in q <==> Truthy(pos)
    ensures "pos" in q ==> q["pos"] == Str(pos.value)
    ensures q.Keys <= {"idList", "pos"}
  {
    map["idList" := Str(listId)] + IfTruthy("pos", pos)
  }

  /** `create_checklist` takes a required name but still drops it when it is empty. */
  function CreateChecklistQuery(cardId: string, name: string, pos: Option<string>): (q: Params)
    ensures "idCard" in q && q["idCard"] == Str(cardId)
    ensures "name" in q <==> name != ""
    ensures "name" in q ==> q["name"] == Str(name)
    ensures "pos" in q <==> Truthy(pos)
    ensures "pos" in q ==> q["pos"] == Str(pos.value)
    ensures q.Keys <= {"idCard", "name", "pos"}
  {
    map["idCard" := Str(cardId)] + IfTruthy("name", Some(name)) + IfTruthy("pos", pos)
  }

  function UpdateChecklistQuery(name: Option<string>, pos: Option<string>): (q: Params)
    ensures "name" in q <==> Truthy(name)
    ensures "name" in q ==> q["name"] == Str(name.value)
    ensures "pos" in q <==> Truthy(pos)
    ensures "pos" in q ==> q["pos"] == Str(pos.value)
    ensures q.Keys <= {"name", "pos"}
  {
    IfTruthy("name", name) + IfTruthy("pos", pos)
  }

  /** `checked` is sent as the lower-cased text of the boolean, and only when given. */
  function AddChecklistItemQuery(name: string, checked: Option<bool>, pos: Option<string>): (q: Params)
    ensures "name" in q && q["name"] == Str(name)
    ensures "checked" in q <==> checked.Some?
    ensures "checked" in q ==> q["checked"] == Str(if checked.value then "true" else "false")
    ensures "pos" in q <==> Truthy(pos)
    ensures "pos" in q ==> q["pos"] == Str(pos.value)
    ensures q.Keys <= {"name", "checked", "pos"}
  {
    map["name" := Str(name)]
    + IfGiven("checked", if checked.Some? then Some(Str(LowerBool(checked.value))) else None)
    + IfTruthy("pos", pos)
  }

  function UpdateChecklistItemQuery(name: Option<string>, state: Option<string>, pos: Option<string>): (q: Params)
    ensures "name" in q <==> Truthy(name)
    ensures "name" in q ==> q["name"] == Str(name.value)
    ensures "state" in q <==> Truthy(state)
    ensures "state" in q ==> q["state"] == Str(state.value)
    ensures "pos" in q <==> Truthy(pos)
    ensures "pos" in q ==> q["pos"] == Str(pos.value)
    ensures q.Keys <= {"name", "state", "pos"}
  {
    IfTruthy("name", name) + IfTruthy("state", state) + IfTruthy("pos", pos)
  }

  /** Labels use the `is not None` rule, so an empty name or colour is sent. */
  function CreateLabelQuery(boardId: string, name: string, color: Option<string>): (q: Params)
    ensures "idBoard" in q && q["idBoard"] == Str(boardId) && "name" in q && q["name"] == Str(name)
    ensures "color" in q <==> color.Some?
    ensures "color" in q ==> q["color"] == Str(color.value)
    ensures q.Keys <= {"idBoard", "name", "color"}
  {
    map["idBoard" := Str(boardId), "name" := Str(name)] + IfGiven("color", StrOf(color))
  }

  function UpdateLabelQuery(name: Option<string>, color: Option<string>): (q: Params)
    ensures "name" in q <==> name.Some?
    ensures "name" in q ==> q["name"] == Str(name.value)
    ensures "color" in q <==> color.Some?
    ensures "color" in q ==> q["color"] == Str(color.value)
    ensures q.Keys <= {"name", "color"}
  {
    IfGiven("name", StrOf(name)) + IfGiven("color", StrOf(color))
  }

  function AddAttachmentUrlQuery(url: string, name: Option<string>): (q: Params)
    ensures "url" in q && q["url"] == Str(url)
    ensures "name" in q <==> Truthy(name)
    ensures "name" in q ==> q["name"] == Str(name.value)
    ensures q.Keys <= {"url", "name"}
  {
    map["url" := Str(url)] + IfTruthy("name", name)
  }

  /** Every parameter name some operation sends. */
  const QueryNames: set<string> :=
    {"name", "desc", "pos", "idList", "due", "dueComplete", "idCard", "checked", "state", "idBoard",
     "color", "url", "value", "idLabels"}

  /** The query parameters of any operation, before the credentials are added. */
  function QueryOf(op: Operation): (q: Params)
    ensures q.Keys <= QueryNames
  {
    match op
    case CreateBoard(name, desc) => CreateBoardQuery(name, desc)
    case CreateList(_, name, pos) => CreateListQuery(name, pos)
    case ArchiveList(_) => map["value" := Str("true")]
    case CreateCard(l, name, desc, pos, due) => CreateCardQuery(l, name, desc, pos, due)
    case UpdateCard(_, name, desc, l, due, done) => UpdateCardQuery(name, desc, l, due, done)
    case MoveCard(_, l, pos) => MoveCardQuery(l, pos)
    case SetCardDueDate(_, due) => map["due" := Str(due)]
    case MarkDueDateComplete(_, done) => map["dueComplete" := Bool(done)]
    case ClearCardDueDate(_) => map["due" := Null]
    case CreateChecklist(c, name, pos) => CreateChecklistQuery(c, name, pos)
    case UpdateChecklist(_, name, pos) => UpdateChecklistQuery(name, pos)
    case AddChecklistItem(_, name, checked, pos) => AddChecklistItemQuery(name, checked, pos)
    case UpdateChecklistItem(_, _, name, state, pos) => UpdateChecklistItemQuery(name, state, pos)
    case CreateLabel(b, name, color) => CreateLabelQuery(b, name, color)
    case UpdateLabel(_, name, color) => UpdateLabelQuery(name, color)
    case AddLabelToCard(_, l) => map["value" := Str(l)]
    case SetCardLabels(_, ids) => map["idLabels" := Str(Join(ids, ","))]
    case AddAttachmentUrl(_, url, name) => AddAttachmentUrlQuery(url, name)
    case _ => map[]
  }

  // The builders as the client writes them: start from the fixed entries and insert
  // each optional entry in place when its guard holds. Each is proved to build the query
  // that QueryOf gives its operation.

  method CreateBoardParams(name: string, desc: Option<string>) returns (params: Params)
    ensures params == CreateBoardQuery(name, desc)
  {
    params := map["name" := Str(name)];
    if Truthy(desc) { params := params["desc" := Str(desc.value)]; }
  }

  method CreateListParams(name: string, pos: Option<string>) returns (params: Params)
    ensures params == CreateListQuery(name, pos)
  {
    params := map["name" := Str(name)];
    if Truthy(pos) { params := params["pos" := Str(pos.value)]; }
  }

  method CreateCardParams(listId: string, name: string, desc: Option<string>, pos: Option<string>,
                          due: Option<string>) returns (params: Params)
    ensures params == CreateCardQuery(listId, name, desc, pos, due)
  {
    params := map["idList" := Str(listId), "name" := Str(name)];
    ghost var before := params;
    if Truthy(desc) { params := params["desc" := Str(desc.value)]; }
    InsertedIfTruthy(before, "desc", desc, params);
    before := params;
    if Truthy(pos) { params := params["pos" := Str(pos.value)]; }
    InsertedIfTruthy(before, "pos", pos, params);
    before := params;
    if Truthy(due) { params := params["due" := Str(due.value)]; }
    InsertedIfTruthy(before, "due", due, params);
  }

  method UpdateCardParams(name: Option<string>, desc: Option<string>, listId: Option<string>,
                          due: Option<string>, dueComplete: Option<bool>) returns (params: Params)
    ensures params == UpdateCardQuery(name, desc, listId, due, dueComplete)
  {
    params := map[];
    ghost var before := params;
    if Truthy(name) { params := params["name" := Str(name.value)]; }
    InsertedIfTruthy(before, "name", name, params);
    before := params;
    if Truthy(desc) { params := params["desc" := Str(desc.value)]; }
    InsertedIfTruthy(before, "desc", desc, params);
    before := params;
    if Truthy(listId) { params := params["idList" := Str(listId.value)]; }
    InsertedIfTruthy(before, "idList", listId, params);
    before := params;
    if due.Some? { params := params["due" := Str(due.value)]; }
    InsertedIfGiven(before, "due", StrOf(due), params);
    before := params;
    if dueComplete.Some? { params := params["dueComplete" := Bool(dueComplete.value)]; }
    InsertedIfGiven(before, "dueComplete", BoolOf(dueComplete), params);
  }

  /** Inserting an entry under an `if v:` guard is the union with `IfTruthy`. */
  lemma InsertedIfTruthy(before: Params, k: string, o: Option<string>, after: Params)
    requires after == if Truthy(o) then before[k := Str(o.value)] else before
    ensures after == before + IfTruthy(k, o)
  {
  }

  /** Inserting an entry under an `is not None` guard is the union with `IfGiven`. */
  lemma InsertedIfGiven(before: Params, k: string, o: Option<Value>, after: Params)
    requires after == if o.Some? then before[k := o.value] else before
    ensures after == before + IfGiven(k, o)
  {
  }

  method MoveCardParams(listId: string, pos: Option<string>) returns (params: Params)
    ensures params == MoveCardQuery(listId, pos)
  {
    params := map["idList" := Str(listId)];
    if Truthy(pos) { params := params["pos" := Str(pos.value)]; }
  }

  method CreateChecklistParams(cardId: string, name: string, pos: Option<string>) returns (params: Params)
    ensures params == CreateChecklistQuery(cardId, name, pos)
  {
    params := map["idCard" := Str(cardId)];
    if name != "" { params := params["name" := Str(name)]; }
    if Truthy(pos) { params := params["pos" := Str(pos.value)]; }
  }

  method UpdateChecklistParams(name: Option<string>, pos: Option<string>) returns (params: Params)
    ensures params == UpdateChecklistQuery(name, pos)
  {
    params := map[];
    if Truthy(name) { params := params["name" := Str(name.value)]; }
    if Truthy(pos) { params := params["pos" := Str(pos.value)]; }
  }

  method AddChecklistItemParams(name: string, checked: Option<bool>, pos: Option<string>)
    returns (params: Params)
    ensures params == AddChecklistItemQuery(name, checked, pos)
  {
    params := map["name" := Str(name)];
    if checked.Some? { params := params["checked" := Str(LowerBool(checked.value))]; }
    if Truthy(pos) { params := params["pos" := Str(pos.value)]; }
  }

  method UpdateChecklistItemParams(name: Option<string>, state: Option<string>,
                                   pos: Option<string>) returns (params: Params)
    ensures params == UpdateChecklistItemQuery(name, state, pos)
  {
    params := map[];
    if Truthy(name) { params := params["name" := Str(name.value)]; }
    if Truthy(state) { params := params["state" := Str(state.value)]; }
    if Truthy(pos) { params := params["pos" := Str(pos.value)]; }
  }

  method CreateLabelParams(boardId: string, name: string, color: Option<string>) returns (params: Params)
    ensures params == CreateLabelQuery(boardId, name, color)
  {
    params := map["idBoard" := Str(boardId), "name" := Str(name)];
    if color.Some? { params := params["color" := Str(color.value)]; }
  }

  method UpdateLabelParams(name: Option<string>, color: Option<string>) returns (params: Params)
    ensures params == UpdateLabelQuery(name, color)
  {
    params := map[];
    if name.Some? { params := params["name" := Str(name.value)]; }
    if color.Some? { params := params["color" := Str(color.value)]; }
  }

  method AddAttachmentUrlParams(url: string, name: Option<string>) returns (params: Params)
    ensures params == AddAttachmentUrlQuery(url, name)
  {
    params := map["url" := Str(url)];
    if Truthy(name) { params := params["name" := Str(name.value)]; }
  }

  // Relations between the operations.

  /** `set_card_due_date` is the `update_card` call on the same card with only `due` set. */
  lemma DueDateIsUpdate(c: string, due: string)
    ensures RouteOf(SetCardDueDate(c, due)) == RouteOf(UpdateCard(c, None, None, None, Some(due), None))
    ensures QueryOf(SetCardDueDate(c, due)) == QueryOf(UpdateCard(c, None, None, None, Some(due), None))
  {
    assert UpdateCardQuery(None, None, None, Some(due), None) == map["due" := Str(due)];
  }

  /** `mark_due_date_complete` is the `update_card` call on the same card with only `dueComplete` set. */
  lemma CompletionIsUpdate(c: string, done: bool)
    ensures RouteOf(MarkDueDateComplete(c, done)) == RouteOf(UpdateCard(c, None, None, None, None, Some(done)))
    ensures QueryOf(MarkDueDateComplete(c, done)) == QueryOf(UpdateCard(c, None, None, None, None, Some(done)))
  {
    assert UpdateCardQuery(None, None, None, None, Some(done)) == map["dueComplete" := Bool(done)];
  }

  /** `move_card` without a position is the `update_card` call with only the list set, when the
      list id is not empty. */
  lemma MoveIsUpdate(c: string, l: string)
    requires l != ""
    ensures RouteOf(MoveCard(c, l, None)) == RouteOf(UpdateCard(c, None, None, Some(l), None, None))
    ensures QueryOf(MoveCard(c, l, None)) == QueryOf(UpdateCard(c, None, None, Some(l), None, None))
  {
    assert UpdateCardQuery(None, None, Some(l), None, None) == map["idList" := Str(l)];
    assert MoveCardQuery(l, None) == map["idList" := Str(l)];
  }

  /** `move_card` with an empty list id still sends `idList`, where `update_card` would drop it. */
  lemma MoveCardAlwaysSendsList(c: string, l: string, pos: Option<string>)
    ensures "idList" in QueryOf(MoveCard(c, l, pos))
    ensures "idList" !in QueryOf(UpdateCard(c, None, None, Some(""), None, None))
  {
  }

  /** Clearing a due date sends `due` as `None`, which no `update_card` call builds:
      `update_card` only ever sends `due` as a string. */
  lemma ClearDueIsNoUpdate(c: string, name: Option<string>, desc: Option<string>, l: Option<string>,
                           due: Option<string>, done: Option<bool>)
    ensures QueryOf(ClearCardDueDate(c)) != QueryOf(UpdateCard(c, name, desc, l, due, done))
  {
    var q := UpdateCardQuery(name, desc, l, due, done);
    assert QueryOf(UpdateCard(c, name, desc, l, due, done)) == q;
    assert "due" in q ==> q["due"] == Str(due.value);
    assert QueryOf(ClearCardDueDate(c))["due"] == Null;
  }

  /** On the wire `None` is written as the empty string, so clearing a due date is the
      same request as `update_card(due="")`. */
  lemma ClearDueOnTheWire(c: string)
    ensures Wire(QueryOf(ClearCardDueDate(c))) == Wire(QueryOf(UpdateCard(c, None, None, None, Some(""), None)))
    ensures Wire(QueryOf(ClearCardDueDate(c))) == map["due" := ""]
  {
    var q := UpdateCardQuery(None, None, None, Some(""), None);
    assert q == map["due" := Str("")];
    assert Wire(q) == map["due" := ""];
    assert Wire(map["due" := Null]) == map["due" := ""];
  }

  /** The label ids are sent comma-joined; splitting the value at commas gives them back
      when the list is not empty and no id contains a comma. */
  lemma SetCardLabelsRoundTrip(c: string, ids: seq<string>)
    requires |ids| >= 1
    requires forall i :: 0 <= i < |ids| ==> ',' !in ids[i]
    ensures Split(QueryOf(SetCardLabels(c, ids))["idLabels"].s, ',') == ids
  {
    SplitJoin(ids, ',');
  }

  /** An empty label list is sent as the empty string, which splits to one empty id. */
  lemma SetNoCardLabels(c: string)
    ensures QueryOf(SetCardLabels(c, [])) == map["idLabels" := Str("")]
    ensures Split(QueryOf(SetCardLabels(c, []))["idLabels"].s, ',') == [""]
  {
  }

  /** No operation's own parameters use the names of the credentials. */
  lemma QueryHasNoCredentials(op: Operation)
    ensures "key" !in QueryOf(op) && "token" !in QueryOf(op)
  {
    assert "key" !in QueryNames && "token" !in QueryNames;
  }
}
