/**
 * The three text views the server offers as resources (a board with its lists and
 * cards, a list with its cards, one card), each an `output` list of lines joined with
 * newlines. The records are what the client calls return; each call is an input of
 * type `Result`, and a failed top-level call turns the whole view into one error line.
 */
module Views {

  import opened Wrappers
  import opened Text
  import opened Values

  datatype BoardRecord = BoardRecord(name: Field, url: Field, desc: Field)

  datatype ListRecord = ListRecord(id: Field, name: Field)

  datatype LabelRecord = LabelRecord(name: Field)

  datatype CardRecord = CardRecord(id: Field, name: Field, desc: Field, url: Field, idList: Field,
                                   idBoard: Field, due: Field, labels: seq<LabelRecord>)

  /** A list of the board together with what fetching its cards gave. */
  datatype FetchedList = FetchedList(list: ListRecord, cards: Result<seq<CardRecord>, string>)

  const Bullet: char := '\U{2022}'

  /** The top-level failure of a view: `Error loading {kind} {id}: {message}`. */
  function LoadError(kind: string, id: string, msg: string): string
  {
    "Error loading " + kind + " " + id + ": " + msg
  }

  /** `line` is `title` followed by the field as `f"{record.get(key, default)}"` prints it:
      the default when the key is missing, `None` for JSON `null`, otherwise the text. */
  predicate Shows(line: string, title: string, f: Field, default: string)
  {
    && (f.Absent? ==> line == title + default)
    && (f.JsonNull? ==> line == title + "None")
    && (f.Text? ==> line == title + f.text)
  }

  // ----- The board view -----

  /** The four lines above the list blocks: the board's name, URL and description, each
      with its default, then the number of lists; none of them opens a list block. */
  function BoardHeader(board: BoardRecord, count: nat): (h: seq<string>)
    ensures |h| == 4
    ensures StartsWith(h[0], "Board: ") && StartsWith(h[1], "URL: ") && StartsWith(h[2], "Description: ")
    ensures Shows(h[0], "Board: ", board.name, "Unknown")
    ensures Shows(h[1], "URL: ", board.url, "N/A")
    ensures Shows(h[2], "Description: ", board.desc, "No description")
    ensures h[3] == "\nLists (" + NatToString(count) + "):"
    ensures Starting(h, ListPrefix) == []
  {
    var h := ["Board: " + Get(board.name, "Unknown"), "URL: " + Get(board.url, "N/A"),
              "Description: " + Get(board.desc, "No description"), "\nLists (" + NatToString(count) + "):"];
    StartsWithConcat("Board: ", Get(board.name, "Unknown"));
    StartsWithConcat("URL: ", Get(board.url, "N/A"));
    StartsWithConcat("Description: ", Get(board.desc, "No description"));
    DiffersAt(h[0], ListPrefix, 0);
    DiffersAt(h[1], ListPrefix, 0);
    DiffersAt(h[2], ListPrefix, 0);
    assert h[3][1] == 'L';
    DiffersAt(h[3], ListPrefix, 1);
    NoneStarting(h, ListPrefix);
    h
  }

  const ListPrefix: string := "\n  - "

  /** The line that opens a list's block; a missing id is printed as `None`. */
  function ListHeading(l: ListRecord): string
  {
    ListPrefix + Get(l.name, "Unknown") + " (ID: " + Get(l.id, "None") + ")"
  }

  const BoardCardPrefix: string := "      " + [Bullet] + " "

  function BoardCardLine(c: CardRecord): string
  {
    BoardCardPrefix + Get(c.name, "Unknown") + " (ID: " + Get(c.id, "N/A") + ")"
  }

  /** The cards' lines in the board view, one per card and in the cards' order. */
  function BoardCardLines(cards: seq<CardRecord>): (ls: seq<string>)
    ensures |ls| == |cards|
    ensures forall i :: 0 <= i < |cards| ==> ls[i] == BoardCardLine(cards[i])
  {
    if cards == [] then [] else BoardCardLines(cards[..|cards| - 1]) + [BoardCardLine(cards[|cards| - 1])]
  }

  /** A card's entry in the board view: its line, then its description if it has one. */
  function BoardCardEntry(c: CardRecord): seq<string>
  {
    [BoardCardLine(c)] + (if IsTruthy(c.desc) then ["        Description: " + c.desc.text] else [])
  }

  function BoardCardEntries(cards: seq<CardRecord>): seq<string>
  {
    if cards == [] then [] else BoardCardEntries(cards[..|cards| - 1]) + BoardCardEntry(cards[|cards| - 1])
  }

  /** What follows a list's heading: its cards, `No cards`, or the fetch's failure. */
  function CardsBlock(cards: Result<seq<CardRecord>, string>): seq<string>
  {
    match cards
    case Err(_) => ["    Error loading cards"]
    case Ok(cs) =>
      if |cs| == 0 then ["    No cards"]
      else ["    Cards (" + NatToString(|cs|) + "):"] + BoardCardEntries(cs)
  }

  function ListBlock(l: FetchedList): seq<string>
  {
    [ListHeading(l.list)] + CardsBlock(l.cards)
  }

  function ListBlocks(lists: seq<FetchedList>): seq<string>
  {
    if lists == [] then [] else ListBlocks(lists[..|lists| - 1]) + ListBlock(lists[|lists| - 1])
  }

  /** The lines of a board view whose two top-level fetches succeeded. */
  function BoardLines(board: BoardRecord, lists: seq<FetchedList>): seq<string>
  {
    BoardHeader(board, |lists|) + ListBlocks(lists)
  }

  /** `get_board_resource`, given the board fetch and the board's lists with their card fetches. */
  function BoardView(boardId: string, board: Result<BoardRecord, string>,
                     lists: Result<seq<FetchedList>, string>): (text: string)
    ensures board.Err? ==> text == LoadError("board", boardId, board.error)
    ensures board.Ok? && lists.Err? ==> text == LoadError("board", boardId, lists.error)
  {
    if board.Err? then LoadError("board", boardId, board.error)
    else if lists.Err? then LoadError("board", boardId, lists.error)
    else Join(BoardLines(board.value, lists.value), "\n")
  }

  /** The inner loop: a card line per card, each followed by its description if it has one. */
  method RenderBoardCards(cards: seq<CardRecord>) returns (lines: seq<string>)
    ensures lines == BoardCardEntries(cards)
  {
    lines := [];
    for j := 0 to |cards|
      invariant lines == BoardCardEntries(cards[..j])
    {
      var card := cards[j];
      assert cards[..j + 1][..j] == cards[..j];
      lines := lines + [BoardCardLine(card)];
      if IsTruthy(card.desc) {
        lines := lines + ["        Description: " + card.desc.text];
      }
    }
    assert cards[..|cards|] == cards;
  }

  /** One pass of the outer loop: the list's heading, then its cards or what went wrong fetching them. */
  method RenderListBlock(l: FetchedList) returns (block: seq<string>)
    ensures block == ListBlock(l)
  {
    block := [ListHeading(l.list)];
    match l.cards {
      case Err(_) =>
        block := block + ["    Error loading cards"];
      case Ok(cards) =>
        if |cards| > 0 {
          block := block + ["    Cards (" + NatToString(|cards|) + "):"];
          var entries := RenderBoardCards(cards);
          block := block + entries;
        } else {
          block := block + ["    No cards"];
        }
    }
  }

  /** The outer loop over the board's lists. */
  method RenderBoardLines(board: BoardRecord, lists: seq<FetchedList>) returns (output: seq<string>)
    ensures output == BoardLines(board, lists)
  {
    var header := BoardHeader(board, |lists|);
    output := header;
    for i := 0 to |lists|
      invariant output == header + ListBlocks(lists[..i])
    {
      var block := RenderListBlock(lists[i]);
      AppendBlock(header, lists, i, block);
      output := output + block;
    }
    assert lists[..|lists|] == lists;
  }

  lemma AppendBlock(header: seq<string>, lists: seq<FetchedList>, i: nat, block: seq<string>)
    requires i < |lists| && block == ListBlock(lists[i])
    ensures header + ListBlocks(lists[..i]) + block == header + ListBlocks(lists[..i + 1])
  {
    ListBlocksStep(lists, i);
  }

  lemma ListBlocksStep(lists: seq<FetchedList>, i: nat)
    requires i < |lists|
    ensures ListBlocks(lists[..i + 1]) == ListBlocks(lists[..i]) + ListBlock(lists[i])
  {
    var pre := lists[..i + 1];
    assert pre[..|pre| - 1] == lists[..i];
    assert pre[|pre| - 1] == lists[i];
  }

  method RenderBoard(boardId: string, board: Result<BoardRecord, string>,
                     lists: Result<seq<FetchedList>, string>) returns (text: string)
    ensures text == BoardView(boardId, board, lists)
  {
    if board.Err? {
      return LoadError("board", boardId, board.error);
    }
    if lists.Err? {
      return LoadError("board", boardId, lists.error);
    }
    var output := RenderBoardLines(board.value, lists.value);
    text := Join(output, "\n");
  }

  /** The list headings, one per list, in order. */
  function Headings(lists: seq<FetchedList>): (hs: seq<string>)
    ensures |hs| == |lists|
    ensures forall i :: 0 <= i < |lists| ==> hs[i] == ListHeading(lists[i].list)
  {
    if lists == [] then [] else Headings(lists[..|lists| - 1]) + [ListHeading(lists[|lists| - 1].list)]
  }

  lemma ListHeadingStarts(l: ListRecord)
    ensures StartsWith(ListHeading(l), ListPrefix)
  {
    StartsWithConcat(ListPrefix, Get(l.name, "Unknown") + " (ID: " + Get(l.id, "None") + ")");
    assert ListHeading(l) == ListPrefix + (Get(l.name, "Unknown") + " (ID: " + Get(l.id, "None") + ")");
  }

  /** An indented line is no list heading. */
  lemma IndentedIsNoHeading(s: string)
    requires |s| > 0 && s[0] == ' '
    ensures !StartsWith(s, ListPrefix)
  {
    DiffersAt(s, ListPrefix, 0);
  }

  lemma {:induction false} NoHeadingsInCards(cards: seq<CardRecord>)
    ensures Starting(BoardCardEntries(cards), ListPrefix) == []
    decreases |cards|
  {
    if cards != [] {
      var c := cards[|cards| - 1];
      NoHeadingsInCards(cards[..|cards| - 1]);
      StartingAppend(BoardCardEntries(cards[..|cards| - 1]), BoardCardEntry(c), ListPrefix);
      IndentedIsNoHeading(BoardCardLine(c));
      StartingAppend([BoardCardLine(c)], BoardCardEntry(c)[1..], ListPrefix);
      assert BoardCardEntry(c) == [BoardCardLine(c)] + BoardCardEntry(c)[1..];
      if IsTruthy(c.desc) {
        IndentedIsNoHeading("        Description: " + c.desc.text);
        assert BoardCardEntry(c)[1..] == ["        Description: " + c.desc.text];
      } else {
        assert BoardCardEntry(c)[1..] == [];
      }
    }
  }

  lemma NoHeadingsInBlock(cards: Result<seq<CardRecord>, string>)
    ensures Starting(CardsBlock(cards), ListPrefix) == []
  {
    match cards
    case Err(_) =>
      IndentedIsNoHeading("    Error loading cards");
    case Ok(cs) =>
      if |cs| == 0 {
        IndentedIsNoHeading("    No cards");
      } else {
        var first := "    Cards (" + NatToString(|cs|) + "):";
        IndentedIsNoHeading(first);
        NoHeadingsInCards(cs);
        StartingAppend([first], BoardCardEntries(cs), ListPrefix);
      }
  }

  /**
   * The lines of the board view that open a list block are exactly the list headings,
   * one per list and in the lists' order; with the header's fourth line,
   * `Lists (N):`, this says the view shows every list once.
   */
  lemma {:induction false} BoardHeadings(board: BoardRecord, lists: seq<FetchedList>)
    ensures BoardLines(board, lists)[3] == "\nLists (" + NatToString(|lists|) + "):"
    ensures Starting(BoardLines(board, lists), ListPrefix) == Headings(lists)
  {
    StartingAppend(BoardHeader(board, |lists|), ListBlocks(lists), ListPrefix);
    ListBlocksHeadings(lists);
  }

  lemma {:induction false} ListBlocksHeadings(lists: seq<FetchedList>)
    ensures Starting(ListBlocks(lists), ListPrefix) == Headings(lists)
    decreases |lists|
  {
    if lists != [] {
      var l := lists[|lists| - 1];
      ListBlocksHeadings(lists[..|lists| - 1]);
      StartingAppend(ListBlocks(lists[..|lists| - 1]), ListBlock(l), ListPrefix);
      StartingAppend([ListHeading(l.list)], CardsBlock(l.cards), ListPrefix);
      ListHeadingStarts(l.list);
      NoHeadingsInBlock(l.cards);
      assert Starting([ListHeading(l.list)], ListPrefix) == [ListHeading(l.list)];
    }
  }

  lemma {:induction false} ListBlocksAppend(a: seq<FetchedList>, b: seq<FetchedList>)
    ensures ListBlocks(a + b) == ListBlocks(a) + ListBlocks(b)
    decreases |b|
  {
    if b != [] {
      DropLast(a, b);
      ListBlocksAppend(a, b[..|b| - 1]);
    } else {
      assert a + b == a;
    }
  }

  /** The blocks of lists `p`, then list `x`, then lists `q`. */
  lemma ListBlocksSplit(p: seq<FetchedList>, x: FetchedList, q: seq<FetchedList>)
    ensures ListBlocks(p + [x] + q) == ListBlocks(p) + ListBlock(x) + ListBlocks(q)
  {
    ListBlocksAppend(p + [x], q);
    assert (p + [x])[..|p + [x]| - 1] == p;
  }

  /**
   * A failed card fetch for the list at index `i` replaces that list's block by its
   * heading and `Error loading cards`, and leaves the header and every other block as
   * they are.
   */
  lemma FailedFetchStaysLocal(board: BoardRecord, lists: seq<FetchedList>, i: nat, err: string)
    requires i < |lists|
    ensures BoardLines(board, lists)
         == BoardHeader(board, |lists|) + (ListBlocks(lists[..i]) + ListBlock(lists[i]) + ListBlocks(lists[i + 1..]))
    ensures BoardLines(board, lists[i := FetchedList(lists[i].list, Err(err))])
         == BoardHeader(board, |lists|)
            + (ListBlocks(lists[..i]) + [ListHeading(lists[i].list), "    Error loading cards"] + ListBlocks(lists[i + 1..]))
  {
    var x := FetchedList(lists[i].list, Err(err));
    assert BoardLines(board, lists) == BoardHeader(board, |lists|) + ListBlocks(lists);
    ListBlocksAround(lists, i);
    var failed := lists[i := x];
    assert BoardLines(board, failed) == BoardHeader(board, |lists|) + ListBlocks(failed);
    ReplacedBlock(lists, i, x);
    assert ListBlock(x) == [ListHeading(lists[i].list), "    Error loading cards"];
  }

  /** The blocks of the lists are those before `i`, then the block of list `i`, then the rest. */
  lemma ListBlocksAround(lists: seq<FetchedList>, i: nat)
    requires i < |lists|
    ensures ListBlocks(lists) == ListBlocks(lists[..i]) + ListBlock(lists[i]) + ListBlocks(lists[i + 1..])
  {
    Around(lists, i);
    ListBlocksSplit(lists[..i], lists[i], lists[i + 1..]);
  }

  lemma ReplacedBlock(lists: seq<FetchedList>, i: nat, x: FetchedList)
    requires i < |lists|
    ensures ListBlocks(lists[i := x]) == ListBlocks(lists[..i]) + ListBlock(x) + ListBlocks(lists[i + 1..])
  {
    var changed := lists[i := x];
    ListBlocksAround(changed, i);
    assert changed[..i] == lists[..i] && changed[i + 1..] == lists[i + 1..];
  }

  lemma BoardCardLineStarts(c: CardRecord)
    ensures StartsWith(BoardCardLine(c), BoardCardPrefix)
  {
    var rest := Get(c.name, "Unknown") + " (ID: " + Get(c.id, "N/A") + ")";
    assert BoardCardLine(c) == BoardCardPrefix + rest;
    StartsWithConcat(BoardCardPrefix, rest);
  }

  /** Of a card's entry in the board view, only its first line carries the bullet. */
  lemma BoardEntryBullets(c: CardRecord)
    ensures Starting(BoardCardEntry(c), BoardCardPrefix) == [BoardCardLine(c)]
  {
    var line := BoardCardLine(c);
    BoardCardLineStarts(c);
    assert Starting([line], BoardCardPrefix) == [line] by {
      assert [line][..0] == [];
    }
    if IsTruthy(c.desc) {
      var d := "        Description: " + c.desc.text;
      assert BoardCardEntry(c) == [line, d];
      assert d[6] == ' ' && BoardCardPrefix[6] == Bullet;
      DiffersAt(d, BoardCardPrefix, 6);
      assert [line, d][..1] == [line];
    } else {
      assert BoardCardEntry(c) == [line];
    }
  }

  /** A non-empty list's block holds one card line per card, after its `Cards (k):` line. */
  lemma {:induction false} BoardCardBullets(cards: seq<CardRecord>)
    ensures Starting(BoardCardEntries(cards), BoardCardPrefix) == BoardCardLines(cards)
    ensures |Starting(BoardCardEntries(cards), BoardCardPrefix)| == |cards|
    decreases |cards|
  {
    if cards != [] {
      var init := cards[..|cards| - 1];
      var c := cards[|cards| - 1];
      assert BoardCardEntries(cards) == BoardCardEntries(init) + BoardCardEntry(c);
      BoardCardBullets(init);
      StartingAppend(BoardCardEntries(init), BoardCardEntry(c), BoardCardPrefix);
      BoardEntryBullets(c);
    }
  }

  /** The three shapes of a list's block. */
  lemma CardsBlockShape(cards: Result<seq<CardRecord>, string>)
    ensures cards.Err? ==> CardsBlock(cards) == ["    Error loading cards"]
    ensures cards.Ok? && cards.value == [] ==> CardsBlock(cards) == ["    No cards"]
    ensures cards.Ok? && cards.value != [] ==>
      && CardsBlock(cards)[0] == "    Cards (" + NatToString(|cards.value|) + "):"
      && |Starting(CardsBlock(cards)[1..], BoardCardPrefix)| == |cards.value|
      && Starting(CardsBlock(cards)[1..], BoardCardPrefix) == BoardCardLines(cards.value)
  {
    if cards.Ok? && cards.value != [] {
      BoardCardBullets(cards.value);
      assert CardsBlock(cards)[1..] == BoardCardEntries(cards.value);
    }
  }

  // ----- The list view -----

  const ListCardPrefix: string := "\n  " + [Bullet] + " "

  function ListCardLine(c: CardRecord): string
  {
    ListCardPrefix + Get(c.name, "Unknown") + " (ID: " + Get(c.id, "N/A") + ")"
  }

  /** The cards' lines in the list view, one per card and in the cards' order. */
  function ListCardLines(cards: seq<CardRecord>): (ls: seq<string>)
    ensures |ls| == |cards|
    ensures forall i :: 0 <= i < |cards| ==> ls[i] == ListCardLine(cards[i])
  {
    if cards == [] then [] else ListCardLines(cards[..|cards| - 1]) + [ListCardLine(cards[|cards| - 1])]
  }

  /** A card's entry in the list view: its line, a description line iff it has a description,
      and a URL line iff it has a URL. */
  function ListCardEntry(c: CardRecord): (lines: seq<string>)
    ensures |lines| == 1 + (if IsTruthy(c.desc) then 1 else 0) + (if IsTruthy(c.url) then 1 else 0)
    ensures lines[0] == ListCardLine(c)
    ensures IsTruthy(c.desc) ==> lines[1] == "    Description: " + c.desc.text
    ensures IsTruthy(c.url) ==> lines[|lines| - 1] == "    URL: " + c.url.text
  {
    [ListCardLine(c)]
    + (if IsTruthy(c.desc) then ["    Description: " + c.desc.text] else [])
    + (if IsTruthy(c.url) then ["    URL: " + c.url.text] else [])
  }

  function ListCardEntries(cards: seq<CardRecord>): seq<string>
  {
    if cards == [] then [] else ListCardEntries(cards[..|cards| - 1]) + ListCardEntry(cards[|cards| - 1])
  }

  /** The list view's lines: the id, the card count, then one card line per card; with no
      cards it says so instead. */
  function ListLines(listId: string, cards: seq<CardRecord>): (ls: seq<string>)
    ensures |ls| >= 3 && ls[0] == "List ID: " + listId && ls[1] == "\nCards (" + NatToString(|cards|) + "):"
    ensures Starting(ls, ListCardPrefix) == ListCardLines(cards)
    ensures |Starting(ls, ListCardPrefix)| == |cards|
    ensures cards == [] ==> ls[2..] == ["  No cards in this list"]
  {
    var title := "List ID: " + listId;
    var count := "\nCards (" + NatToString(|cards|) + "):";
    var body := if |cards| == 0 then ["  No cards in this list"] else ListCardEntries(cards);
    StartingAppend([title, count], body, ListCardPrefix);
    DiffersAt(title, ListCardPrefix, 0);
    assert count[1] == 'C';
    DiffersAt(count, ListCardPrefix, 1);
    NoneStarting([title, count], ListCardPrefix);
    if cards == [] then
      DiffersAt(body[0], ListCardPrefix, 0);
      NoneStarting(body, ListCardPrefix);
      [title, count] + body
    else
      ListCardBullets(cards);
      [title, count] + body
  }

  /** `get_list_resource`, given the card fetch. */
  function ListView(listId: string, cards: Result<seq<CardRecord>, string>): (text: string)
    ensures cards.Err? ==> text == LoadError("list", listId, cards.error)
  {
    if cards.Err? then LoadError("list", listId, cards.error) else Join(ListLines(listId, cards.value), "\n")
  }

  /** The loop that appends the list view's lines one card at a time. */
  method RenderListLines(listId: string, cards: seq<CardRecord>) returns (output: seq<string>)
    ensures output == ListLines(listId, cards)
  {
    output := ["List ID: " + listId, "\nCards (" + NatToString(|cards|) + "):"];
    if |cards| > 0 {
      ghost var before := output;
      for j := 0 to |cards|
        invariant output == before + ListCardEntries(cards[..j])
      {
        var card := cards[j];
        ghost var start := output;
        output := output + [ListCardLine(card)];
        if IsTruthy(card.desc) {
          output := output + ["    Description: " + card.desc.text];
        }
        if IsTruthy(card.url) {
          output := output + ["    URL: " + card.url.text];
        }
        assert output == start + ListCardEntry(card);
        AppendListEntry(before, cards, j, start, output);
      }
      assert cards[..|cards|] == cards;
    } else {
      output := output + ["  No cards in this list"];
    }
  }

  lemma AppendListEntry(before: seq<string>, cards: seq<CardRecord>, j: nat, start: seq<string>,
                        after: seq<string>)
    requires j < |cards| && start == before + ListCardEntries(cards[..j])
    requires after == start + ListCardEntry(cards[j])
    ensures after == before + ListCardEntries(cards[..j + 1])
  {
    var pre := cards[..j + 1];
    assert pre[..|pre| - 1] == cards[..j];
    assert pre[|pre| - 1] == cards[j];
  }

  method RenderList(listId: string, cards: Result<seq<CardRecord>, string>) returns (text: string)
    ensures text == ListView(listId, cards)
  {
    if cards.Err? {
      return LoadError("list", listId, cards.error);
    }
    var output := RenderListLines(listId, cards.value);
    text := Join(output, "\n");
  }

  lemma ListCardLineStarts(c: CardRecord)
    ensures StartsWith(ListCardLine(c), ListCardPrefix)
  {
    var rest := Get(c.name, "Unknown") + " (ID: " + Get(c.id, "N/A") + ")";
    assert ListCardLine(c) == ListCardPrefix + rest;
    StartsWithConcat(ListCardPrefix, rest);
  }

  /** Of a card's entry in the list view, only its first line carries the bullet. */
  lemma ListEntryBullets(c: CardRecord)
    ensures Starting(ListCardEntry(c), ListCardPrefix) == [ListCardLine(c)]
  {
    var line := ListCardLine(c);
    var d := if IsTruthy(c.desc) then ["    Description: " + c.desc.text] else [];
    var u := if IsTruthy(c.url) then ["    URL: " + c.url.text] else [];
    var rest := d + u;
    assert ListCardEntry(c) == [line] + rest;
    StartingAppend([line], rest, ListCardPrefix);
    ListCardLineStarts(c);
    assert Starting([line], ListCardPrefix) == [line] by {
      assert [line][..0] == [];
    }
    forall k | 0 <= k < |rest|
      ensures !StartsWith(rest[k], ListCardPrefix)
    {
      assert rest[k][0] == ' ';
      DiffersAt(rest[k], ListCardPrefix, 0);
    }
    NoneStarting(rest, ListCardPrefix);
  }

  lemma {:induction false} ListCardBullets(cards: seq<CardRecord>)
    ensures Starting(ListCardEntries(cards), ListCardPrefix) == ListCardLines(cards)
    ensures |Starting(ListCardEntries(cards), ListCardPrefix)| == |cards|
    decreases |cards|
  {
    if cards != [] {
      var init := cards[..|cards| - 1];
      var c := cards[|cards| - 1];
      assert ListCardEntries(cards) == ListCardEntries(init) + ListCardEntry(c);
      ListCardBullets(init);
      StartingAppend(ListCardEntries(init), ListCardEntry(c), ListCardPrefix);
      ListEntryBullets(c);
    }
  }

  lemma {:induction false} NoneStarting(lines: seq<string>, prefix: string)
    requires forall k :: 0 <= k < |lines| ==> !StartsWith(lines[k], prefix)
    ensures Starting(lines, prefix) == []
    decreases |lines|
  {
    if lines != [] {
      NoneStarting(lines[..|lines| - 1], prefix);
    }
  }

  // ----- The card view -----

  /** The label names, each defaulting to `Unnamed`, in order. */
  function LabelNames(labels: seq<LabelRecord>): (names: seq<string>)
    ensures |names| == |labels|
    ensures forall i :: 0 <= i < |labels| ==> names[i] == Get(labels[i].name, "Unnamed")
  {
    if labels == [] then [] else LabelNames(labels[..|labels| - 1]) + [Get(labels[|labels| - 1].name, "Unnamed")]
  }

  /** The titles of the card view's lines, in order. */
  const CardTitles: seq<string> :=
    ["Card: ", "ID: ", "URL: ", "Description: ", "List ID: ", "Board ID: ", "Due Date: ", "Labels: "]

  /** The card view's lines: one per title, in the titles' order, each holding its field or
      the field's default; the labels line holds the comma-separated label names. */
  function CardLines(c: CardRecord): (ls: seq<string>)
    ensures |ls| == |CardTitles|
    ensures forall i :: 0 <= i < |ls| ==> StartsWith(ls[i], CardTitles[i])
    ensures Shows(ls[0], "Card: ", c.name, "Unknown")
    ensures Shows(ls[1], "ID: ", c.id, "N/A")
    ensures Shows(ls[2], "URL: ", c.url, "N/A")
    ensures Shows(ls[3], "Description: ", c.desc, "No description")
    ensures Shows(ls[4], "List ID: ", c.idList, "N/A")
    ensures Shows(ls[5], "Board ID: ", c.idBoard, "N/A")
    ensures Shows(ls[6], "Due Date: ", c.due, "None")
    ensures ls[7] == "Labels: " + Join(LabelNames(c.labels), ", ")
  {
    StartsWithConcat("Card: ", Get(c.name, "Unknown"));
    StartsWithConcat("ID: ", Get(c.id, "N/A"));
    StartsWithConcat("URL: ", Get(c.url, "N/A"));
    StartsWithConcat("Description: ", Get(c.desc, "No description"));
    StartsWithConcat("List ID: ", Get(c.idList, "N/A"));
    StartsWithConcat("Board ID: ", Get(c.idBoard, "N/A"));
    StartsWithConcat("Due Date: ", Get(c.due, "None"));
    StartsWithConcat("Labels: ", Join(LabelNames(c.labels), ", "));
    var ls := ["Card: " + Get(c.name, "Unknown"), "ID: " + Get(c.id, "N/A"), "URL: " + Get(c.url, "N/A"),
               "Description: " + Get(c.desc, "No description"), "List ID: " + Get(c.idList, "N/A"),
               "Board ID: " + Get(c.idBoard, "N/A"), "Due Date: " + Get(c.due, "None"),
               "Labels: " + Join(LabelNames(c.labels), ", ")];
    ls
  }

  /** The position of the first label whose name is JSON `null`, if any. */
  function FirstNullName(labels: seq<LabelRecord>): (r: Option<nat>)
    ensures r.None? <==> forall j :: 0 <= j < |labels| ==> !labels[j].name.JsonNull?
    ensures r.Some? ==> r.value < |labels| && labels[r.value].name.JsonNull?
    ensures r.Some? ==> forall j :: 0 <= j < r.value ==> !labels[j].name.JsonNull?
  {
    if labels == [] then None
    else if labels[0].name.JsonNull? then Some(0)
    else
      match FirstNullName(labels[1..])
      case None => None
      case Some(i) => Some(i + 1)
  }

  /** What `", ".join` raises for a `None` at position `i`: CPython's `TypeError` text. */
  function JoinTypeError(i: nat): string
  {
    "sequence item " + NatToString(i) + ": expected str instance, NoneType found"
  }

  /** `get_card_resource`, given the card fetch. A label named `null` makes the labels line's
      join raise, and the handler shows that error instead of the card. */
  function CardView(cardId: string, card: Result<CardRecord, string>): (text: string)
    ensures card.Err? ==> text == LoadError("card", cardId, card.error)
    ensures card.Ok? && FirstNullName(card.value.labels).Some? ==>
      text == LoadError("card", cardId, JoinTypeError(FirstNullName(card.value.labels).value))
  {
    if card.Err? then LoadError("card", cardId, card.error)
    else
      match FirstNullName(card.value.labels)
      case Some(i) => LoadError("card", cardId, JoinTypeError(i))
      case None => Join(CardLines(card.value), "\n")
  }

  predicate OneLine(f: Field) { f.Text? ==> '\n' !in f.text }

  /** No field of the card, label names included, contains a newline. */
  predicate SingleLineFields(c: CardRecord)
  {
    && OneLine(c.name) && OneLine(c.id) && OneLine(c.url) && OneLine(c.desc) && OneLine(c.idList)
    && OneLine(c.idBoard) && OneLine(c.due) && forall i :: 0 <= i < |c.labels| ==> OneLine(c.labels[i].name)
  }

  lemma GetOneLine(f: Field, default: string)
    requires OneLine(f) && '\n' !in default
    ensures '\n' !in Get(f, default)
  {
  }

  lemma ConcatOneLine(a: string, b: string)
    requires '\n' !in a && '\n' !in b
    ensures '\n' !in a + b
  {
    assert forall k :: 0 <= k < |a + b| ==> (a + b)[k] == (if k < |a| then a[k] else b[k - |a|]);
  }

  /** The card view is always eight lines when no field holds a newline and no label is
      named `null`; the labels line is the comma-separated names, and just `Labels: ` for a
      card without labels. */
  lemma CardViewLines(cardId: string, c: CardRecord)
    requires SingleLineFields(c)
    ensures FirstNullName(c.labels).None? ==> Split(CardView(cardId, Ok(c)), '\n') == CardLines(c)
    ensures |CardLines(c)| == 8
    ensures c.labels == [] ==> CardLines(c)[7] == "Labels: "
  {
    var lines := CardLines(c);
    var names := LabelNames(c.labels);
    forall i | 0 <= i < |names| ensures '\n' !in names[i] {
      GetOneLine(c.labels[i].name, "Unnamed");
    }
    JoinExcludes(names, ", ", '\n');
    GetOneLine(c.name, "Unknown");
    GetOneLine(c.id, "N/A");
    GetOneLine(c.url, "N/A");
    GetOneLine(c.desc, "No description");
    GetOneLine(c.idList, "N/A");
    GetOneLine(c.idBoard, "N/A");
    GetOneLine(c.due, "None");
    ConcatOneLine("Card: ", Get(c.name, "Unknown"));
    ConcatOneLine("ID: ", Get(c.id, "N/A"));
    ConcatOneLine("URL: ", Get(c.url, "N/A"));
    ConcatOneLine("Description: ", Get(c.desc, "No description"));
    ConcatOneLine("List ID: ", Get(c.idList, "N/A"));
    ConcatOneLine("Board ID: ", Get(c.idBoard, "N/A"));
    ConcatOneLine("Due Date: ", Get(c.due, "None"));
    ConcatOneLine("Labels: ", Join(names, ", "));
    SplitJoin(lines, '\n');
    assert "\n" == ['\n'];
  }
}
