/**
  The board initialiser: validation of the JSON board spec and the dry-run
  side of creating the board, its lists, labels, cards and checklists.
  Python raises exceptions; here every operation returns the exception it
  raises, if any, as a `Failure`.
*/
module TrelloInit {
  import opened Wrappers
  import opened Text

  // ---------------------------------------------------------------------------
  // JSON values as `json.load` produces them, with Python's view of them
  // ---------------------------------------------------------------------------

  datatype Json =
    | JNull
    | JBool(b: bool)
    | JNumber(n: real)
    | JString(s: string)
    | JArray(items: seq<Json>)
    | JObject(fields: map<string, Json>)

  /** Python truthiness: `None`, `False`, zero and empty containers are false. */
  predicate Truthy(j: Json)
  {
    match j
    case JNull => false
    case JBool(b) => b
    case JNumber(n) => n != 0.0
    case JString(s) => |s| > 0
    case JArray(items) => |items| > 0
    case JObject(fields) => |fields| > 0
  }

  /** What identifies a value as a set member or dictionary key; Python has
      `True == 1 == 1.0`, so booleans share the keys of numbers. */
  datatype Key = KNull | KNumber(n: real) | KString(s: string)

  /** The key of a hashable value; lists and dictionaries are not hashable
      (using them as a key raises `TypeError`). */
  function KeyOf(j: Json): (k: Option<Key>)
    ensures k.None? <==> j.JArray? || j.JObject?
  {
    match j
    case JNull => Some(KNull)
    case JBool(b) => Some(KNumber(if b then 1.0 else 0.0))
    case JNumber(n) => Some(KNumber(n))
    case JString(s) => Some(KString(s))
    case _ => None
  }

  /** `d.get(name, otherwise)`. */
  function GetOr(fields: map<string, Json>, name: string, otherwise: Json): Json
  {
    if name in fields then fields[name] else otherwise
  }

  /** `d.get(name)`. */
  function Get(fields: map<string, Json>, name: string): Json
  {
    GetOr(fields, name, JNull)
  }

  /** `x.get("name")` for an object, `None` for anything else. */
  function NameOf(j: Json): Json
  {
    if j.JObject? then Get(j.fields, "name") else JNull
  }

  /** `len(x)`: defined on strings, arrays and objects only. */
  function Len(j: Json): (n: Option<nat>)
    ensures n.None? <==> !(j.JString? || j.JArray? || j.JObject?)
  {
    match j
    case JString(s) => Some(|s|)
    case JArray(items) => Some(|items|)
    case JObject(fields) => Some(|fields|)
    case _ => None
  }

  /** Length is truthiness for the values `len` accepts. */
  lemma TruthyIsNonEmpty(j: Json)
    requires Len(j).Some?
    ensures Truthy(j) <==> Len(j).value > 0
  {
  }

  /** The exceptions the script raises. */
  datatype SpecError =
    | NoBoard
    | NoBoardName
    | NoLists
    | ListWithoutName(index: nat)
    | DuplicateListNames
    | LabelsNotArray
    | LabelWithoutNameOrColor(index: nat)
    | CardsNotArray
    | CardWithoutName(index: nat)
    | UnknownList(index: nat)

  datatype Failure =
    | InvalidSpec(reason: SpecError)   // TrelloError from validate_spec
    | CardWithoutList(card: nat)       // TrelloError from create_cards
    | UnknownLabel(card: nat)          // TrelloError from create_cards
    | PythonError                      // KeyError, TypeError or AttributeError

  // ---------------------------------------------------------------------------
  // validate_spec
  // ---------------------------------------------------------------------------

  /** The exception a loop over `xs` raises from index `i` on: the first
      entry for which `issue` names one. */
  function FirstIssue(xs: seq<Json>, issue: (nat, Json) -> Option<Failure>, i: nat): Option<Failure>
    requires i <= |xs|
    decreases |xs| - i
  {
    if i == |xs| then None
    else if issue(i, xs[i]).Some? then issue(i, xs[i])
    else FirstIssue(xs, issue, i + 1)
  }

  /** A loop that raises nothing: no entry has an issue. */
  lemma {:induction false} FirstIssueNone(xs: seq<Json>, issue: (nat, Json) -> Option<Failure>, i: nat)
    requires i <= |xs|
    ensures FirstIssue(xs, issue, i).None? <==> forall k :: i <= k < |xs| ==> issue(k, xs[k]).None?
    decreases |xs| - i
  {
    if i < |xs| {
      FirstIssueNone(xs, issue, i + 1);
    }
  }

  /** A loop that raises: the exception is that of an entry, and all entries
      before it pass. */
  lemma {:induction false} FirstIssueAt(xs: seq<Json>, issue: (nat, Json) -> Option<Failure>, i: nat) returns (k: nat)
    requires i <= |xs| && FirstIssue(xs, issue, i).Some?
    ensures i <= k < |xs| && issue(k, xs[k]) == FirstIssue(xs, issue, i)
    ensures forall j :: i <= j < k ==> issue(j, xs[j]).None?
    decreases |xs| - i
  {
    if issue(i, xs[i]).Some? {
      k := i;
    } else {
      k := FirstIssueAt(xs, issue, i + 1);
    }
  }

  /** Entries already passed do not change where the loop stops. */
  lemma {:induction false} FirstIssueFrom(xs: seq<Json>, issue: (nat, Json) -> Option<Failure>, i: nat)
    requires i <= |xs|
    requires forall j :: 0 <= j < i ==> issue(j, xs[j]).None?
    ensures FirstIssue(xs, issue, 0) == FirstIssue(xs, issue, i)
  {
    if i > 0 {
      FirstIssueFrom(xs, issue, i - 1);
    }
  }

  /** A list entry must be an object with a truthy name. */
  predicate ListEntryOk(l: Json)
  {
    l.JObject? && Truthy(Get(l.fields, "name"))
  }

  function ListIssue(i: nat, l: Json): Option<Failure>
  {
    if ListEntryOk(l) then None else Some(InvalidSpec(ListWithoutName(i)))
  }

  /** A label entry must be an object with the keys `name` and `color`,
      whatever their values. */
  predicate LabelEntryOk(l: Json)
  {
    l.JObject? && "name" in l.fields && "color" in l.fields
  }

  function LabelIssue(i: nat, l: Json): Option<Failure>
  {
    if LabelEntryOk(l) then None else Some(InvalidSpec(LabelWithoutNameOrColor(i)))
  }

  /** A card entry must be an object with a truthy name whose `list` is one
      of `listKeys`; an unhashable `list` makes the membership test raise. */
  function CardIssue(listKeys: set<Key>, i: nat, c: Json): Option<Failure>
  {
    if !c.JObject? || !Truthy(Get(c.fields, "name")) then Some(InvalidSpec(CardWithoutName(i)))
    else match KeyOf(Get(c.fields, "list"))
      case None => Some(PythonError)
      case Some(k) => if k in listKeys then None else Some(InvalidSpec(UnknownList(i)))
  }

  /** The `list_names` the loop of `validate_spec` collects. */
  function NamesOf(lists: seq<Json>): (names: seq<Json>)
    ensures |names| == |lists|
  {
    if |lists| == 0 then [] else NamesOf(lists[..|lists| - 1]) + [NameOf(lists[|lists| - 1])]
  }

  lemma {:induction false} NamesOfAt(lists: seq<Json>)
    ensures forall i :: 0 <= i < |lists| ==> NamesOf(lists)[i] == NameOf(lists[i])
  {
    if |lists| > 0 {
      NamesOfAt(lists[..|lists| - 1]);
    }
  }

  /** `set(names)`; `None` when some name is unhashable (a `TypeError`). */
  function KeySet(names: seq<Json>): Option<set<Key>>
  {
    if |names| == 0 then Some({})
    else match (KeySet(names[..|names| - 1]), KeyOf(names[|names| - 1]))
      case (Some(keys), Some(k)) => Some(keys + {k})
      case _ => None
  }

  predicate DistinctKeys(names: seq<Json>)
  {
    forall i, j :: 0 <= i < j < |names| ==> KeyOf(names[i]) != KeyOf(names[j])
  }

  /** `set(names)` succeeds exactly when every name is hashable ... */
  lemma {:induction false} KeySetSome(names: seq<Json>)
    ensures KeySet(names).Some? <==> forall i :: 0 <= i < |names| ==> KeyOf(names[i]).Some?
  {
    if |names| > 0 {
      KeySetSome(names[..|names| - 1]);
    }
  }

  /** ... and then holds the key of every name ... */
  lemma {:induction false} KeySetHas(names: seq<Json>, i: nat)
    requires KeySet(names).Some? && i < |names|
    ensures KeyOf(names[i]).Some? && KeyOf(names[i]).value in KeySet(names).value
  {
    if i < |names| - 1 {
      KeySetHas(names[..|names| - 1], i);
    }
  }

  /** ... and nothing else ... */
  lemma {:induction false} KeySetFrom(names: seq<Json>, k: Key) returns (i: nat)
    requires KeySet(names).Some? && k in KeySet(names).value
    ensures i < |names| && KeyOf(names[i]) == Some(k)
  {
    var n := |names|;
    if KeyOf(names[n - 1]) == Some(k) {
      i := n - 1;
    } else {
      i := KeySetFrom(names[..n - 1], k);
    }
  }

  /** ... and it is as large as the list exactly when no key repeats. */
  lemma {:induction false} KeySetDistinct(names: seq<Json>)
    requires KeySet(names).Some?
    ensures |KeySet(names).value| <= |names|
    ensures |KeySet(names).value| == |names| <==> DistinctKeys(names)
  {
    var n := |names|;
    if n > 0 {
      var init := names[..n - 1];
      KeySetDistinct(init);
      var keys := KeySet(init).value;
      var k := KeyOf(names[n - 1]).value;
      if k in keys {
        var i := KeySetFrom(init, k);
        assert KeyOf(names[i]) == KeyOf(names[n - 1]);
        assert keys + {k} == keys;
      } else {
        assert |keys + {k}| == |keys| + 1;
        if DistinctKeys(init) {
          forall i | 0 <= i < n - 1
            ensures KeyOf(names[i]) != KeyOf(names[n - 1])
          {
            KeySetHas(init, i);
          }
        }
      }
    }
  }

  /** What `validate_spec` raises, if anything, checking the parts in the
      order the function does. */
  function Validate(spec: map<string, Json>): (raised: Option<Failure>)
  {
    if "board" !in spec || !spec["board"].JObject? then Some(InvalidSpec(NoBoard))
    else if !Truthy(NameOf(spec["board"])) then Some(InvalidSpec(NoBoardName))
    else
      var lists := Get(spec, "lists");
      if !lists.JArray? || |lists.items| == 0 then Some(InvalidSpec(NoLists))
      else if FirstIssue(lists.items, ListIssue, 0).Some? then FirstIssue(lists.items, ListIssue, 0)
      else
        var names := NamesOf(lists.items);
        if KeySet(names).None? then Some(PythonError)
        else if |KeySet(names).value| != |names| then Some(InvalidSpec(DuplicateListNames))
        else ValidateRest(spec, KeySet(names).value)
  }

  /** The label and card checks of `validate_spec`. */
  function ValidateRest(spec: map<string, Json>, listKeys: set<Key>): (raised: Option<Failure>)
  {
    var labels := GetOr(spec, "labels", JArray([]));
    if !labels.JNull? && !labels.JArray? then Some(InvalidSpec(LabelsNotArray))
    else if labels.JArray? && FirstIssue(labels.items, LabelIssue, 0).Some? then FirstIssue(labels.items, LabelIssue, 0)
    else
      var cards := GetOr(spec, "cards", JArray([]));
      if !cards.JNull? && !cards.JArray? then Some(InvalidSpec(CardsNotArray))
      else if cards.JArray? then FirstIssue(cards.items, (i: nat, c: Json) => CardIssue(listKeys, i, c), 0)
      else None
  }

  /** A spec `validate_spec` accepts, stated entry by entry. */
  ghost predicate WellFormed(spec: map<string, Json>)
  {
    && "board" in spec && spec["board"].JObject? && Truthy(NameOf(spec["board"]))
    && ListsWellFormed(Get(spec, "lists"))
    && LabelsWellFormed(GetOr(spec, "labels", JArray([])))
    && CardsWellFormed(GetOr(spec, "cards", JArray([])), Get(spec, "lists").items)
  }

  /** A non-empty array of objects with truthy, hashable, pairwise different
      names. */
  ghost predicate ListsWellFormed(lists: Json)
  {
    && lists.JArray? && |lists.items| > 0
    && (forall i :: 0 <= i < |lists.items| ==> ListEntryOk(lists.items[i]) && KeyOf(NameOf(lists.items[i])).Some?)
    && (forall i, j :: 0 <= i < j < |lists.items| ==> KeyOf(NameOf(lists.items[i])) != KeyOf(NameOf(lists.items[j])))
  }

  /** Absent, null, or an array of objects that have a name and a color. */
  ghost predicate LabelsWellFormed(labels: Json)
  {
    labels.JNull? || (labels.JArray? && forall i :: 0 <= i < |labels.items| ==> LabelEntryOk(labels.items[i]))
  }

  /** Absent, null, or an array of objects with a truthy name and a `list`
      equal to the name of one of `lists`. */
  ghost predicate CardsWellFormed(cards: Json, lists: seq<Json>)
  {
    cards.JNull? ||
    (cards.JArray? && forall i :: 0 <= i < |cards.items| ==> CardRefersToList(cards.items[i], lists))
  }

  ghost predicate CardRefersToList(c: Json, lists: seq<Json>)
  {
    && c.JObject? && Truthy(Get(c.fields, "name"))
    && KeyOf(Get(c.fields, "list")).Some?
    && exists j :: 0 <= j < |lists| && KeyOf(Get(c.fields, "list")) == KeyOf(NameOf(lists[j]))
  }

  /** The list names are checked by the list loop and by `set` ... */
  lemma ListsChecked(lists: seq<Json>)
    requires FirstIssue(lists, ListIssue, 0).None?
    requires KeySet(NamesOf(lists)).Some?
    ensures forall i :: 0 <= i < |lists| ==> ListEntryOk(lists[i]) && KeyOf(NameOf(lists[i])).Some?
  {
    FirstIssueNone(lists, ListIssue, 0);
    NamesOfAt(lists);
    KeySetSome(NamesOf(lists));
  }

  /** ... which sees the names of the entries. */
  lemma NamesDistinct(lists: seq<Json>)
    ensures DistinctKeys(NamesOf(lists)) <==>
      forall i, j :: 0 <= i < j < |lists| ==> KeyOf(NameOf(lists[i])) != KeyOf(NameOf(lists[j]))
  {
    NamesOfAt(lists);
  }

  /** A card passes the loop exactly when it refers to a declared list. */
  lemma CardChecked(lists: seq<Json>, i: nat, c: Json)
    requires KeySet(NamesOf(lists)).Some?
    ensures CardIssue(KeySet(NamesOf(lists)).value, i, c).None? <==> CardRefersToList(c, lists)
  {
    var names := NamesOf(lists);
    NamesOfAt(lists);
    if CardIssue(KeySet(names).value, i, c).None? {
      var k := KeyOf(Get(c.fields, "list")).value;
      var j := KeySetFrom(names, k);
      assert KeyOf(NameOf(lists[j])) == Some(k);
    }
    if CardRefersToList(c, lists) {
      var j :| 0 <= j < |lists| && KeyOf(Get(c.fields, "list")) == KeyOf(NameOf(lists[j]));
      KeySetHas(names, j);
    }
  }

  lemma CardsChecked(cards: seq<Json>, lists: seq<Json>)
    requires KeySet(NamesOf(lists)).Some?
    ensures FirstIssue(cards, (i: nat, c: Json) => CardIssue(KeySet(NamesOf(lists)).value, i, c), 0).None? <==>
      forall i :: 0 <= i < |cards| ==> CardRefersToList(cards[i], lists)
  {
    var keys := KeySet(NamesOf(lists)).value;
    FirstIssueNone(cards, (i: nat, c: Json) => CardIssue(keys, i, c), 0);
    forall i | 0 <= i < |cards|
      ensures CardIssue(keys, i, cards[i]).None? <==> CardRefersToList(cards[i], lists)
    {
      CardChecked(lists, i, cards[i]);
    }
  }

  lemma LabelsChecked(labels: seq<Json>)
    ensures FirstIssue(labels, LabelIssue, 0).None? <==> forall i :: 0 <= i < |labels| ==> LabelEntryOk(labels[i])
  {
    FirstIssueNone(labels, LabelIssue, 0);
  }

  /** `validate_spec` accepts only well-formed specs ... */
  lemma ValidateSound(spec: map<string, Json>)
    requires Validate(spec).None?
    ensures WellFormed(spec)
  {
    var lists := Get(spec, "lists").items;
    ListsChecked(lists);
    KeySetDistinct(NamesOf(lists));
    NamesDistinct(lists);
    var labels := GetOr(spec, "labels", JArray([]));
    if labels.JArray? {
      LabelsChecked(labels.items);
    }
    var cards := GetOr(spec, "cards", JArray([]));
    if cards.JArray? {
      CardsChecked(cards.items, lists);
    }
  }

  /** ... and accepts every one of them. */
  lemma ValidateComplete(spec: map<string, Json>)
    requires WellFormed(spec)
    ensures Validate(spec).None?
  {
    var lists := Get(spec, "lists").items;
    var names := NamesOf(lists);
    NamesOfAt(lists);
    FirstIssueNone(lists, ListIssue, 0);
    KeySetSome(names);
    KeySetDistinct(names);
    NamesDistinct(lists);
    var labels := GetOr(spec, "labels", JArray([]));
    if labels.JArray? {
      LabelsChecked(labels.items);
    }
    var cards := GetOr(spec, "cards", JArray([]));
    if cards.JArray? {
      CardsChecked(cards.items, lists);
    }
  }

  /** `validate_spec`. */
  method ValidateSpec(spec: map<string, Json>) returns (raised: Option<Failure>)
    ensures raised == Validate(spec)
  {
    if "board" !in spec || !spec["board"].JObject? {
      return Some(InvalidSpec(NoBoard));
    }
    if !Truthy(NameOf(spec["board"])) {
      return Some(InvalidSpec(NoBoardName));
    }
    var lists := Get(spec, "lists");
    if !lists.JArray? || |lists.items| == 0 {
      return Some(InvalidSpec(NoLists));
    }
    var listNames := [];
    for i := 0 to |lists.items|
      invariant listNames == NamesOf(lists.items[..i])
      invariant forall j :: 0 <= j < i ==> ListIssue(j, lists.items[j]).None?
    {
      var l := lists.items[i];
      if !ListEntryOk(l) {
        FirstIssueFrom(lists.items, ListIssue, i);
        return Some(InvalidSpec(ListWithoutName(i)));
      }
      listNames := listNames + [l.fields["name"]];
      assert lists.items[..i + 1][..i] == lists.items[..i];
    }
    assert lists.items[..|lists.items|] == lists.items;
    FirstIssueNone(lists.items, ListIssue, 0);
    var listKeys := KeySet(listNames);
    if listKeys.None? {
      return Some(PythonError);
    }
    if |listKeys.value| != |listNames| {
      return Some(InvalidSpec(DuplicateListNames));
    }
    raised := CheckLabelsAndCards(spec, listKeys.value);
  }

  /** The label and card loops of `validate_spec`. */
  method CheckLabelsAndCards(spec: map<string, Json>, listKeys: set<Key>) returns (raised: Option<Failure>)
    ensures raised == ValidateRest(spec, listKeys)
  {
    var labels := GetOr(spec, "labels", JArray([]));
    if !labels.JNull? {
      if !labels.JArray? {
        return Some(InvalidSpec(LabelsNotArray));
      }
      for i := 0 to |labels.items|
        invariant forall j :: 0 <= j < i ==> LabelIssue(j, labels.items[j]).None?
      {
        if !LabelEntryOk(labels.items[i]) {
          FirstIssueFrom(labels.items, LabelIssue, i);
          return Some(InvalidSpec(LabelWithoutNameOrColor(i)));
        }
      }
      FirstIssueNone(labels.items, LabelIssue, 0);
    }
    var cards := GetOr(spec, "cards", JArray([]));
    if !cards.JNull? {
      if !cards.JArray? {
        return Some(InvalidSpec(CardsNotArray));
      }
      var issue := (i: nat, c: Json) => CardIssue(listKeys, i, c);
      for i := 0 to |cards.items|
        invariant forall j :: 0 <= j < i ==> issue(j, cards.items[j]).None?
      {
        var c := cards.items[i];
        if !c.JObject? || !Truthy(Get(c.fields, "name")) {
          FirstIssueFrom(cards.items, issue, i);
          return Some(InvalidSpec(CardWithoutName(i)));
        }
        var listKey := KeyOf(Get(c.fields, "list"));
        if listKey.None? {
          FirstIssueFrom(cards.items, issue, i);
          return Some(PythonError);
        }
        if listKey.value !in listKeys {
          FirstIssueFrom(cards.items, issue, i);
          return Some(InvalidSpec(UnknownList(i)));
        }
      }
      FirstIssueNone(cards.items, issue, 0);
    }
    return None;
  }

  // ---------------------------------------------------------------------------
  // create_board
  // ---------------------------------------------------------------------------

  /** The parameters of the board-creation request. */
  datatype BoardParams = BoardParams(
    name: Json,
    desc: Json,
    defaultLists: string,
    permissionLevel: Json,
    idOrganization: Option<Json>)

  /** The `{"id": ..., "url": ...}` that `create_board` returns. */
  datatype BoardRef = BoardRef(id: Json, url: Json)

  /** What `create_board` does: return the spec's own board, return the
      dry-run board, or send the creation request (whose answer comes from
      the server). */
  datatype BoardStep =
    | ExistingBoard(board: BoardRef)
    | DryRunBoard(board: BoardRef)
    | PostBoard(params: BoardParams)

  const DryRunBoardId := "DRY_RUN_BOARD"
  const DryRunBoardUrl := "https://trello.com/"

  /** The request parameters built from `board`; `orgEnv` is the
      `TRELLO_ORG_ID` environment variable. Reading `board["name"]` raises
      when the name is missing. */
  function BoardRequest(board: map<string, Json>, orgEnv: Option<string>): Result<BoardParams, Failure>
  {
    if "name" !in board then Failure(PythonError)
    else
      var org :=
        if Truthy(Get(board, "idOrganization")) then Get(board, "idOrganization")
        else if orgEnv.Some? then JString(orgEnv.value) else JNull;
      Success(BoardParams(
        board["name"],
        GetOr(board, "desc", JString("")),
        if Truthy(GetOr(board, "defaultLists", JBool(false))) then "true" else "false",
        GetOr(board, "prefs_permissionLevel", JString("private")),
        if Truthy(org) then Some(org) else None))
  }

  /** `create_board`. */
  function CreateBoard(spec: map<string, Json>, orgEnv: Option<string>, dryRun: bool): (r: Result<BoardStep, Failure>)
  {
    if "board" !in spec || !spec["board"].JObject? then Failure(PythonError)
    else
      var board := spec["board"].fields;
      if Truthy(Get(board, "id")) then Success(ExistingBoard(BoardRef(board["id"], Get(board, "url"))))
      else match BoardRequest(board, orgEnv)
        case Failure(e) => Failure(e)
        case Success(params) =>
          if dryRun then Success(DryRunBoard(BoardRef(JString(DryRunBoardId), JString(DryRunBoardUrl))))
          else Success(PostBoard(params))
  }

  /** A board that already has an id is used as it is, dry run or not. */
  lemma CreateBoardKeepsId(spec: map<string, Json>, orgEnv: Option<string>, dryRun: bool)
    requires "board" in spec && spec["board"].JObject? && Truthy(Get(spec["board"].fields, "id"))
    ensures CreateBoard(spec, orgEnv, dryRun).Success?
    ensures CreateBoard(spec, orgEnv, dryRun).value.ExistingBoard?
    ensures CreateBoard(spec, orgEnv, dryRun).value.board.id == spec["board"].fields["id"]
  {
  }

  /** A validated spec without a board id gets the dry-run board in a dry
      run and a creation request otherwise. */
  lemma CreateBoardValidated(spec: map<string, Json>, orgEnv: Option<string>, dryRun: bool)
    requires WellFormed(spec) && !Truthy(Get(spec["board"].fields, "id"))
    ensures CreateBoard(spec, orgEnv, dryRun).Success?
    ensures dryRun ==> CreateBoard(spec, orgEnv, dryRun).value.board.id == JString(DryRunBoardId)
    ensures !dryRun ==> CreateBoard(spec, orgEnv, dryRun).value.PostBoard?
  {
  }

  /** The request says `defaultLists` as the text "true" or "false", asks
      for a private board unless the spec says otherwise, and prefers the
      spec's organization to the environment's. */
  lemma BoardRequestFields(board: map<string, Json>, orgEnv: Option<string>)
    requires "name" in board
    ensures BoardRequest(board, orgEnv).Success?
    ensures BoardRequest(board, orgEnv).value.defaultLists in {"true", "false"}
    ensures BoardRequest(board, orgEnv).value.defaultLists == "true" <==> Truthy(GetOr(board, "defaultLists", JBool(false)))
    ensures "prefs_permissionLevel" !in board ==> BoardRequest(board, orgEnv).value.permissionLevel == JString("private")
    ensures Truthy(Get(board, "idOrganization")) ==> BoardRequest(board, orgEnv).value.idOrganization == Some(board["idOrganization"])
    ensures !Truthy(Get(board, "idOrganization")) ==>
      (BoardRequest(board, orgEnv).value.idOrganization.Some? <==> orgEnv.Some? && |orgEnv.value| > 0)
  {
  }

  // ---------------------------------------------------------------------------
  // create_lists and create_labels in a dry run
  // ---------------------------------------------------------------------------

  const ListIdPrefix := "DRY_LIST_"
  const LabelIdPrefix := "DRY_LABEL_"

  /** The key an entry is filed under: `entry["name"]`, which must exist and
      be hashable; labels also read `entry["color"]`. */
  function EntryKey(entry: Json, needsColor: bool): Result<Key, Failure>
  {
    if !entry.JObject? || "name" !in entry.fields || (needsColor && "color" !in entry.fields) then Failure(PythonError)
    else match KeyOf(entry.fields["name"])
      case None => Failure(PythonError)
      case Some(k) => Success(k)
  }

  /** The mapping a dry run builds: the name of the entry at index `i` maps
      to `prefix` followed by `i + 1`, a later entry with the same name
      replacing an earlier one. */
  function DryRunIds(entries: seq<Json>, prefix: string, needsColor: bool): Result<map<Key, string>, Failure>
  {
    if |entries| == 0 then Success(map[])
    else match DryRunIds(entries[..|entries| - 1], prefix, needsColor)
      case Failure(e) => Failure(e)
      case Success(ids) =>
        match EntryKey(entries[|entries| - 1], needsColor)
        case Failure(e) => Failure(e)
        case Success(k) => Success(ids[k := prefix + NatToDecimal(|entries|)])
  }

  /** The dry-run loop of `create_lists` (`needsColor` false, prefix
      "DRY_LIST_") and of `create_labels` (true, "DRY_LABEL_"). */
  method DryRunMapping(entries: seq<Json>, prefix: string, needsColor: bool) returns (r: Result<map<Key, string>, Failure>)
    ensures r == DryRunIds(entries, prefix, needsColor)
  {
    var mapping := map[];
    for idx := 0 to |entries|
      invariant DryRunIds(entries[..idx], prefix, needsColor) == Success(mapping)
    {
      assert entries[..idx + 1][..idx] == entries[..idx];
      var entry := entries[idx];
      var key := EntryKey(entry, needsColor);
      if key.Failure? {
        DryRunIdsFailed(entries, idx + 1, prefix, needsColor);
        return Failure(key.error);
      }
      mapping := mapping[key.value := prefix + NatToDecimal(idx + 1)];
    }
    assert entries[..|entries|] == entries;
    return Success(mapping);
  }

  /** A failure in a prefix of the entries is the failure of the loop. */
  lemma {:induction false} DryRunIdsFailed(entries: seq<Json>, n: nat, prefix: string, needsColor: bool)
    requires 0 < n <= |entries|
    requires DryRunIds(entries[..n], prefix, needsColor).Failure?
    ensures DryRunIds(entries, prefix, needsColor) == DryRunIds(entries[..n], prefix, needsColor)
    decreases |entries| - n
  {
    if n < |entries| {
      assert entries[..n + 1][..n] == entries[..n];
      DryRunIdsFailed(entries, n + 1, prefix, needsColor);
    } else {
      assert entries[..n] == entries;
    }
  }

  /** `create_lists`, dry run. */
  method CreateListsDryRun(lists: seq<Json>) returns (r: Result<map<Key, string>, Failure>)
    ensures r == DryRunIds(lists, ListIdPrefix, false)
  {
    r := DryRunMapping(lists, ListIdPrefix, false);
  }

  /** `create_labels`, dry run. */
  method CreateLabelsDryRun(labels: seq<Json>) returns (r: Result<map<Key, string>, Failure>)
    ensures r == DryRunIds(labels, LabelIdPrefix, true)
  {
    r := DryRunMapping(labels, LabelIdPrefix, true);
  }

  /** The dry run succeeds when every entry has a usable key (and, by
      `DryRunIdsKeys`, only then). */
  lemma {:induction false} DryRunIdsSucceeds(entries: seq<Json>, prefix: string, needsColor: bool)
    requires forall i :: 0 <= i < |entries| ==> EntryKey(entries[i], needsColor).Success?
    ensures DryRunIds(entries, prefix, needsColor).Success?
  {
    var n := |entries|;
    if n > 0 {
      var init := entries[..n - 1];
      assert forall i :: 0 <= i < |init| ==> init[i] == entries[i];
      DryRunIdsSucceeds(init, prefix, needsColor);
    }
  }

  /** Every entry's key is a key of the mapping ... */
  lemma {:induction false} DryRunIdsKeys(entries: seq<Json>, prefix: string, needsColor: bool, i: nat)
    requires DryRunIds(entries, prefix, needsColor).Success? && i < |entries|
    ensures EntryKey(entries[i], needsColor).Success?
    ensures EntryKey(entries[i], needsColor).value in DryRunIds(entries, prefix, needsColor).value
  {
    var n := |entries|;
    if i < n - 1 {
      DryRunIdsKeys(entries[..n - 1], prefix, needsColor, i);
    }
  }

  /** ... and the mapping has at most as many keys as there are entries. */
  lemma {:induction false} DryRunIdsSize(entries: seq<Json>, prefix: string, needsColor: bool)
    requires DryRunIds(entries, prefix, needsColor).Success?
    ensures |DryRunIds(entries, prefix, needsColor).value| <= |entries|
  {
    var n := |entries|;
    if n > 0 {
      DryRunIdsSize(entries[..n - 1], prefix, needsColor);
      var ids := DryRunIds(entries[..n - 1], prefix, needsColor).value;
      var k := EntryKey(entries[n - 1], needsColor).value;
      assert ids[k := prefix + NatToDecimal(n)].Keys == ids.Keys + {k};
    }
  }

  /** The last entry with a given name decides its id. */
  lemma {:induction false} DryRunIdsLastWins(entries: seq<Json>, prefix: string, needsColor: bool, i: nat)
    requires DryRunIds(entries, prefix, needsColor).Success?
    requires i < |entries| && EntryKey(entries[i], needsColor).Success?
    requires forall j :: i < j < |entries| ==> EntryKey(entries[j], needsColor) != EntryKey(entries[i], needsColor)
    ensures EntryKey(entries[i], needsColor).value in DryRunIds(entries, prefix, needsColor).value
    ensures DryRunIds(entries, prefix, needsColor).value[EntryKey(entries[i], needsColor).value] == prefix + NatToDecimal(i + 1)
  {
    var n := |entries|;
    if i < n - 1 {
      DryRunIdsLastWins(entries[..n - 1], prefix, needsColor, i);
    }
  }

  /** With pairwise different names every entry gets its own id. */
  lemma {:induction false} DryRunIdsDistinct(entries: seq<Json>, prefix: string, needsColor: bool)
    requires DryRunIds(entries, prefix, needsColor).Success?
    requires forall i, j :: 0 <= i < j < |entries| ==> EntryKey(entries[i], needsColor) != EntryKey(entries[j], needsColor)
    ensures |DryRunIds(entries, prefix, needsColor).value| == |entries|
  {
    var n := |entries|;
    if n > 0 {
      DryRunIdsDistinct(entries[..n - 1], prefix, needsColor);
      var ids := DryRunIds(entries[..n - 1], prefix, needsColor).value;
      var k := EntryKey(entries[n - 1], needsColor).value;
      if k in ids {
        var i := DryRunIdsFrom(entries[..n - 1], prefix, needsColor, k);
      }
      assert ids[k := prefix + NatToDecimal(n)].Keys == ids.Keys + {k};
    }
  }

  /** Every key of the mapping comes from an entry. */
  lemma {:induction false} DryRunIdsFrom(entries: seq<Json>, prefix: string, needsColor: bool, k: Key) returns (i: nat)
    requires DryRunIds(entries, prefix, needsColor).Success?
    requires k in DryRunIds(entries, prefix, needsColor).value
    ensures i < |entries| && EntryKey(entries[i], needsColor) == Success(k)
  {
    var n := |entries|;
    if EntryKey(entries[n - 1], needsColor) == Success(k) {
      i := n - 1;
    } else {
      i := DryRunIdsFrom(entries[..n - 1], prefix, needsColor, k);
    }
  }

  /** The lists of a validated spec are filed under their names. */
  lemma ValidatedListKeys(spec: map<string, Json>)
    requires WellFormed(spec)
    ensures forall i :: 0 <= i < |Get(spec, "lists").items| ==>
      EntryKey(Get(spec, "lists").items[i], false) == Success(KeyOf(NameOf(Get(spec, "lists").items[i])).value)
  {
  }

  /** The lists of a validated spec all get an id, one per list ... */
  lemma ValidatedLists(spec: map<string, Json>)
    requires WellFormed(spec)
    ensures DryRunIds(Get(spec, "lists").items, ListIdPrefix, false).Success?
    ensures |DryRunIds(Get(spec, "lists").items, ListIdPrefix, false).value| == |Get(spec, "lists").items|
  {
    var lists := Get(spec, "lists").items;
    ValidatedListKeys(spec);
    DryRunIdsSucceeds(lists, ListIdPrefix, false);
    DryRunIdsDistinct(lists, ListIdPrefix, false);
  }

  /** ... and every card's list is among them. */
  lemma ValidatedCardLists(spec: map<string, Json>, n: nat)
    requires WellFormed(spec) && n < |CardEntries(spec)|
    ensures DryRunIds(Get(spec, "lists").items, ListIdPrefix, false).Success?
    ensures ListLookup(CardEntries(spec)[n], DryRunIds(Get(spec, "lists").items, ListIdPrefix, false).value).Success?
  {
    var lists := Get(spec, "lists").items;
    ValidatedLists(spec);
    ValidatedListKeys(spec);
    var c := CardEntries(spec)[n];
    assert CardRefersToList(c, lists);
    var j :| 0 <= j < |lists| && KeyOf(Get(c.fields, "list")) == KeyOf(NameOf(lists[j]));
    DryRunIdsKeys(lists, ListIdPrefix, false, j);
  }

  /** The cards of the spec, as `main` passes them on. */
  function CardEntries(spec: map<string, Json>): seq<Json>
  {
    var cards := GetOr(spec, "cards", JArray([]));
    if cards.JArray? then cards.items else []
  }

  // ---------------------------------------------------------------------------
  // create_checklist and create_cards in a dry run
  // ---------------------------------------------------------------------------

  const DryRunChecklistId := "DRY_CHECKLIST"
  const CardIdPrefix := "DRY_CARD_"

  /** `create_checklist`, dry run: the checklist id and its item count, or
      nothing for a falsy checklist. A truthy one must be an object (for
      `.get`) whose `items` has a length. */
  function ChecklistDryRun(checklist: Json): (r: Result<(Option<string>, nat), Failure>)
  {
    if !Truthy(checklist) then Success((None, 0))
    else if !checklist.JObject? then Failure(PythonError)
    else match Len(GetOr(checklist.fields, "items", JArray([])))
      case None => Failure(PythonError)
      case Some(n) => Success((Some(DryRunChecklistId), n))
  }

  /** The number of checklist items a card adds: `len(items)` of a truthy
      checklist, 0 for a falsy one. */
  function ChecklistItems(card: map<string, Json>): nat
  {
    var checklist := Get(card, "checklist");
    if Truthy(checklist) && checklist.JObject? then
      match Len(GetOr(checklist.fields, "items", JArray([])))
      case None => 0
      case Some(n) => n
    else 0
  }

  /** The count `create_checklist` reports is the length of the items of a
      truthy checklist, and 0 for a falsy one. */
  lemma ChecklistCounts(card: map<string, Json>)
    ensures CardChecklistItems(card) == ChecklistItems(card)
    ensures ChecklistDryRun(Get(card, "checklist")).Success? ==>
      (ChecklistDryRun(Get(card, "checklist")).value.0.Some? <==> Truthy(Get(card, "checklist")))
  {
  }

  /** `list_map[list_name]` for a card: its `list` must be truthy, hashable
      and a key of the map. */
  function ListLookup(c: Json, listMap: map<Key, string>): Result<string, Failure>
  {
    if !c.JObject? then Failure(PythonError)
    else
      var listName := Get(c.fields, "list");
      if !Truthy(listName) then Failure(PythonError)
      else match KeyOf(listName)
        case None => Failure(PythonError)
        case Some(k) => if k in listMap then Success(listMap[k]) else Failure(PythonError)
  }

  /** The label loop of a card: every label name must be hashable and a key
      of `labelMap`. Iterating over a string visits its characters and over
      an object its keys; other values cannot be iterated. */
  function LabelsIssue(labels: Json, labelMap: map<Key, string>, card: nat): Option<Failure>
  {
    match labels
    case JArray(items) => FirstIssue(items, (i: nat, l: Json) => LabelNameIssue(l, labelMap, card), 0)
    case JString(s) => if CharsKnown(s, labelMap) then None else Some(UnknownLabel(card))
    case JObject(fields) => if KeysKnown(fields, labelMap) then None else Some(UnknownLabel(card))
    case _ => Some(PythonError)
  }

  /** Every character of `s`, as a one-character name, is a label. */
  predicate CharsKnown(s: string, labelMap: map<Key, string>)
  {
    forall k :: 0 <= k < |s| ==> KString([s[k]]) in labelMap
  }

  /** Every key of `fields` is a label. */
  predicate KeysKnown(fields: map<string, Json>, labelMap: map<Key, string>)
  {
    forall name :: name in fields ==> KString(name) in labelMap
  }

  function LabelNameIssue(name: Json, labelMap: map<Key, string>, card: nat): Option<Failure>
  {
    match KeyOf(name)
    case None => Some(PythonError)
    case Some(k) => if k in labelMap then None else Some(UnknownLabel(card))
  }

  /** A card created in a dry run: its id and name. */
  datatype CardRecord = CardRecord(id: string, name: Json)

  /** What stops the card at `index` in a dry run, if anything: reading
      `c["name"]`, a falsy `list`, the lookup `list_map[list_name]`, the
      label loop, and `create_checklist`. */
  function CardChecks(c: Json, index: nat, listMap: map<Key, string>, labelMap: map<Key, string>): (raised: Option<Failure>)
    ensures raised.None? ==> c.JObject? && "name" in c.fields
  {
    if !c.JObject? || "name" !in c.fields then Some(PythonError)
    else if !Truthy(Get(c.fields, "list")) then Some(CardWithoutList(index))
    else if ListLookup(c, listMap).Failure? then Some(PythonError)
    else if LabelsIssue(GetOr(c.fields, "labels", JArray([])), labelMap, index).Some? then
      LabelsIssue(GetOr(c.fields, "labels", JArray([])), labelMap, index)
    else
      var checklist := Get(c.fields, "checklist");
      if Truthy(checklist) && ChecklistDryRun(checklist).Failure? then Some(ChecklistDryRun(checklist).error)
      else None
  }

  /** The checklist items a card adds: the count `create_checklist` returns
      for a truthy checklist. */
  function CardChecklistItems(c: map<string, Json>): nat
  {
    var checklist := Get(c, "checklist");
    if Truthy(checklist) && ChecklistDryRun(checklist).Success? then ChecklistDryRun(checklist).value.1 else 0
  }

  /** One turn of the loop of `create_cards` for the card at `index`: the
      record it appends and the checklist items it adds. */
  function CardDryRun(c: Json, index: nat, listMap: map<Key, string>, labelMap: map<Key, string>): Result<(CardRecord, nat), Failure>
  {
    match CardChecks(c, index, listMap, labelMap)
    case Some(e) => Failure(e)
    case None => Success((CardRecord(CardIdPrefix + NatToDecimal(index + 1), c.fields["name"]), CardChecklistItems(c.fields)))
  }

  /** The `{"cards": ..., "checklist_items_total": ...}` of `create_cards`. */
  datatype CardsSummary = CardsSummary(cards: seq<CardRecord>, checklistItemsTotal: nat)

  /** The loop of `create_cards` in a dry run, from the card at index `i`
      on, with `acc` holding what the earlier cards produced. */
  function CardsLoop(specCards: seq<Json>, i: nat, acc: CardsSummary, listMap: map<Key, string>, labelMap: map<Key, string>)
    : Result<CardsSummary, Failure>
    requires i <= |specCards|
    decreases |specCards| - i
  {
    if i == |specCards| then Success(acc)
    else match CardDryRun(specCards[i], |acc.cards|, listMap, labelMap)
      case Failure(e) => Failure(e)
      case Success(created) =>
        CardsLoop(specCards, i + 1, CardsSummary(acc.cards + [created.0], acc.checklistItemsTotal + created.1), listMap, labelMap)
  }

  /** What `create_cards` returns in a dry run. */
  function CardsDryRun(specCards: seq<Json>, listMap: map<Key, string>, labelMap: map<Key, string>): Result<CardsSummary, Failure>
  {
    CardsLoop(specCards, 0, CardsSummary([], 0), listMap, labelMap)
  }

  /** One turn of the loop, unfolded. */
  lemma CardsLoopStep(specCards: seq<Json>, i: nat, acc: CardsSummary, listMap: map<Key, string>, labelMap: map<Key, string>)
    requires i < |specCards|
    ensures var created := CardDryRun(specCards[i], |acc.cards|, listMap, labelMap);
      CardsLoop(specCards, i, acc, listMap, labelMap) ==
        if created.Failure? then Failure(created.error)
        else CardsLoop(specCards, i + 1, CardsSummary(acc.cards + [created.value.0], acc.checklistItemsTotal + created.value.1), listMap, labelMap)
  {
  }

  /** `create_cards`, dry run. */
  method CreateCardsDryRun(specCards: seq<Json>, listMap: map<Key, string>, labelMap: map<Key, string>)
    returns (r: Result<CardsSummary, Failure>)
    ensures r == CardsDryRun(specCards, listMap, labelMap)
  {
    var createdCards := [];
    var checklistItemsTotal := 0;
    for i := 0 to |specCards|
      invariant CardsLoop(specCards, i, CardsSummary(createdCards, checklistItemsTotal), listMap, labelMap) == CardsDryRun(specCards, listMap, labelMap)
    {
      var created := CardDryRun(specCards[i], |createdCards|, listMap, labelMap);
      CardsLoopStep(specCards, i, CardsSummary(createdCards, checklistItemsTotal), listMap, labelMap);
      if created.Failure? {
        return Failure(created.error);
      }
      createdCards := createdCards + [created.value.0];
      checklistItemsTotal := checklistItemsTotal + created.value.1;
    }
    return Success(CardsSummary(createdCards, checklistItemsTotal));
  }

  /** The record of a card that the dry run accepts carries its number and
      its name. */
  lemma CardDryRunRecord(c: Json, index: nat, listMap: map<Key, string>, labelMap: map<Key, string>)
    requires CardDryRun(c, index, listMap, labelMap).Success?
    ensures c.JObject? && "name" in c.fields
    ensures CardDryRun(c, index, listMap, labelMap).value.0 == CardRecord(CardIdPrefix + NatToDecimal(index + 1), c.fields["name"])
  {
  }

  /** The loop appends one record per remaining card ... */
  lemma {:induction false} CardsLoopLength(specCards: seq<Json>, i: nat, acc: CardsSummary, listMap: map<Key, string>, labelMap: map<Key, string>)
    requires i <= |specCards| && CardsLoop(specCards, i, acc, listMap, labelMap).Success?
    ensures |CardsLoop(specCards, i, acc, listMap, labelMap).value.cards| == |acc.cards| + |specCards| - i
    decreases |specCards| - i
  {
    if i < |specCards| {
      var created := CardDryRun(specCards[i], |acc.cards|, listMap, labelMap).value;
      CardsLoopLength(specCards, i + 1, CardsSummary(acc.cards + [created.0], acc.checklistItemsTotal + created.1), listMap, labelMap);
    }
  }

  /** ... keeps the records it had ... and numbers each card by its
      position, when it starts with one record per earlier card. */
  lemma {:induction false} CardsLoopCardAt(specCards: seq<Json>, i: nat, acc: CardsSummary, listMap: map<Key, string>, labelMap: map<Key, string>, k: nat)
    requires i <= |specCards| && |acc.cards| == i && k < |specCards|
    requires CardsLoop(specCards, i, acc, listMap, labelMap).Success?
    ensures |CardsLoop(specCards, i, acc, listMap, labelMap).value.cards| == |specCards|
    ensures k < i ==> CardsLoop(specCards, i, acc, listMap, labelMap).value.cards[k] == acc.cards[k]
    ensures k >= i ==> specCards[k].JObject? && "name" in specCards[k].fields
    ensures k >= i ==>
      CardsLoop(specCards, i, acc, listMap, labelMap).value.cards[k] == CardRecord(CardIdPrefix + NatToDecimal(k + 1), specCards[k].fields["name"])
    decreases |specCards| - i
  {
    CardsLoopLength(specCards, i, acc, listMap, labelMap);
    if i < |specCards| {
      var created := CardDryRun(specCards[i], |acc.cards|, listMap, labelMap).value;
      var next := CardsSummary(acc.cards + [created.0], acc.checklistItemsTotal + created.1);
      CardsLoopCardAt(specCards, i + 1, next, listMap, labelMap, k);
      if k == i {
        CardDryRunRecord(specCards[i], i, listMap, labelMap);
      }
    }
  }

  /** A dry run that succeeds creates one card per entry, numbered
      DRY_CARD_1, DRY_CARD_2, ... in order, under the entry's name. */
  lemma CardsDryRunCards(specCards: seq<Json>, listMap: map<Key, string>, labelMap: map<Key, string>)
    requires CardsDryRun(specCards, listMap, labelMap).Success?
    ensures |CardsDryRun(specCards, listMap, labelMap).value.cards| == |specCards|
    ensures forall k :: 0 <= k < |specCards| ==>
      && specCards[k].JObject? && "name" in specCards[k].fields
      && CardsDryRun(specCards, listMap, labelMap).value.cards[k] == CardRecord(CardIdPrefix + NatToDecimal(k + 1), specCards[k].fields["name"])
  {
    CardsLoopLength(specCards, 0, CardsSummary([], 0), listMap, labelMap);
    forall k | 0 <= k < |specCards|
      ensures specCards[k].JObject? && "name" in specCards[k].fields
      ensures CardsDryRun(specCards, listMap, labelMap).value.cards[k] == CardRecord(CardIdPrefix + NatToDecimal(k + 1), specCards[k].fields["name"])
    {
      CardsLoopCardAt(specCards, 0, CardsSummary([], 0), listMap, labelMap, k);
    }
  }

  /** Sum of the checklist items over the cards. */
  function ChecklistTotal(specCards: seq<Json>): nat
  {
    if |specCards| == 0 then 0
    else (if specCards[0].JObject? then ChecklistItems(specCards[0].fields) else 0) + ChecklistTotal(specCards[1..])
  }

  /** The loop adds the checklist items of the remaining cards to the
      running total ... */
  lemma {:induction false} CardsLoopTotal(specCards: seq<Json>, i: nat, acc: CardsSummary, listMap: map<Key, string>, labelMap: map<Key, string>)
    requires i <= |specCards| && CardsLoop(specCards, i, acc, listMap, labelMap).Success?
    ensures CardsLoop(specCards, i, acc, listMap, labelMap).value.checklistItemsTotal == acc.checklistItemsTotal + ChecklistTotal(specCards[i..])
    decreases |specCards| - i
  {
    if i < |specCards| {
      var c := specCards[i];
      var created := CardDryRun(c, |acc.cards|, listMap, labelMap).value;
      CardsLoopTotal(specCards, i + 1, CardsSummary(acc.cards + [created.0], acc.checklistItemsTotal + created.1), listMap, labelMap);
      assert specCards[i..][1..] == specCards[i + 1..];
      ChecklistCounts(c.fields);
    }
  }

  /** ... so a dry run that succeeds counts the items of every truthy
      checklist. */
  lemma CardsDryRunTotal(specCards: seq<Json>, listMap: map<Key, string>, labelMap: map<Key, string>)
    requires CardsDryRun(specCards, listMap, labelMap).Success?
    ensures CardsDryRun(specCards, listMap, labelMap).value.checklistItemsTotal == ChecklistTotal(specCards)
  {
    CardsLoopTotal(specCards, 0, CardsSummary([], 0), listMap, labelMap);
    assert specCards[0..] == specCards;
  }

  /** The dry-run card ids are pairwise different. */
  lemma CardIdsDistinct(specCards: seq<Json>, listMap: map<Key, string>, labelMap: map<Key, string>)
    requires CardsDryRun(specCards, listMap, labelMap).Success?
    ensures var cards := CardsDryRun(specCards, listMap, labelMap).value.cards;
      forall i, j :: 0 <= i < j < |cards| ==> cards[i].id != cards[j].id
  {
    CardsDryRunCards(specCards, listMap, labelMap);
    var cards := CardsDryRun(specCards, listMap, labelMap).value.cards;
    forall i, j | 0 <= i < j < |cards|
      ensures cards[i].id != cards[j].id
    {
      assert cards[i].id[|CardIdPrefix|..] == NatToDecimal(i + 1);
      assert cards[j].id[|CardIdPrefix|..] == NatToDecimal(j + 1);
    }
  }

  /** A card without a truthy `list` fails the dry run with the error for
      that card, even though no request is made. */
  lemma CardWithoutListFails(c: Json, index: nat, listMap: map<Key, string>, labelMap: map<Key, string>)
    requires c.JObject? && "name" in c.fields && !Truthy(Get(c.fields, "list"))
    ensures CardDryRun(c, index, listMap, labelMap) == Failure(CardWithoutList(index))
  {
  }

  /** A card whose labels are all hashable, one of which is missing from the
      label map, fails the dry run with the unknown-label error, wherever in
      the array that label stands. */
  lemma UnknownLabelFails(c: Json, index: nat, listMap: map<Key, string>, labelMap: map<Key, string>,
                          items: seq<Json>, j: nat)
    requires c.JObject? && "name" in c.fields && ListLookup(c, listMap).Success?
    requires GetOr(c.fields, "labels", JArray([])) == JArray(items)
    requires forall k :: 0 <= k < |items| ==> KeyOf(items[k]).Some?
    requires j < |items| && KeyOf(items[j]).value !in labelMap
    ensures CardDryRun(c, index, listMap, labelMap) == Failure(UnknownLabel(index))
  {
    var issue := (i: nat, l: Json) => LabelNameIssue(l, labelMap, index);
    FirstIssueNone(items, issue, 0);
    var k := FirstIssueAt(items, issue, 0);
  }
}
