/**
  The three list pages (players, users, sports clubs). Each fetches its
  list once, normalises the ids, shows the list in the data table with its
  own search keys, and deletes a record locally after a confirmation
  dialog. The pages differ only in the messages, the search keys and the
  users' `isActive` default, so one class serves the three, told apart by
  `Resource`.
*/
module ListPages {
  import opened JsValues
  import opened JsStrings
  import opened Toasts
  import opened Network
  import opened UiSlice
  import opened DataTable

  datatype Resource = Players | Users | Clubs

  /** The `searchKeys` each page hands to the table. */
  function SearchKeys(res: Resource): seq<string> {
    match res
    case Players => ["familyName", "firstName", "dateOfBirth"]
    case Users => ["fullName", "phoneNumber", "email"]
    case Clubs => ["clubName", "email"]
  }

  function EmptyListMessage(res: Resource): string {
    match res
    case Players => "No players found. Please add some players first."
    case Users => "No users found. Please add some users first."
    case Clubs => "No sports clubs found. Please add some sports clubs first."
  }

  /**
    The notice of a failed fetch: players and clubs prefer the server's
    message, users always show their fixed text.
  */
  function FetchFailedMessage(res: Resource, serverMessage: string): (r: string)
    ensures res == Users ==> r == "Failed to fetch users."
    ensures res != Users && serverMessage != "" ==> r == serverMessage
  {
    match res
    case Players => ServerMessageOr(serverMessage, "Failed to fetch players.")
    case Users => "Failed to fetch users."
    case Clubs => ServerMessageOr(serverMessage, "Failed to fetch sports clubs.")
  }

  function DeletedMessage(res: Resource): string {
    match res
    case Players => "Player deleted successfully."
    case Users => "User deleted successfully."
    case Clubs => "Sports club deleted successfully."
  }

  // ---- Notices after a successful fetch ----

  /**
    The notices a successful fetch raises, as the pages are written. On the
    players page the list state's setter is also named `setPlayers` and
    hides the store's action of that name, so `dispatch` is handed the
    setter's `undefined` result and throws: the list has been set by then,
    the catch raises the fetch error without a server message, and the
    empty-list notice is never reached.
  */
  function FetchedNotices(res: Resource, list: seq<Record>): seq<Toast> {
    if res == Players then [Toast(Error, FetchFailedMessage(Players, ""))]
    else if list == [] then [Toast(Info, EmptyListMessage(res))]
    else []
  }

  /**
    As written, every successful players fetch reports a failure and never
    the empty-list notice, while the users and clubs pages report an empty
    list only.
  */
  lemma PlayersFetchReportsFailure(list: seq<Record>)
    ensures FetchedNotices(Players, list) == [Toast(Error, "Failed to fetch players.")]
    ensures Toast(Info, EmptyListMessage(Players)) !in FetchedNotices(Players, [])
    ensures FetchedNotices(Users, []) == [Toast(Info, EmptyListMessage(Users))]
    ensures FetchedNotices(Clubs, []) == [Toast(Info, EmptyListMessage(Clubs))]
  {
    var empty := EmptyListMessage(Players);
    assert empty == "No players found. Please add some players first.";
    assert |empty| != |"Failed to fetch players."|;
  }

  /** The notices a successful fetch evidently should raise: the empty-list notice when nothing came back. */
  function IntendedFetchedNotices(res: Resource, list: seq<Record>): (r: seq<Toast>)
    ensures |r| <= 1
    ensures r != [] <==> list == []
    ensures forall i :: 0 <= i < |r| ==> r[i] == Toast(Info, EmptyListMessage(res))
  {
    if list == [] then [Toast(Info, EmptyListMessage(res))] else []
  }

  /**
    The intended notices never report an error for a fetch that succeeded,
    and they are what the users and clubs pages already raise.
  */
  lemma IntendedFetchedNoticesAgree(res: Resource, list: seq<Record>)
    ensures forall i :: 0 <= i < |IntendedFetchedNotices(res, list)| ==> IntendedFetchedNotices(res, list)[i].severity != Error
    ensures res != Players ==> FetchedNotices(res, list) == IntendedFetchedNotices(res, list)
    ensures res == Players ==> FetchedNotices(res, list) != IntendedFetchedNotices(res, list)
  {
  }

  // ---- Normalisation ----

  /** `{ ...r, id: r.id || r._id }`: every other field kept, `id` always present. */
  function WithId(r: Record): (n: Record)
    ensures "id" in n && n["id"] == (if Truthy(Get(r, "id")) then Get(r, "id") else Get(r, "_id"))
    ensures n - {"id"} == r - {"id"}
  {
    r["id" := Or(Get(r, "id"), Get(r, "_id"))]
  }

  /** `{ ...r, isActive: r.isActive ?? true }`: only a missing or null flag becomes true. */
  function WithActiveDefault(r: Record): (n: Record)
    ensures "isActive" in n
    ensures Nullish(Get(r, "isActive")) ==> n["isActive"] == Bool(true)
    ensures !Nullish(Get(r, "isActive")) ==> n == r
  {
    r["isActive" := Coalesce(Get(r, "isActive"), Bool(true))]
  }

  function Normalize(res: Resource, r: Record): Record {
    if res == Users then WithActiveDefault(WithId(r)) else WithId(r)
  }

  /** `response.map(...)`: one normalised record per fetched record, in the same order. */
  function NormalizeAll(res: Resource, list: seq<Record>): (r: seq<Record>)
    ensures |r| == |list|
    ensures forall i :: 0 <= i < |list| ==> r[i] == Normalize(res, list[i])
  {
    seq(|list|, i requires 0 <= i < |list| => Normalize(res, list[i]))
  }

  /** Normalising a record twice is normalising it once. */
  lemma NormalizeIdempotent(res: Resource, r: Record)
    ensures Normalize(res, Normalize(res, r)) == Normalize(res, r)
  {
    var once := WithId(r);
    assert Get(once, "_id") == Get(r, "_id");
    assert WithId(once) == once;
    if res == Users {
      var active := WithActiveDefault(once);
      assert Get(active, "id") == Get(once, "id") && Get(active, "_id") == Get(once, "_id");
      assert WithId(active) == active;
    }
  }

  /** An explicit `isActive: false` survives the default; null and absent do not. */
  lemma ActiveDefaultKeepsFalse(r: Record)
    ensures Get(r, "isActive") == Bool(false) ==> WithActiveDefault(r)["isActive"] == Bool(false)
    ensures Get(r, "isActive") == Null ==> WithActiveDefault(r)["isActive"] == Bool(true)
    ensures "isActive" !in r ==> WithActiveDefault(r)["isActive"] == Bool(true)
  {
  }

  // ---- Local deletion ----

  /** `list.filter(r => r.id !== pending)`, in the order of `list`. */
  function DeleteById(list: seq<Record>, pending: JsValue): (r: seq<Record>)
    ensures |r| <= |list|
    ensures IsSubsequence(r, list)
    ensures forall x :: x in r <==> x in list && Get(x, "id") != pending
    ensures forall x :: multiset(r)[x] == if Get(x, "id") != pending then multiset(list)[x] else 0
    decreases |list|
  {
    if list == [] then []
    else
      var rest := DeleteById(list[1..], pending);
      assert forall x :: x in list <==> x == list[0] || x in list[1..];
      assert list == [list[0]] + list[1..];
      if Get(list[0], "id") != pending then [list[0]] + rest else rest
  }

  /** Deleting the same id again removes nothing more. */
  lemma {:induction false} DeleteByIdIdempotent(list: seq<Record>, pending: JsValue)
    ensures DeleteById(DeleteById(list, pending), pending) == DeleteById(list, pending)
    decreases |list|
  {
    if list != [] {
      DeleteByIdIdempotent(list[1..], pending);
      if Get(list[0], "id") != pending {
        assert ([list[0]] + DeleteById(list[1..], pending))[1..] == DeleteById(list[1..], pending);
      }
    }
  }

  /** An id that no record carries leaves the list as it was. */
  lemma {:induction false} DeleteUnknownId(list: seq<Record>, pending: JsValue)
    requires forall i :: 0 <= i < |list| ==> Get(list[i], "id") != pending
    ensures DeleteById(list, pending) == list
    decreases |list|
  {
    if list != [] {
      DeleteUnknownId(list[1..], pending);
      assert [list[0]] + list[1..] == list;
    }
  }

  // ---- Search-key consequences ----

  /** Changing a club's description never changes whether the club is found. */
  lemma ClubDescriptionNotSearched(club: Record, description: JsValue, query: string)
    ensures RowMatches(club["description" := description], SearchKeys(Clubs), query)
            <==> RowMatches(club, SearchKeys(Clubs), query)
  {
    var keys := SearchKeys(Clubs);
    var edited := club["description" := description];
    assert CellText(edited, keys[0]) == CellText(club, keys[0]);
    assert CellText(edited, keys[1]) == CellText(club, keys[1]);
    assert KeyMatches(edited, keys[0], query) == KeyMatches(club, keys[0], query);
    assert KeyMatches(edited, keys[1], query) == KeyMatches(club, keys[1], query);
  }

  /**
    A user without a phone number is searched as if it were "": a non-empty
    query then matches on the name or the email only.
  */
  lemma UserWithoutPhone(user: Record, query: string)
    requires "phoneNumber" !in user && query != ""
    ensures CellText(user, "phoneNumber") == ""
    ensures RowMatches(user, SearchKeys(Users), query)
            <==> KeyMatches(user, "fullName", query) || KeyMatches(user, "email", query)
  {
    if KeyMatches(user, "phoneNumber", query) {
      IncludesBound(ToLowerCase(CellText(user, "phoneNumber")), ToLowerCase(query));
    }
    var keys := SearchKeys(Users);
    assert keys[0] == "fullName" && keys[1] == "phoneNumber" && keys[2] == "email";
  }

  // ---- The page ----

  class ListPage {
    const resource: Resource
    var items: seq<Record>
    /** `deleteXId`: the id awaiting confirmation; `null` when the dialog is closed. */
    var pendingDelete: JsValue
    var toasts: seq<Toast>
    const ui: UiState

    constructor (resource: Resource, ui: UiState)
      ensures this.resource == resource && this.ui == ui
      ensures items == [] && pendingDelete == Null && toasts == []
    {
      this.resource := resource;
      this.ui := ui;
      items := [];
      pendingDelete := Null;
      toasts := [];
    }

    /** The confirmation dialog is open while the pending id is truthy. */
    predicate ShowsConfirmation()
      reads this
    {
      Truthy(pendingDelete)
    }

    /**
      The mount effect's fetch: a fetched list replaces the items,
      normalised, and raises the page's notices as written; a failure keeps
      the items and raises the error notice. Loading is off again on both
      paths.
    */
    method Fetch(response: Response<seq<Record>>)
      modifies this, ui
      ensures response.Ok? ==> items == NormalizeAll(resource, response.body)
                               && toasts == old(toasts) + FetchedNotices(resource, response.body)
      ensures response.Failed? ==> items == old(items)
                                   && toasts == old(toasts) + [Toast(Error, FetchFailedMessage(resource, response.serverMessage))]
      ensures !ui.isLoading && pendingDelete == old(pendingDelete)
      ensures ui.theme == old(ui.theme) && ui.isSidebarOpen == old(ui.isSidebarOpen)
      ensures ui.activeSidebarLink == old(ui.activeSidebarLink) && ui.isMobileDevice == old(ui.isMobileDevice)
    {
      ui.SetIsLoading(true);
      match response {
        case Ok(list) =>
          items := NormalizeAll(resource, list);
          if resource == Players {
            // the store dispatch throws before the length check
            toasts := toasts + [Toast(Error, FetchFailedMessage(Players, ""))];
          } else if |items| == 0 {
            toasts := toasts + [Toast(Info, EmptyListMessage(resource))];
          }
        case Failed(message) =>
          toasts := toasts + [Toast(Error, FetchFailedMessage(resource, message))];
      }
      ui.SetIsLoading(false);
    }

    /** The row's delete button: `setDeleteXId(row.id)`. */
    method RequestDelete(id: JsValue)
      modifies this
      ensures pendingDelete == id && items == old(items) && toasts == old(toasts)
    {
      pendingDelete := id;
    }

    /** The dialog's close button. */
    method CancelDelete()
      modifies this
      ensures pendingDelete == Null && items == old(items) && toasts == old(toasts)
    {
      pendingDelete := Null;
    }

    /**
      `handleDelete`: with no truthy pending id nothing happens; otherwise
      every record with that id leaves the local list and the dialog closes.
      No request reaches the server.
    */
    method HandleDelete()
      modifies this
      ensures !Truthy(old(pendingDelete)) ==>
                items == old(items) && pendingDelete == old(pendingDelete) && toasts == old(toasts)
      ensures Truthy(old(pendingDelete)) ==>
                && items == DeleteById(old(items), old(pendingDelete))
                && pendingDelete == Null
                && toasts == old(toasts) + [Toast(Success, DeletedMessage(resource))]
    {
      if !Truthy(pendingDelete) {
        return;
      }
      items := DeleteById(items, pendingDelete);
      pendingDelete := Null;
      toasts := toasts + [Toast(Success, DeletedMessage(resource))];
    }

    /** What the table receives: the items, searched with this page's keys. */
    function TableRows(query: string): (r: seq<Record>)
      reads this
      ensures forall x :: x in r <==> x in items && RowMatches(x, SearchKeys(resource), query)
    {
      Filter(items, SearchKeys(resource), query)
    }
  }

  /** Confirming a deletion twice deletes once: the second confirmation finds no pending id. */
  method ConfirmTwice(page: ListPage, id: JsValue)
    requires Truthy(id)
    modifies page
    ensures page.items == DeleteById(old(page.items), id)
    ensures !page.ShowsConfirmation()
  {
    page.RequestDelete(id);
    page.HandleDelete();
    page.HandleDelete();
  }
}
