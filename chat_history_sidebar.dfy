/**
 * The conversation sidebar: it lists the user's conversations and lets the user
 * open a per-conversation menu, rename a conversation in place and delete one
 * after a confirmation dialog. Each network request is recorded in `requests`,
 * and its outcome is a parameter of the handler that awaits it.
 */
module ChatHistorySidebar {
  import opened Common
  import opened Text

  datatype Conversation = Conversation(id: string, title: string)

  /** The fetches the sidebar issues. */
  datatype Request = ListConversations | DeleteConversation(id: string) | RenameConversation(id: string, title: string)

  /** An id held in state is truthy: present and not the empty string. */
  predicate IsSet(id: Option<string>) {
    id.Some? && id.value != ""
  }

  /** `i` is the position of the first conversation with this id. */
  ghost predicate IsFirst(convs: seq<Conversation>, id: string, i: int) {
    0 <= i < |convs| && convs[i].id == id && forall j :: 0 <= j < i ==> convs[j].id != id
  }

  /** `convs.findIndex(c => c.id === id)`: the first position with this id, or -1. */
  function FindIndex(convs: seq<Conversation>, id: string): (i: int)
    ensures -1 <= i < |convs|
    ensures i >= 0 ==> IsFirst(convs, id, i)
    ensures i < 0 <==> forall j :: 0 <= j < |convs| ==> convs[j].id != id
  {
    if convs == [] then -1
    else if convs[0].id == id then 0
    else
      var i := FindIndex(convs[1..], id);
      assert forall j :: 1 <= j < |convs| ==> convs[j] == convs[1..][j - 1];
      if i < 0 then -1 else i + 1
  }

  /** `convs.find(c => c.id === id)`. */
  function Find(convs: seq<Conversation>, id: string): (r: Option<Conversation>)
    ensures r.None? <==> forall i :: 0 <= i < |convs| ==> convs[i].id != id
    ensures r.Some? ==> exists i :: IsFirst(convs, id, i) && convs[i] == r.value
  {
    var i := FindIndex(convs, id);
    if i < 0 then None else Some(convs[i])
  }

  /** `convs.map(c => c.id === id ? { ...c, title } : c)`. */
  function Retitled(convs: seq<Conversation>, id: string, title: string): (r: seq<Conversation>)
    ensures |r| == |convs|
    ensures forall i :: 0 <= i < |convs| ==>
      r[i] == if convs[i].id == id then convs[i].(title := title) else convs[i]
  {
    if convs == [] then []
    else [if convs[0].id == id then convs[0].(title := title) else convs[0]] + Retitled(convs[1..], id, title)
  }

  /** After a rename the conversation is found under its id with the new title; ids never change. */
  lemma RetitledFind(convs: seq<Conversation>, id: string, title: string)
    requires Find(convs, id).Some?
    ensures Find(Retitled(convs, id, title), id) == Some(Conversation(id, title))
  {
    var r := Retitled(convs, id, title);
    var i := FindIndex(convs, id);
    assert r[i] == Conversation(id, title);
    assert forall k :: 0 <= k < |r| ==> r[k].id == convs[k].id;
    var j := FindIndex(r, id);
    assert j >= 0 && !(j < i) && !(i < j);
  }

  /** Renaming twice to the same title is renaming once. */
  lemma RetitledIdempotent(convs: seq<Conversation>, id: string, title: string)
    ensures Retitled(Retitled(convs, id, title), id, title) == Retitled(convs, id, title)
  {
  }

  /** Every field of the sidebar, so that handlers can say what they leave alone. */
  datatype Snapshot = Snapshot(
    conversations: seq<Conversation>, isLoading: bool, menuOpen: bool,
    selectedConvoId: Option<string>, isDeleteModalOpen: bool,
    editingConvoId: Option<string>, newTitle: string,
    requests: seq<Request>, refreshed: seq<string>)

  class Sidebar {
    var conversations: seq<Conversation>
    var isLoading: bool
    /** `anchorEl` is not null: the conversation menu is open. */
    var menuOpen: bool
    var selectedConvoId: Option<string>
    var isDeleteModalOpen: bool
    var editingConvoId: Option<string>
    var newTitle: string
    /** Every fetch issued, oldest first. */
    var requests: seq<Request>
    /** Every argument passed to the parent's `refreshConversations`, oldest first. */
    var refreshed: seq<string>

    ghost function State(): Snapshot
      reads this
    {
      Snapshot(conversations, isLoading, menuOpen, selectedConvoId, isDeleteModalOpen,
               editingConvoId, newTitle, requests, refreshed)
    }

    constructor ()
      ensures State() == Snapshot([], false, false, None, false, None, "", [], [])
    {
      conversations, isLoading, menuOpen := [], false, false;
      selectedConvoId, isDeleteModalOpen := None, false;
      editingConvoId, newTitle := None, "";
      requests, refreshed := [], [];
    }

    /**
     * `chatToDeleteTitle`: the non-empty title of the first conversation with the
     * selected id, or `None`.
     */
    function ChatToDeleteTitle(): (t: Option<string>)
      reads this
      ensures !IsSet(selectedConvoId) ==> t.None?
      ensures t.Some? ==> (t.value != "" &&
        exists i :: IsFirst(conversations, selectedConvoId.value, i) && conversations[i].title == t.value)
      ensures IsSet(selectedConvoId) && t.None? ==>
        forall i :: IsFirst(conversations, selectedConvoId.value, i) ==> conversations[i].title == ""
    {
      if !IsSet(selectedConvoId) then None
      else
        var found := Find(conversations, selectedConvoId.value);
        if found.Some? && found.value.title != "" then Some(found.value.title)
        else
          assert forall i, j :: (IsFirst(conversations, selectedConvoId.value, i) &&
            IsFirst(conversations, selectedConvoId.value, j)) ==> i == j;
          None
    }

    /** `handleMenuClick`: open the menu for a conversation and select it. */
    method MenuClick(convoId: string)
      modifies this
      ensures State() == old(State()).(menuOpen := true, selectedConvoId := Some(convoId))
    {
      menuOpen := true;
      selectedConvoId := Some(convoId);
    }

    /** `handleMenuClose`. */
    method MenuClose()
      modifies this
      ensures State() == old(State()).(menuOpen := false)
    {
      menuOpen := false;
    }

    /** `handleDeleteClick`: open the confirmation dialog and close the menu. */
    method DeleteClick()
      modifies this
      ensures State() == old(State()).(isDeleteModalOpen := true, menuOpen := false)
    {
      isDeleteModalOpen := true;
      menuOpen := false;
    }

    /** The dialog's `onClose`: dismiss it without deleting. */
    method CancelDelete()
      modifies this
      ensures State() == old(State()).(isDeleteModalOpen := false)
    {
      isDeleteModalOpen := false;
    }

    /**
     * `handleConfirmDelete`. With no selection nothing happens. Otherwise a DELETE
     * is sent; only if it succeeds (`deleteOk`) is the parent told which id went;
     * either way the dialog closes and the selection is cleared.
     */
    method ConfirmDelete(deleteOk: bool)
      modifies this
      ensures !IsSet(old(selectedConvoId)) ==> State() == old(State())
      ensures IsSet(old(selectedConvoId)) ==>
        var id := old(selectedConvoId).value;
        State() == old(State()).(
          requests := old(requests) + [DeleteConversation(id)],
          refreshed := old(refreshed) + (if deleteOk then [id] else []),
          isDeleteModalOpen := false,
          selectedConvoId := None)
    {
      if !IsSet(selectedConvoId) {
        return;
      }
      var id := selectedConvoId.value;
      requests := requests + [DeleteConversation(id)];
      if deleteOk {
        refreshed := refreshed + [id];
      }
      isDeleteModalOpen := false;
      selectedConvoId := None;
    }

    /**
     * `handleRename`: start editing the selected conversation with its current
     * title. Without a selection it returns before closing the menu.
     */
    method Rename()
      modifies this
      ensures !IsSet(old(selectedConvoId)) ==> State() == old(State())
      ensures IsSet(old(selectedConvoId)) ==>
        var found := Find(old(conversations), old(selectedConvoId).value);
        State() == if found.Some?
          then old(State()).(editingConvoId := old(selectedConvoId), newTitle := found.value.title, menuOpen := false)
          else old(State()).(menuOpen := false)
    {
      if !IsSet(selectedConvoId) {
        return;
      }
      var found := Find(conversations, selectedConvoId.value);
      if found.Some? {
        editingConvoId := selectedConvoId;
        newTitle := found.value.title;
      }
      menuOpen := false;
    }

    /** `handleTitleChange`. */
    method TitleChange(value: string)
      modifies this
      ensures State() == old(State()).(newTitle := value)
    {
      newTitle := value;
    }

    /** `handleTitleBlur`: leaving the field cancels the edit. */
    method TitleBlur()
      modifies this
      ensures State() == old(State()).(editingConvoId := None, newTitle := "")
    {
      editingConvoId := None;
      newTitle := "";
    }

    /**
     * `handleTitleKeyDown`. Enter with an editing id and a non-blank title sends a
     * PATCH with the trimmed title; on success (`renameOk`) that title replaces the
     * title of every listed conversation with the editing id. Enter (sent or not
     * sent after a request) and Escape end editing; Enter with nothing to send, and
     * any other key, change nothing.
     */
    method TitleKeyDown(key: string, renameOk: bool)
      modifies this
      ensures key == "Enter" && (!IsSet(old(editingConvoId)) || Blank(old(newTitle))) ==> State() == old(State())
      ensures key == "Enter" && IsSet(old(editingConvoId)) && !Blank(old(newTitle)) ==>
        var id, title := old(editingConvoId).value, Trim(old(newTitle));
        State() == old(State()).(
          requests := old(requests) + [RenameConversation(id, title)],
          conversations := if renameOk then Retitled(old(conversations), id, title) else old(conversations),
          editingConvoId := None,
          newTitle := "")
      ensures key == "Escape" ==> State() == old(State()).(editingConvoId := None, newTitle := "")
      ensures key != "Enter" && key != "Escape" ==> State() == old(State())
    {
      if key == "Enter" {
        if !IsSet(editingConvoId) || Trim(newTitle) == "" {
          return;
        }
        var id, title := editingConvoId.value, Trim(newTitle);
        requests := requests + [RenameConversation(id, title)];
        if renameOk {
          conversations := Retitled(conversations, id, title);
        }
        editingConvoId := None;
        newTitle := "";
      } else if key == "Escape" {
        editingConvoId := None;
        newTitle := "";
      }
    }

    /**
     * The loading effect, run when the session changes. Without a session the list
     * is emptied. With one the list is fetched: `fetched` is the list the server
     * returned, or `None` when the request failed, which keeps the old list.
     */
    method LoadConversations(hasSession: bool, fetched: Option<seq<Conversation>>)
      modifies this
      ensures !hasSession ==> State() == old(State()).(conversations := [])
      ensures hasSession ==> State() == old(State()).(
        requests := old(requests) + [ListConversations],
        conversations := if fetched.Some? then fetched.value else old(conversations),
        isLoading := false)
    {
      if !hasSession {
        conversations := [];
        return;
      }
      isLoading := true;
      requests := requests + [ListConversations];
      if fetched.Some? {
        conversations := fetched.value;
      }
      isLoading := false;
    }
  }
}
