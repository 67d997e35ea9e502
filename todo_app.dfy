/**
 * The todo list view's state and handlers. Each handler is one atomic step; the reply
 * of every request it sends (and of the re-fetch that follows a successful change) is a
 * parameter. The step functions below are the specification; class `TodoView` holds the
 * same state in fields and its methods are proved to follow them.
 */
module TodoApp {
  import opened Wrappers
  import opened Notify
  import opened JsString
  import opened TodoList

  /** The requests the view sends to the todo API, in the order it sends them. */
  datatype Request =
    | Get                              // GET /todos
    | Post(text: string)               // POST /todos {text}
    | Put(id: string, text: string)    // PUT /todos/:id {text}
    | Patch(id: string)                // PATCH /todos/:id
    | Delete(id: string)               // DELETE /todos/:id

  /** The outcome of GET /todos: the list in the response body, or a thrown request error. */
  datatype FetchReply = Fetched(list: seq<Todo>) | FetchFailed

  /** The outcome of a changing request: a response with its status code, or a thrown request error. */
  datatype WriteReply = Status(code: int) | Thrown

  const CreatedStatus := 201
  const OkStatus := 200

  const FetchFailedMessage := "Could not fetch todos. Please try again."
  const EmptyTodoMessage := "Todo cannot be empty."

  /** The three toasts of a changing request: accepted, answered with another status, thrown. */
  datatype Messages = Messages(accepted: string, rejected: string, failed: string)

  const AddMessages := Messages("Todo added successfully.",
    "Could not add todo. Please try again.", "Error adding todo. Please check your connection.")
  const UpdateMessages := Messages("Todo updated successfully.",
    "Could not update todo. Please try again.", "Error updating todo. Please check your connection.")
  const ToggleMessages := Messages("Todo marked as completed.",
    "Could not toggle todo status. Please try again.", "Error toggling todo. Please check your connection.")
  const DeleteMessages := Messages("Todo deleted successfully.",
    "Could not delete todo. Please try again.", "Error deleting todo. Please check your connection.")

  /** The view's state fields. */
  datatype ViewState = ViewState(
    todos: seq<Todo>,
    input: string,
    editId: Option<string>,
    editText: string,
    filter: Filter,
    loading: bool)

  /** What one step does: the new state, the requests sent, the toasts shown. */
  datatype Effect = Effect(state: ViewState, sent: seq<Request>, notes: seq<Toast>)

  /** The state on mount, before the first fetch. */
  const Initial := ViewState([], "", None, "", All, false)

  /** An edit draft exists only while a row is being edited. */
  predicate DraftRule(s: ViewState)
  {
    s.editId.None? ==> s.editText == ""
  }

  /** `fetchTodos`: the list is replaced wholesale on success and kept on failure; loading ends either way. */
  function Fetch(s: ViewState, reply: FetchReply): (e: Effect)
    ensures e.sent == [Get] && !e.state.loading
    ensures reply.Fetched? ==> e.state.todos == reply.list && e.notes == []
    ensures reply.FetchFailed? ==> e.state.todos == s.todos && e.notes == [Error(FetchFailedMessage)]
    ensures e.state.(todos := s.todos, loading := s.loading) == s
  {
    match reply
    case Fetched(list) => Effect(s.(todos := list, loading := false), [Get], [])
    case FetchFailed => Effect(s.(loading := false), [Get], [Error(FetchFailedMessage)])
  }

  /**
   * A request that changes server data. Status `okCode` moves the view to `accepted`,
   * shows the success toast and re-fetches; any other status or a thrown error shows an
   * error toast and leaves the view at `s`.
   */
  function Change(s: ViewState, req: Request, reply: WriteReply, okCode: int,
                  accepted: ViewState, refetch: FetchReply, m: Messages): (e: Effect)
    ensures e.sent != [] && e.sent[0] == req
    ensures reply == Status(okCode) ==>
              e.sent == [req, Get] &&
              e.state == Fetch(accepted, refetch).state &&
              e.notes == [Info(m.accepted)] + Fetch(accepted, refetch).notes
    ensures reply != Status(okCode) ==>
              e.state == s && e.sent == [req] &&
              e.notes == [Error(if reply.Thrown? then m.failed else m.rejected)]
  {
    match reply
    case Status(code) =>
      if code == okCode then
        var f := Fetch(accepted, refetch);
        Effect(f.state, [req] + f.sent, [Info(m.accepted)] + f.notes)
      else Effect(s, [req], [Error(m.rejected)])
    case Thrown => Effect(s, [req], [Error(m.failed)])
  }

  /**
   * `addTodo`: blank input is refused before any request; otherwise the untrimmed input is
   * posted, and only a 201 clears the input and re-fetches.
   */
  function Add(s: ViewState, post: WriteReply, refetch: FetchReply): (e: Effect)
    ensures IsBlank(s.input) ==> e == Effect(s, [], [Warning(EmptyTodoMessage)])
    ensures !IsBlank(s.input) ==> e.sent != [] && e.sent[0] == Post(s.input)
    ensures !IsBlank(s.input) && post == Status(CreatedStatus) ==>
              e.state.input == "" && e.sent == [Post(s.input), Get] &&
              e.state.(input := s.input) == Fetch(s, refetch).state &&
              e.notes == [Info(AddMessages.accepted)] + Fetch(s, refetch).notes
    ensures !IsBlank(s.input) && post != Status(CreatedStatus) ==>
              e.sent == [Post(s.input)] &&
              e.notes == [Error(if post.Thrown? then AddMessages.failed else AddMessages.rejected)]
    ensures post != Status(CreatedStatus) ==> e.state == s
  {
    if IsBlank(s.input) then Effect(s, [], [Warning(EmptyTodoMessage)])
    else Change(s, Post(s.input), post, CreatedStatus, s.(input := ""), refetch, AddMessages)
  }

  /** `startEdit`: row `id` enters edit mode with its text as the draft; any earlier draft is dropped. */
  function StartEditing(s: ViewState, id: string, text: string): (e: Effect)
    ensures e.state.editId == Some(id) && e.state.editText == text
    ensures e.state.(editId := s.editId, editText := s.editText) == s
    ensures e.sent == [] && e.notes == []
  {
    Effect(s.(editId := Some(id), editText := text), [], [])
  }

  /** `handleEdit`: the edit input's change handler replaces the draft. */
  function TypeDraft(s: ViewState, value: string): (e: Effect)
    ensures e.state.editText == value && e.state.(editText := s.editText) == s
    ensures e.sent == [] && e.notes == []
  {
    Effect(s.(editText := value), [], [])
  }

  /** The add form's change handler replaces the input. */
  function TypeInput(s: ViewState, value: string): (e: Effect)
    ensures e.state.input == value && e.state.(input := s.input) == s
    ensures e.sent == [] && e.notes == []
  {
    Effect(s.(input := value), [], [])
  }

  /** A filter button: a purely local change that sends nothing. */
  function ChooseFilter(s: ViewState, f: Filter): (e: Effect)
    ensures e.state.filter == f && e.state.(filter := s.filter) == s
    ensures e.sent == [] && e.notes == []
  {
    Effect(s.(filter := f), [], [])
  }

  /**
   * `submitEdit(id)`: a blank draft is refused before any request; otherwise the draft is
   * put, and only a 200 leaves edit mode, drops the draft and re-fetches.
   */
  function SubmitEditing(s: ViewState, id: string, put: WriteReply, refetch: FetchReply): (e: Effect)
    ensures IsBlank(s.editText) ==> e == Effect(s, [], [Warning(EmptyTodoMessage)])
    ensures !IsBlank(s.editText) ==> e.sent != [] && e.sent[0] == Put(id, s.editText)
    ensures !IsBlank(s.editText) && put == Status(OkStatus) ==>
              e.state.editId == None && e.state.editText == "" && e.sent == [Put(id, s.editText), Get] &&
              e.state == Fetch(s.(editId := None, editText := ""), refetch).state &&
              e.notes == [Info(UpdateMessages.accepted)] + Fetch(s, refetch).notes
    ensures !IsBlank(s.editText) && put != Status(OkStatus) ==>
              e.sent == [Put(id, s.editText)] &&
              e.notes == [Error(if put.Thrown? then UpdateMessages.failed else UpdateMessages.rejected)]
    ensures put != Status(OkStatus) ==> e.state == s
  {
    if IsBlank(s.editText) then Effect(s, [], [Warning(EmptyTodoMessage)])
    else Change(s, Put(id, s.editText), put, OkStatus, s.(editId := None, editText := ""), refetch, UpdateMessages)
  }

  /** `cancelEdit`: leaves edit mode and drops the draft, with no request. */
  function CancelEditing(s: ViewState): (e: Effect)
    ensures e.state.editId == None && e.state.editText == ""
    ensures e.state.(editId := s.editId, editText := s.editText) == s
    ensures e.sent == [] && e.notes == []
  {
    Effect(s.(editId := None, editText := ""), [], [])
  }

  /** The edit input's key handler: Enter saves, Escape cancels, any other key does nothing. */
  function EditKey(s: ViewState, key: string, id: string, put: WriteReply, refetch: FetchReply): (e: Effect)
    ensures key == "Enter" ==> e == SubmitEditing(s, id, put, refetch)
    ensures key == "Escape" ==> e == CancelEditing(s)
    ensures key != "Enter" && key != "Escape" ==> e == Effect(s, [], [])
  {
    if key == "Enter" then SubmitEditing(s, id, put, refetch)
    else if key == "Escape" then CancelEditing(s)
    else Effect(s, [], [])
  }

  /** `toggleCompleted(id)`: the list changes only through the re-fetch after a 200. */
  function Toggle(s: ViewState, id: string, patch: WriteReply, refetch: FetchReply): (e: Effect)
    ensures patch == Status(OkStatus) ==>
              e.sent == [Patch(id), Get] && e.state == Fetch(s, refetch).state &&
              e.notes == [Info(ToggleMessages.accepted)] + Fetch(s, refetch).notes
    ensures patch != Status(OkStatus) ==>
              e.sent == [Patch(id)] && e.state == s &&
              e.notes == [Error(if patch.Thrown? then ToggleMessages.failed else ToggleMessages.rejected)]
  {
    Change(s, Patch(id), patch, OkStatus, s, refetch, ToggleMessages)
  }

  /** `deleteTodo(id)`: no confirmation; the list changes only through the re-fetch after a 200. */
  function Remove(s: ViewState, id: string, del: WriteReply, refetch: FetchReply): (e: Effect)
    ensures del == Status(OkStatus) ==>
              e.sent == [Delete(id), Get] && e.state == Fetch(s, refetch).state &&
              e.notes == [Info(DeleteMessages.accepted)] + Fetch(s, refetch).notes
    ensures del != Status(OkStatus) ==>
              e.sent == [Delete(id)] && e.state == s &&
              e.notes == [Error(if del.Thrown? then DeleteMessages.failed else DeleteMessages.rejected)]
  {
    Change(s, Delete(id), del, OkStatus, s, refetch, DeleteMessages)
  }

  /** The user events the rendered view reacts to, with the replies of the requests they send. */
  datatype Event =
    | Mount(reply: FetchReply)
    | EnterInput(value: string)
    | SubmitAdd(post: WriteReply, refetch: FetchReply)
    | ClickFilter(filter: Filter)
    | ClickEdit(id: string, text: string)
    | EnterDraft(id: string, value: string)
    | ClickSave(id: string, put: WriteReply, refetch: FetchReply)
    | ClickCancel(id: string)
    | PressKey(id: string, key: string, put: WriteReply, refetch: FetchReply)
    | ClickText(id: string, patch: WriteReply, refetch: FetchReply)
    | ClickDelete(id: string, del: WriteReply, refetch: FetchReply)

  /**
   * The wiring of the rendered elements to the handlers. Only the filter buttons change
   * the filter, only the add form changes the input, and the elements that only edit
   * local text send no request.
   */
  function Handle(s: ViewState, ev: Event): (e: Effect)
    ensures e.state.filter == s.filter || ev.ClickFilter?
    ensures e.state.input == s.input || ev.EnterInput? || ev.SubmitAdd?
    ensures ev.EnterInput? || ev.ClickFilter? || ev.ClickEdit? || ev.EnterDraft? || ev.ClickCancel? ==>
              e.sent == []
  {
    match ev
    case Mount(reply) => Fetch(s, reply)
    case EnterInput(value) => TypeInput(s, value)
    case SubmitAdd(post, refetch) => Add(s, post, refetch)
    case ClickFilter(f) => ChooseFilter(s, f)
    case ClickEdit(id, text) => StartEditing(s, id, text)
    case EnterDraft(_, value) => TypeDraft(s, value)
    case ClickSave(id, put, refetch) => SubmitEditing(s, id, put, refetch)
    case ClickCancel(_) => CancelEditing(s)
    case PressKey(id, key, put, refetch) => EditKey(s, key, id, put, refetch)
    case ClickText(id, patch, refetch) => Toggle(s, id, patch, refetch)
    case ClickDelete(id, del, refetch) => Remove(s, id, del, refetch)
  }

  /** Row `id` is rendered, in edit mode or not as `editing` says. */
  predicate RowShown(s: ViewState, id: string, editing: bool)
  {
    exists t :: t in Visible(s.todos, s.filter) && t.id == id && IsEditing(t, s.editId) == editing
  }

  /**
   * The element an event comes from is on screen: the draft input, Save, Cancel and the
   * key handler exist only on the row in edit mode; the text, Edit and Delete only on rows
   * that are not (and Edit passes that row's own text).
   */
  predicate Enabled(s: ViewState, ev: Event)
    ensures Enabled(s, ev) && (ev.EnterDraft? || ev.ClickSave? || ev.ClickCancel? || ev.PressKey?) ==>
              s.editId == Some(ev.id)
    ensures Enabled(s, ev) && (ev.ClickEdit? || ev.ClickText? || ev.ClickDelete?) ==>
              s.editId != Some(ev.id)
  {
    match ev
    case EnterDraft(id, _) => RowShown(s, id, true)
    case ClickSave(id, _, _) => RowShown(s, id, true)
    case ClickCancel(id) => RowShown(s, id, true)
    case PressKey(id, _, _, _) => RowShown(s, id, true)
    case ClickEdit(id, text) =>
      exists t :: t in Visible(s.todos, s.filter) && t.id == id && t.text == text && !IsEditing(t, s.editId)
    case ClickText(id, _, _) => RowShown(s, id, false)
    case ClickDelete(id, _, _) => RowShown(s, id, false)
    case _ => true
  }

  /**
   * The reply the event's GET gets, if the event sends one (a failed one for events that
   * carry no fetch reply). Whether a GET is sent at all is read from the step's requests.
   */
  function FetchOf(ev: Event): FetchReply
  {
    match ev
    case Mount(reply) => reply
    case SubmitAdd(_, refetch) => refetch
    case ClickSave(_, _, refetch) => refetch
    case PressKey(_, _, _, refetch) => refetch
    case ClickText(_, _, refetch) => refetch
    case ClickDelete(_, _, refetch) => refetch
    case _ => FetchFailed
  }

  /**
   * No step patches the list locally: it becomes the list of the GET this step sent when
   * that GET succeeded, and it is kept otherwise.
   */
  lemma HandleOnlyFetchesList(s: ViewState, ev: Event)
    ensures Handle(s, ev).state.todos ==
              if Get in Handle(s, ev).sent && FetchOf(ev).Fetched? then FetchOf(ev).list else s.todos
    ensures !Handle(s, ev).state.loading || Handle(s, ev).state.loading == s.loading
  {
  }

  /** Every step the rendered view offers keeps the draft rule. */
  lemma HandleKeepsDraftRule(s: ViewState, ev: Event)
    requires DraftRule(s) && Enabled(s, ev)
    ensures DraftRule(Handle(s, ev).state)
  {
  }

  /** The state after the events `evs`, one after another. */
  function Run(s: ViewState, evs: seq<Event>): ViewState
    decreases |evs|
  {
    if evs == [] then s else Run(Handle(s, evs[0]).state, evs[1..])
  }

  /** Each event of `evs` comes from an element on screen when it happens. */
  predicate AllEnabled(s: ViewState, evs: seq<Event>)
    decreases |evs|
  {
    evs == [] || (Enabled(s, evs[0]) && AllEnabled(Handle(s, evs[0]).state, evs[1..]))
  }

  /**
   * The list in the reply to the last GET that the events `evs` actually sent and that
   * succeeded, or `held` when none did.
   */
  function LastFetched(s: ViewState, evs: seq<Event>, held: seq<Todo>): seq<Todo>
    decreases |evs|
  {
    if evs == [] then held
    else
      var e := Handle(s, evs[0]);
      var got := if Get in e.sent && FetchOf(evs[0]).Fetched? then FetchOf(evs[0]).list else held;
      LastFetched(e.state, evs[1..], got)
  }

  /** Any sequence of user events keeps the draft rule. */
  lemma {:induction false} RunKeepsDraftRule(s: ViewState, evs: seq<Event>)
    requires DraftRule(s) && AllEnabled(s, evs)
    ensures DraftRule(Run(s, evs))
    decreases |evs|
  {
    if evs != [] {
      HandleKeepsDraftRule(s, evs[0]);
      RunKeepsDraftRule(Handle(s, evs[0]).state, evs[1..]);
    }
  }

  /**
   * After any sequence of events the list held is the server's last response: the list of
   * the last GET sent that succeeded, or the starting list when there was none.
   */
  lemma {:induction false} RunHoldsLastFetched(s: ViewState, evs: seq<Event>)
    ensures Run(s, evs).todos == LastFetched(s, evs, s.todos)
    decreases |evs|
  {
    if evs != [] {
      HandleOnlyFetchesList(s, evs[0]);
      RunHoldsLastFetched(Handle(s, evs[0]).state, evs[1..]);
    }
  }

  /** Starting to edit row B while row A's draft is unsaved discards A's draft unsent. */
  lemma SwitchingRowsDiscardsDraft(s: ViewState, a: string, textA: string, draft: string, b: string, textB: string)
    ensures var e1 := StartEditing(s, a, textA).state;
            var e2 := TypeDraft(e1, draft).state;
            var e3 := StartEditing(e2, b, textB);
            e3.state.editId == Some(b) && e3.state.editText == textB &&
            e3.state.todos == s.todos && e3.sent == []
  {
  }

  /** The state fields of the view, updated in place by its handlers. */
  class TodoView {
    var todos: seq<Todo>
    var input: string
    var editId: Option<string>
    var editText: string
    var filter: Filter
    var loading: bool

    /** The fields as one value. */
    function State(): ViewState
      reads this
    {
      ViewState(todos, input, editId, editText, filter, loading)
    }

    ghost predicate Valid()
      reads this
    {
      DraftRule(State())
    }

    /** The `useState` initial values. */
    constructor ()
      ensures State() == Initial && Valid()
    {
      todos, input, editId, editText, filter, loading := [], "", None, "", All, false;
    }

    method FetchTodos(reply: FetchReply) returns (sent: seq<Request>, notes: seq<Toast>)
      requires Valid()
      modifies this
      ensures Valid()
      ensures Effect(State(), sent, notes) == Fetch(old(State()), reply)
    {
      loading := true;
      sent := [Get];
      match reply {
        case Fetched(list) =>
          todos := list;
          notes := [];
        case FetchFailed =>
          notes := [Error(FetchFailedMessage)];
      }
      loading := false;
    }

    method AddTodo(post: WriteReply, refetch: FetchReply) returns (sent: seq<Request>, notes: seq<Toast>)
      requires Valid()
      modifies this
      ensures Valid()
      ensures Effect(State(), sent, notes) == Add(old(State()), post, refetch)
    {
      if IsBlank(input) {
        sent, notes := [], [Warning(EmptyTodoMessage)];
        return;
      }
      var text := input;
      match post
      case Status(code) =>
        if code == CreatedStatus {
          input := "";
          var fetchSent, fetchNotes := FetchTodos(refetch);
          sent, notes := [Post(text)] + fetchSent, [Info(AddMessages.accepted)] + fetchNotes;
        } else {
          sent, notes := [Post(text)], [Error(AddMessages.rejected)];
        }
      case Thrown =>
        sent, notes := [Post(text)], [Error(AddMessages.failed)];
    }

    method SetInput(value: string)
      requires Valid()
      modifies this
      ensures Valid()
      ensures State() == TypeInput(old(State()), value).state
    {
      input := value;
    }

    method SetFilter(f: Filter)
      requires Valid()
      modifies this
      ensures Valid()
      ensures State() == ChooseFilter(old(State()), f).state
    {
      filter := f;
    }

    method StartEdit(id: string, text: string)
      requires Valid()
      modifies this
      ensures Valid()
      ensures State() == StartEditing(old(State()), id, text).state
    {
      editId := Some(id);
      editText := text;
    }

    /** Only the input of the row in edit mode carries this handler. */
    method HandleEdit(value: string)
      requires Valid() && editId.Some?
      modifies this
      ensures Valid()
      ensures State() == TypeDraft(old(State()), value).state
    {
      editText := value;
    }

    method SubmitEdit(id: string, put: WriteReply, refetch: FetchReply) returns (sent: seq<Request>, notes: seq<Toast>)
      requires Valid()
      modifies this
      ensures Valid()
      ensures Effect(State(), sent, notes) == SubmitEditing(old(State()), id, put, refetch)
    {
      if IsBlank(editText) {
        sent, notes := [], [Warning(EmptyTodoMessage)];
        return;
      }
      var text := editText;
      match put
      case Status(code) =>
        if code == OkStatus {
          editId := None;
          editText := "";
          var fetchSent, fetchNotes := FetchTodos(refetch);
          sent, notes := [Put(id, text)] + fetchSent, [Info(UpdateMessages.accepted)] + fetchNotes;
        } else {
          sent, notes := [Put(id, text)], [Error(UpdateMessages.rejected)];
        }
      case Thrown =>
        sent, notes := [Put(id, text)], [Error(UpdateMessages.failed)];
    }

    method CancelEdit()
      requires Valid()
      modifies this
      ensures Valid()
      ensures State() == CancelEditing(old(State())).state
    {
      editId := None;
      editText := "";
    }

    method EditKeyDown(key: string, id: string, put: WriteReply, refetch: FetchReply)
      returns (sent: seq<Request>, notes: seq<Toast>)
      requires Valid()
      modifies this
      ensures Valid()
      ensures Effect(State(), sent, notes) == EditKey(old(State()), key, id, put, refetch)
    {
      sent, notes := [], [];
      if key == "Enter" {
        sent, notes := SubmitEdit(id, put, refetch);
      }
      if key == "Escape" {
        CancelEdit();
      }
    }

    method ToggleCompleted(id: string, patch: WriteReply, refetch: FetchReply)
      returns (sent: seq<Request>, notes: seq<Toast>)
      requires Valid()
      modifies this
      ensures Valid()
      ensures Effect(State(), sent, notes) == Toggle(old(State()), id, patch, refetch)
    {
      match patch
      case Status(code) =>
        if code == OkStatus {
          var fetchSent, fetchNotes := FetchTodos(refetch);
          sent, notes := [Patch(id)] + fetchSent, [Info(ToggleMessages.accepted)] + fetchNotes;
        } else {
          sent, notes := [Patch(id)], [Error(ToggleMessages.rejected)];
        }
      case Thrown =>
        sent, notes := [Patch(id)], [Error(ToggleMessages.failed)];
    }

    method DeleteTodo(id: string, del: WriteReply, refetch: FetchReply)
      returns (sent: seq<Request>, notes: seq<Toast>)
      requires Valid()
      modifies this
      ensures Valid()
      ensures Effect(State(), sent, notes) == Remove(old(State()), id, del, refetch)
    {
      match del
      case Status(code) =>
        if code == OkStatus {
          var fetchSent, fetchNotes := FetchTodos(refetch);
          sent, notes := [Delete(id)] + fetchSent, [Info(DeleteMessages.accepted)] + fetchNotes;
        } else {
          sent, notes := [Delete(id)], [Error(DeleteMessages.rejected)];
        }
      case Thrown =>
        sent, notes := [Delete(id)], [Error(DeleteMessages.failed)];
    }
  }
}
