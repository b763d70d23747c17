/** The assistant editor of src/components/AssistantEditor.tsx: its form state and initial
    values, the tool and department toggles, drag-to-reorder of quick prompts, adding,
    editing and deleting quick prompts, and the records handed to `onSave` and written by
    the export. */
module AssistantEditor {
  import opened Types
  import opened Strings
  import opened Lists
  import Discovery

  /** The ids of `AVAILABLE_TOOLS`, in their declared order. */
  const AvailableTools: seq<string> :=
    ["code_interpreter", "search", "web_browser", "image_generation", "file_upload", "data_analysis"]

  const DefaultIcon := "🤖"
  const DefaultSystemPrompt := "You are a helpful AI assistant."

  /** No editor tool has an entry in the discovery page's colour table (its ids are
      hyphenated, and it has "web-search" rather than "search"), so every tool an assistant
      built here carries is shown gray there. */
  lemma EditorToolsAreGray()
    ensures forall t :: t in AvailableTools ==> t !in Discovery.ToolColors
    ensures forall t :: t in AvailableTools ==> Discovery.ToolColor(t) == Discovery.GrayColor
  {
    Discovery.ToolColorKeysAreHyphenated();
    assert "search" !in Discovery.ToolColors;
    forall t | t in AvailableTools && t != "search" ensures '_' in t {
      assert t[4] == '_' || t[3] == '_' || t[5] == '_';
    }
  }

  /** The editor's state: the form fields, the text of the quick-prompt input and the index
      of the prompt being dragged. */
  datatype EditorState = EditorState(
    name: string,
    description: string,
    icon: string,
    systemPrompt: string,
    responseBehavior: ResponseBehavior,
    allowedTools: seq<string>,
    selectedDepartments: seq<string>,
    quickPrompts: seq<string>,
    newQuickPrompt: string,
    draggedIndex: Option<nat>)

  /** The fallback for an optional list: `xs || []`. */
  function ListOrEmpty(o: Option<seq<string>>): (r: seq<string>)
    ensures o.Some? ==> r == o.value
    ensures o.None? ==> r == []
  {
    if o.Some? then o.value else []
  }

  /** The initial state for `assistant` (null when creating a new one). An empty name or
      description starts empty, an empty icon or prompt falls back to the default, and the
      lists are taken as they are (an array, even an empty one, is truthy). */
  function Initial(assistant: Option<Assistant>): (st: EditorState)
    ensures assistant.None? ==> st == EditorState("", "", DefaultIcon, DefaultSystemPrompt, Balanced, [], [], [], "", None)
    ensures assistant.Some? ==> st.name == assistant.value.name && st.description == assistant.value.description
    ensures assistant.Some? ==> st.allowedTools == assistant.value.allowedTools
    ensures assistant.Some? ==> st.responseBehavior == assistant.value.responseBehavior
    ensures assistant.Some? ==>
      st.icon == (if assistant.value.icon != "" then assistant.value.icon else DefaultIcon)
    ensures assistant.Some? ==>
      st.systemPrompt == (if assistant.value.systemPrompt != "" then assistant.value.systemPrompt else DefaultSystemPrompt)
    ensures assistant.Some? ==> st.selectedDepartments == ListOrEmpty(assistant.value.publishedDepartments)
    ensures assistant.Some? ==> st.quickPrompts == ListOrEmpty(assistant.value.quickPrompts)
    ensures st.icon != "" && st.systemPrompt != ""
    ensures st.newQuickPrompt == "" && st.draggedIndex == None
  {
    if assistant.None? then EditorState("", "", DefaultIcon, DefaultSystemPrompt, Balanced, [], [], [], "", None)
    else
      var a := assistant.value;
      EditorState(
        a.name, a.description,
        if a.icon != "" then a.icon else DefaultIcon,
        if a.systemPrompt != "" then a.systemPrompt else DefaultSystemPrompt,
        a.responseBehavior, a.allowedTools,
        ListOrEmpty(a.publishedDepartments), ListOrEmpty(a.quickPrompts), "", None)
  }

  // ---------------------------------------------------------------------------------------
  // Save and export

  /** The record handed to `onSave`, or None when the guard rejects the form (an empty name
      or description after trimming: the source alerts and returns). */
  function SaveOf(st: EditorState, editing: Option<Assistant>): (r: Option<Saved>)
    ensures r.None? <==> Trim(st.name) == "" || Trim(st.description) == ""
    ensures r.Some? ==> (r.value.SavedEdit? <==> editing.Some?)
  {
    if Trim(st.name) == "" || Trim(st.description) == "" then None
    else if editing.Some? then
      Some(SavedEdit(editing.value.(
        name := Trim(st.name),
        description := Trim(st.description),
        icon := st.icon,
        systemPrompt := Trim(st.systemPrompt),
        responseBehavior := st.responseBehavior,
        allowedTools := st.allowedTools,
        publishedDepartments := Some(st.selectedDepartments),
        quickPrompts := Some(st.quickPrompts),
        isPublic := |st.selectedDepartments| > 0)))
    else
      Some(SavedNew(Draft(
        Trim(st.name), Trim(st.description), st.icon, Trim(st.systemPrompt),
        st.responseBehavior, st.allowedTools, st.selectedDepartments, st.quickPrompts,
        |st.selectedDepartments| > 0)))
  }

  /** What an accepted save carries: trimmed text fields, the icon untouched, the lists of
      the form, and "public" exactly when some department is selected. */
  lemma SavedFields(st: EditorState, editing: Option<Assistant>)
    requires SaveOf(st, editing).Some? && editing.None?
    ensures SaveOf(st, editing).value.draft ==
      Draft(Trim(st.name), Trim(st.description), st.icon, Trim(st.systemPrompt),
            st.responseBehavior, st.allowedTools, st.selectedDepartments, st.quickPrompts,
            |st.selectedDepartments| > 0)
    ensures SaveOf(st, editing).value.draft.name != ""
  {
  }

  /** Saving an edit keeps what the form does not show: the id, the author, the
      subscription count and the update time of the assistant being edited. */
  lemma SavedEditKeepsIdentity(st: EditorState, a: Assistant)
    requires SaveOf(st, Some(a)).Some?
    ensures SaveOf(st, Some(a)).value.assistant.id == a.id
    ensures SaveOf(st, Some(a)).value.assistant.createdBy == a.createdBy
    ensures SaveOf(st, Some(a)).value.assistant.subscriptionCount == a.subscriptionCount
    ensures SaveOf(st, Some(a)).value.assistant.updatedAt == a.updatedAt
    ensures SaveOf(st, Some(a)).value.assistant.isPublic <==> |st.selectedDepartments| > 0
    ensures SaveOf(st, Some(a)).value.assistant.name == Trim(st.name)
    ensures SaveOf(st, Some(a)).value.assistant.description == Trim(st.description)
    ensures SaveOf(st, Some(a)).value.assistant.systemPrompt == Trim(st.systemPrompt)
    ensures SaveOf(st, Some(a)).value.assistant.icon == st.icon
    ensures SaveOf(st, Some(a)).value.assistant.responseBehavior == st.responseBehavior
    ensures SaveOf(st, Some(a)).value.assistant.allowedTools == st.allowedTools
    ensures SaveOf(st, Some(a)).value.assistant.publishedDepartments == Some(st.selectedDepartments)
    ensures SaveOf(st, Some(a)).value.assistant.quickPrompts == Some(st.quickPrompts)
  {
  }

  /** Opening an assistant in the editor and saving it unchanged gives back the same
      record, provided it is already in the form the editor writes: trimmed, non-empty
      text, both optional lists present and "public" exactly when it has departments. */
  lemma OpenThenSaveIsIdentity(a: Assistant)
    requires Trim(a.name) == a.name && Trim(a.description) == a.description && a.name != "" && a.description != ""
    requires Trim(a.systemPrompt) == a.systemPrompt && a.systemPrompt != "" && a.icon != ""
    requires a.publishedDepartments.Some? && a.quickPrompts.Some?
    requires a.isPublic <==> |a.publishedDepartments.value| > 0
    ensures SaveOf(Initial(Some(a)), Some(a)) == Some(SavedEdit(a))
  {
    assert Trim("") == "";
  }

  /** Saving is stable: loading the saved record into the editor and saving again gives
      the same record. */
  lemma SaveTwiceIsSaveOnce(st: EditorState, a: Assistant)
    requires st.icon != "" && Trim(st.systemPrompt) != ""
    requires SaveOf(st, Some(a)).Some?
    ensures
      var b := SaveOf(st, Some(a)).value.assistant;
      SaveOf(Initial(Some(b)), Some(b)) == Some(SavedEdit(b))
  {
    TrimIdempotent(st.name);
    TrimIdempotent(st.description);
    TrimIdempotent(st.systemPrompt);
  }

  /** The export record: the saved fields without id, author or visibility. */
  datatype Exported = Exported(
    name: string,
    description: string,
    icon: string,
    systemPrompt: string,
    responseBehavior: ResponseBehavior,
    allowedTools: seq<string>,
    publishedDepartments: seq<string>,
    quickPrompts: seq<string>)

  /** The data the export serialises. Unlike the save it has no guard. */
  function ExportData(st: EditorState): (e: Exported)
    ensures e.name == Trim(st.name) && e.description == Trim(st.description)
    ensures e.systemPrompt == Trim(st.systemPrompt) && e.icon == st.icon
    ensures e.responseBehavior == st.responseBehavior && e.allowedTools == st.allowedTools
    ensures e.publishedDepartments == st.selectedDepartments && e.quickPrompts == st.quickPrompts
  {
    Exported(Trim(st.name), Trim(st.description), st.icon, Trim(st.systemPrompt),
             st.responseBehavior, st.allowedTools, st.selectedDepartments, st.quickPrompts)
  }

  /** Whenever the save of a new assistant is accepted, the export carries the same data: the
      draft is the export record plus the visibility flag. */
  lemma ExportAgreesWithSave(st: EditorState)
    requires SaveOf(st, None).Some?
    ensures
      var d := SaveOf(st, None).value.draft;
      var e := ExportData(st);
      d == Draft(e.name, e.description, e.icon, e.systemPrompt, e.responseBehavior,
                 e.allowedTools, e.publishedDepartments, e.quickPrompts, |e.publishedDepartments| > 0)
  {
  }

  /** The download name: the trimmed name, or "assistant" when it is blank, then ".json". */
  function ExportFileName(st: EditorState): (f: string)
    ensures |f| > 5 && f[|f| - 5..] == ".json"
    ensures Trim(st.name) != "" ==> f == Trim(st.name) + ".json"
    ensures Trim(st.name) == "" ==> f == "assistant.json"
  {
    var stem := Trim(st.name);
    (if stem != "" then stem else "assistant") + ".json"
  }

  // ---------------------------------------------------------------------------------------
  // Drag-to-reorder

  /** Two splices: take out the element at `from`, then insert it at index `to` of what is
      left, so that it ends up at `to`. */
  function Moved<T>(s: seq<T>, from: nat, to: nat): (r: seq<T>)
    requires from < |s| && to < |s|
    ensures |r| == |s| && r[to] == s[from]
    ensures multiset(r) == multiset(s)
    ensures DeleteAt(r, to) == DeleteAt(s, from)
  {
    var rest := s[..from] + s[from + 1..];
    assert s == s[..from] + [s[from]] + s[from + 1..];
    var r := rest[..to] + [s[from]] + rest[to..];
    assert rest == rest[..to] + rest[to..];
    assert multiset(r) == multiset(rest[..to]) + multiset([s[from]]) + multiset(rest[to..]);
    assert multiset(s) == multiset(s[..from]) + multiset([s[from]]) + multiset(s[from + 1..]);
    assert multiset(rest) == multiset(s[..from]) + multiset(s[from + 1..]);
    assert multiset(rest) == multiset(rest[..to]) + multiset(rest[to..]);
    assert multiset(r) == multiset(rest) + multiset([s[from]]);
    assert multiset(s) == multiset(rest) + multiset([s[from]]);
    assert r[..to] + r[to + 1..] == rest;
    r
  }

  /** Where each element of the moved list comes from. */
  lemma MovedAt<T>(s: seq<T>, from: nat, to: nat, j: nat)
    requires from < |s| && to < |s| && j < |s|
    ensures Moved(s, from, to)[j] ==
      if j == to then s[from]
      else if from < to && from <= j < to then s[j + 1]
      else if to < from && to < j <= from then s[j - 1]
      else s[j]
  {
    var rest := s[..from] + s[from + 1..];
    var r := Moved(s, from, to);
    assert r == rest[..to] + [s[from]] + rest[to..];
    if j < to {
      assert r[j] == rest[j];
      if j < from { assert rest[j] == s[j]; } else { assert rest[j] == s[j + 1]; }
    } else if j > to {
      assert r[j] == rest[j - 1];
      if j - 1 < from { assert rest[j - 1] == s[j - 1]; } else { assert rest[j - 1] == s[j]; }
    }
  }

  /** Dragging back undoes a move. */
  lemma MovedBack<T>(s: seq<T>, from: nat, to: nat)
    requires from < |s| && to < |s|
    ensures Moved(Moved(s, from, to), to, from) == s
  {
    var r := Moved(s, from, to);
    var b := Moved(r, to, from);
    forall j | 0 <= j < |s| ensures b[j] == s[j] {
      MovedAt(r, to, from, j);
      var k := if j == from then to
        else if to < from && to <= j < from then j + 1
        else if from < to && from < j <= to then j - 1
        else j;
      MovedAt(s, from, to, k);
    }
  }

  /** The first splice and the make-room step of the second, for a move towards the end:
      the elements after `src` up to `dst` move one place towards the front. */
  method ShiftDown<T>(a: array<T>, src: nat, dst: nat)
    requires src < dst < a.Length
    modifies a
    ensures forall j :: src <= j < dst ==> a[j] == old(a[j + 1])
    ensures forall j :: 0 <= j < a.Length && !(src <= j < dst) ==> a[j] == old(a[j])
  {
    for k := src to dst
      invariant forall j :: src <= j < k ==> a[j] == old(a[j + 1])
      invariant forall j :: 0 <= j < a.Length && !(src <= j < k) ==> a[j] == old(a[j])
    {
      a[k] := a[k + 1];
    }
  }

  /** The same for a move towards the front: the elements from `dst` up to before `src`
      move one place towards the end. */
  method ShiftUp<T>(a: array<T>, src: nat, dst: nat)
    requires dst < src < a.Length
    modifies a
    ensures forall j :: dst < j <= src ==> a[j] == old(a[j - 1])
    ensures forall j :: 0 <= j < a.Length && !(dst < j <= src) ==> a[j] == old(a[j])
  {
    var k := src;
    while k > dst
      invariant dst <= k <= src
      invariant forall j :: k < j <= src ==> a[j] == old(a[j - 1])
      invariant forall j :: 0 <= j < a.Length && !(k < j <= src) ==> a[j] == old(a[j])
    {
      a[k] := a[k - 1];
      k := k - 1;
    }
  }

  /** The two splices as they run on an array: the elements between the two positions
      shift by one and the dragged element lands at `dst`. */
  method MoveElement<T>(a: array<T>, src: nat, dst: nat)
    requires src < a.Length && dst < a.Length
    modifies a
    ensures a[..] == Moved(old(a[..]), src, dst)
  {
    ghost var s := a[..];
    var item := a[src];
    if src < dst {
      ShiftDown(a, src, dst);
    } else if dst < src {
      ShiftUp(a, src, dst);
    }
    a[dst] := item;
    forall j | 0 <= j < a.Length ensures a[j] == Moved(s, src, dst)[j] {
      MovedAt(s, src, dst, j);
    }
    assert a[..] == Moved(s, src, dst);
  }

  // ---------------------------------------------------------------------------------------
  // The editor component

  class Editor {
    /** The assistant being edited, or None for a new one. */
    const assistant: Option<Assistant>
    var name: string
    var description: string
    var icon: string
    var systemPrompt: string
    var responseBehavior: ResponseBehavior
    var allowedTools: seq<string>
    var selectedDepartments: seq<string>
    var quickPrompts: seq<string>
    var newQuickPrompt: string
    var draggedIndex: Option<nat>

    function State(): EditorState
      reads this
    {
      EditorState(name, description, icon, systemPrompt, responseBehavior, allowedTools,
                  selectedDepartments, quickPrompts, newQuickPrompt, draggedIndex)
    }

    /** A drag in progress refers to a prompt on screen. */
    ghost predicate Valid()
      reads this
    {
      draggedIndex.Some? ==> draggedIndex.value < |quickPrompts|
    }

    constructor (assistant: Option<Assistant>)
      ensures this.assistant == assistant
      ensures State() == Initial(assistant) && Valid()
    {
      this.assistant := assistant;
      var st := Initial(assistant);
      name, description, icon, systemPrompt := st.name, st.description, st.icon, st.systemPrompt;
      responseBehavior, allowedTools := st.responseBehavior, st.allowedTools;
      selectedDepartments, quickPrompts := st.selectedDepartments, st.quickPrompts;
      newQuickPrompt, draggedIndex := "", None;
    }

    /** handleToggleTool */
    method ToggleTool(toolId: string)
      modifies this
      ensures State() == old(State()).(allowedTools := Toggle(old(allowedTools), toolId))
    {
      allowedTools := if toolId in allowedTools then RemoveAll(allowedTools, toolId) else allowedTools + [toolId];
    }

    /** handleToggleDepartment, the per-node click of the department picker */
    method ToggleDepartment(departmentId: string)
      modifies this
      ensures State() == old(State()).(selectedDepartments := Toggle(old(selectedDepartments), departmentId))
    {
      selectedDepartments :=
        if departmentId in selectedDepartments then RemoveAll(selectedDepartments, departmentId)
        else selectedDepartments + [departmentId];
    }

    /** handleSelectionChange, the picker's select-all and deselect-all */
    method SelectionChange(ids: seq<string>)
      modifies this
      ensures State() == old(State()).(selectedDepartments := ids)
    {
      selectedDepartments := ids;
    }

    /** handleDragStart */
    method DragStart(index: nat)
      requires index < |quickPrompts|
      modifies this
      ensures State() == old(State()).(draggedIndex := Some(index)) && Valid()
    {
      draggedIndex := Some(index);
    }

    /** handleDragOver: nothing when no prompt is dragged or it is over itself; otherwise
        the dragged prompt moves to `index`, which becomes the dragged index. */
    method DragOver(index: nat)
      requires Valid() && index < |quickPrompts|
      modifies this
      ensures Valid()
      ensures old(draggedIndex).None? || old(draggedIndex) == Some(index) ==> State() == old(State())
      ensures old(draggedIndex).Some? && old(draggedIndex) != Some(index) ==>
        State() == old(State()).(quickPrompts := Moved(old(quickPrompts), old(draggedIndex).value, index),
                                 draggedIndex := Some(index))
    {
      if draggedIndex.None? || draggedIndex.value == index {
        return;
      }
      var d := draggedIndex.value;
      var newPrompts := new string[|quickPrompts|](j requires 0 <= j < |quickPrompts| reads this => quickPrompts[j]);
      assert newPrompts[..] == quickPrompts;
      MoveElement(newPrompts, d, index);
      quickPrompts := newPrompts[..];
      draggedIndex := Some(index);
    }

    /** handleDragEnd */
    method DragEnd()
      modifies this
      ensures State() == old(State()).(draggedIndex := None) && Valid()
    {
      draggedIndex := None;
    }

    /** The add button and the Enter key of the quick-prompt input: a non-blank input is
        appended trimmed and the input cleared; a blank one changes nothing. */
    method AddQuickPrompt()
      requires Valid()
      modifies this
      ensures Valid()
      ensures Trim(old(newQuickPrompt)) == "" ==> State() == old(State())
      ensures Trim(old(newQuickPrompt)) != "" ==>
        State() == old(State()).(quickPrompts := old(quickPrompts) + [Trim(old(newQuickPrompt))], newQuickPrompt := "")
    {
      var t := Trim(newQuickPrompt);
      if t != "" {
        quickPrompts := quickPrompts + [t];
        newQuickPrompt := "";
      }
    }

    /** Typing into the quick-prompt input. */
    method SetNewQuickPrompt(text: string)
      modifies this
      ensures State() == old(State()).(newQuickPrompt := text)
    {
      newQuickPrompt := text;
    }

    /** Typing into the input of the prompt at `index`: that prompt alone changes. */
    method EditQuickPrompt(index: nat, text: string)
      requires Valid() && index < |quickPrompts|
      modifies this
      ensures Valid()
      ensures State() == old(State()).(quickPrompts := old(quickPrompts)[index := text])
    {
      quickPrompts := quickPrompts[index := text];
    }

    /** The delete button of the prompt at `index`: exactly that prompt goes. */
    method DeleteQuickPrompt(index: nat)
      requires index < |quickPrompts|
      modifies this
      ensures State() == old(State()).(quickPrompts := DeleteAt(old(quickPrompts), index))
    {
      quickPrompts := DeleteAt(quickPrompts, index);
    }
  }
}
