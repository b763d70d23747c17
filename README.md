# mockgpt client logic in Dafny

mockgpt is a front-end-only mock of an internal chat assistant platform. It has a chat
window with a simulated model reply, a catalog of assistants, an assistant editor with a
department picker, a secure ("private") mode gate, and a small translation table. This
project models the client-side data logic behind those screens and proves what that
logic promises. The React rendering is left out.

One module per source file:

| module | file | form |
|---|---|---|
| `Types` | `types.dfy` | the records of `src/types.ts` as datatypes; optional properties as `Option` |
| `Strings` | `strings.dfy` | `slice(0, n)`, `includes`, `toLowerCase`, `trim` as functions with contracts |
| `Lists` | `lists.dfy` | `filter`, `findIndex`, the include-or-remove toggle, index delete and `new Set` de-duplication, with their lemmas |
| `App` | `app.dfy` | the state controller of `src/App.tsx`, as class `Controller` with a storage map; list operations as functions |
| `Discovery` | `discovery.dfy` | the catalog page of `AssistantDiscovery.tsx`: tool-name formatting, the colour table, and the filter-then-sort pipeline |
| `DepartmentTree` | `department_tree.dfy` | the tree search filter and id collection of `DepartmentTree.tsx`, as recursive functions plus the loop methods that build them; picker state as class `Picker` |
| `AssistantEditor` | `assistant_editor.dfy` | the form of `AssistantEditor.tsx`: a pure save and export rule; the drag reorder as an in-place array method; form state as class `Editor` |
| `ChatWindow` | `chat_window.dfy` | the model list, the secure-mode coupling and the settings fallbacks of `ChatWindow.tsx`; view state as class `ChatView` |
| `I18n` | `i18n.dfy` | the tables, the lookup `t` with its two fallbacks, and the language kept in memory and storage (class `Translator`) |

Main modelling choices:

- **Browser storage.** In `App`, `localStorage` is a `map<string, Stored>`. The JSON text
  of a list is represented by the list it encodes (`ChatsJson`, `AssistantsJson`,
  `IdsJson`), and every other string is `Text`. The invariant `Controller.Valid()` says the
  lists in memory are the lists in storage. Every handler keeps it, because every handler
  writes through. `I18n` keeps its own `map<string, string>`, since it only uses the key
  `"language"`.
- **Timers.** Each simulated reply runs in a timer. It is modelled in two steps. The handler
  (`StartChat` or `SendMessage`) returns a `PendingReply`, which holds what the timer closure
  captured. `CompleteReply` later runs the timer body on that snapshot. The snapshot holds the
  chat list as it was at the call, and the reply merges into that list. So
  `LateReplyStoresCapturedList` proves that a late reply always writes its chat back, even
  one deleted in the meantime. It also proves that every other stored chat is one of the
  captured ones.
- **Parameters.** Ids and timestamps (`Date.now()`, `new Date().toISOString()`) are
  parameters, one clock reading per handler. So are the built-in assistant catalogs
  (`recommended`, `community`), the collation rank used by the title sort, and the date
  parse used by the "updated" sort.
- **Sorting.** The catalog sort is specified as a stable insertion sort on an integer key.
  It is proved sorted, a permutation of its input, and stable.
- **Department tree.** `filterDepartments` and `getAllIds` accumulate into an array with
  `reduce`/`push`, so each gets a loop method proved equal to a recursive function. The
  recursive function is then related to independent definitions: the preorder node list,
  and the subtree-match and pruning view of the filter.
- **Drag reorder.** `handleDragOver` copies the quick prompts and splices twice. It becomes
  `MoveElement` on an array, proved equal to the pure `Moved`. `Moved` is shown to be a
  permutation, reversible, and equal to the source's remove-then-insert.

In these places the code does something a reader might not expect; the model follows the
code:

- A reply looks its assistant up among the user's assistants, then the recommended ones,
  and never among community assistants (`src/App.tsx:139-140`). The chat window looks in
  the merged catalog (`src/App.tsx:341`). `CommunityAssistantUnknownToReply` shows the
  difference.
- The behaviour named in a reply prefers the assistant's setting over the chat's
  (`src/App.tsx:145`). The settings dialog prefers the chat's
  (`src/components/ChatWindow.tsx:46-48`). `SettingsAndReplyCanDisagree` shows that they
  can name different behaviours.
- `handleCreateAssistant` always stores `isPublic = false`, whatever the editor computed
  (`src/App.tsx:184`).
- A department whose name matches the search does not always keep all its children. It
  keeps its original children only when none of them survives the filter. Otherwise it
  keeps the filtered ones (`src/components/DepartmentTree.tsx:41`). See
  `NameMatchChildren` and `NameMatchCanDropChildren`.
- Toggling an id twice gives back the list only when the id was absent to begin with.
  When it was present, it moves to the end (`ToggleTwicePresent`, `ToggleTwiceReorders`).
- The stored language is not checked against the six languages (`src/i18n.ts:430-433`).
  An unknown stored value becomes the current language at load, and then a lookup without
  an explicit language fails (`UnknownStoredLanguageBreaksLookup`), except for a stored
  value that names a member every JavaScript object inherits, which is not modelled (see
  "Left out").

## Model

| member | source | states |
|---|---|---|
| `Strings.Slice` | src/App.tsx:79 | the first n characters, or all when shorter; empty exactly when the input is empty or n is 0 |
| `Strings.Contains` | src/components/DepartmentTree.tsx:35 | true exactly when the query occurs at some position of the text |
| `Strings.Lower` | src/components/DepartmentTree.tsx:35 | same length, each character mapped to its lower case |
| `Strings.Trim` | src/components/AssistantEditor.tsx:126-129 | the input with a blank prefix and a blank suffix removed, no longer than it, with no white space at either end; empty exactly when the input is blank |
| `Strings.TrimIdempotent` | src/components/AssistantEditor.tsx:132-135 | trimming a trimmed string changes nothing |
| `Lists.Filter` | src/App.tsx:235 | an element is in the result exactly when it is in the input and passes; never longer; the input itself when everything passes |
| `Lists.FilterCount` | src/components/AssistantDiscovery.tsx:88-101 | every passing element keeps its count and every failing element is gone (as multisets) |
| `Lists.FilterKeepsNoDup` | src/App.tsx:214 | filtering a duplicate-free list leaves it duplicate-free |
| `Lists.RemoveAll` | src/App.tsx:214 | the list without any copy of the value: membership, length bound, multiset, and the list unchanged when the value is absent |
| `Lists.FindIndex` | src/App.tsx:156 | the first index whose element passes, or -1 exactly when none does |
| `Lists.Toggle` | src/App.tsx:222-224 | membership of the value flips, every other value keeps its membership; appended at the end when absent; multiset loses the value when present |
| `Lists.ToggleKeepsNoDup` | src/App.tsx:222-224 | toggling keeps a duplicate-free list duplicate-free |
| `Lists.ToggleTwiceAbsent` | src/components/AssistantEditor.tsx:63-67 | adding then removing an absent id gives back the exact list |
| `Lists.ToggleTwicePresent` | src/components/AssistantEditor.tsx:63-67 | removing then re-adding a present id keeps every membership but moves the id to the end |
| `Lists.ToggleTwiceReorders` | src/components/DepartmentTree.tsx:21-25 | counterexample: toggling x twice turns [x, y] into [y, x] |
| `Lists.DeleteAt` | src/components/AssistantEditor.tsx:491 | removes exactly the element at index k: elements before k stay, elements after shift down by one, the multiset loses one copy; unchanged when k is out of range |
| `Lists.Dedup` | src/components/DepartmentTree.tsx:120 | same members as the input, no duplicates, never longer |
| `Lists.DedupOfNoDup` | src/components/DepartmentTree.tsx:120 | a duplicate-free list is its own de-duplication |
| `Lists.DedupAppendPresent` | src/components/DepartmentTree.tsx:120 | appending values that are already present adds nothing |
| `Lists.DedupPrefix` | src/components/DepartmentTree.tsx:120 | de-duplicating a longer list only appends to the result for its prefix |
| `App.LoadChats` | src/App.tsx:31-34 | the empty list when nothing is stored; otherwise a list exactly when the stored value is a chat list |
| `App.LoadAssistants` | src/App.tsx:27-30 | as for chats, under "assistants" |
| `App.LoadFavorites` | src/App.tsx:37-40 | as for chats, under "favorites" |
| `App.StoreChats` | src/App.tsx:108-110 | what a handler writes under "chats" is what the next load reads, and the other two lists load as before |
| `App.StoreAssistants` | src/App.tsx:188-190 | the same for "assistants" |
| `App.StoreFavorites` | src/App.tsx:225-226 | the same for "favorites" |
| `App.FlagKeepsLists` | src/App.tsx:267-268 | writing a flag under any other key leaves all three lists as they load |
| `App.StartTitle` | src/App.tsx:79 | never empty; the first 50 characters of a non-empty message, otherwise "Chat with " and the assistant's name or "Assistant" |
| `App.GreetingText` | src/App.tsx:101-103 | the greeting of a new chat: an introduction by name and description when the assistant has a system prompt, else the plain greeting |
| `App.GreetingIntroducesAssistant` | src/App.tsx:101-103 | with a system prompt the greeting contains the assistant's name and description; without one it is "Hello! How can I help you today?" |
| `App.SimulatedText` | src/App.tsx:145 | the stand-in reply: the assistant's name, the secure-mode label in private mode, the behaviour label |
| `App.SimulatedTextNamesAssistant` | src/App.tsx:145 | the reply opens with "This is a simulated response from ", the assistant's name or "the assistant", and ". " |
| `App.SimulatedTextEndsWithBehavior` | src/App.tsx:145 | the reply ends with the behaviour label and ")." |
| `App.SecureReplyIsMarked` | src/App.tsx:145 | a reply sent in private mode contains "[SECURE MODE: LOGGING DISABLED]" |
| `App.NewChat` | src/App.tsx:77-93 | the given id and derived title, the assistant's id, one user message exactly when the message is non-empty, both timestamps now, no model or settings |
| `App.SendUpdate` | src/App.tsx:128-133 | the user message appended as the last element and the old messages kept; a non-empty title kept, an empty one replaced by the content's first 50 characters; nothing but messages, updatedAt and title changed |
| `App.FindAssistant` | src/App.tsx:341 | nothing without an id; otherwise the first assistant with the id, and none exactly when no entry has it |
| `App.FindAssistantConcat` | src/App.tsx:139-140 | looking in a concatenation looks in the first part, then in the second |
| `App.ReplyAssistant` | src/App.tsx:139-140 | the user's assistant with the id when there is one, else the recommended one; the result always comes from one of those two lists |
| `App.BehaviorLabel` | src/App.tsx:145 | one of the three behaviour names: the assistant's when there is an assistant, else the chat's, else "balanced" |
| `App.FinalChat` | src/App.tsx:149-152 | exactly one message appended after the existing ones, and nothing else changed |
| `App.ChatIndex` | src/App.tsx:156 | the first index holding the id, or -1 exactly when no chat has it |
| `App.ChatIndexAt` | src/App.tsx:156 | the first index that holds the id is the index found |
| `App.MergeReply` | src/App.tsx:156-162 | the chat replaces the first entry with its id, and all other entries stay, or it is put in front when no entry has its id; the length grows by at most one; the chat is then found at its index |
| `App.MergedChats` | src/App.tsx:106-109 | a greeting puts its chat in front of the captured list; a simulated reply merges it into the captured list |
| `App.MergeCaptured` | src/App.tsx:157-162 | the copy-then-assign-or-unshift of the timer bodies builds exactly `MergedChats` |
| `App.WithoutChat` | src/App.tsx:235 | every chat with the id removed and all others kept; unchanged when no chat has the id |
| `App.NewAssistant` | src/App.tsx:180-187 | the draft's fields with the given id, author "user", not public whatever the draft says, subscription count 0 and update time now |
| `App.ApplyUpdate` | src/App.tsx:200-202 | same length; entries with the id replaced by the stamped update, all others untouched |
| `App.ApplyUpdateKeepsIds` | src/App.tsx:200-202 | updating keeps the id list, so ids stay distinct when they were |
| `App.WithoutAssistant` | src/App.tsx:208 | every assistant with the id removed and all others kept |
| `App.Controller.constructor` | src/App.tsx:19-59 | the lists loaded from storage, the terms dialog shown unless accepted, the version view on "/version", no current chat, not private; storage and memory agree |
| `App.Controller.Valid` | src/App.tsx:27-40 | the invariant every handler keeps: reading the three lists back from storage gives the lists in memory |
| `App.Controller.AllAssistants` | src/App.tsx:244 | recommended, then community, then the user's: every entry of the three and nothing else |
| `App.Controller.ChatWindowAssistant` | src/App.tsx:341 | the lookup in the merged catalog: a recommended match wins, then a community match, then the user's |
| `App.Controller.CurrentScreen` | src/App.tsx:325-384 | the chat screen exactly when the view is chat and a chat is current; the home page exactly when the view is home and no chat is current; blank for the two other combinations |
| `App.Controller.AcceptTerms` | src/App.tsx:61-64 | the acceptance is stored and the dialog closes; nothing else changes |
| `App.Controller.OpenTerms` | src/App.tsx:333 | the terms dialog opens; nothing else changes |
| `App.Controller.CloseTerms` | src/App.tsx:412-418 | the dialog closes only when the terms were already accepted; otherwise nothing changes |
| `App.Controller.NavigateToVersion` | src/App.tsx:66-69 | the view becomes version; nothing else changes |
| `App.Controller.NavigateHome` | src/App.tsx:71-74 | the view becomes home; nothing else changes |
| `App.Controller.SidebarHome` | src/App.tsx:290-293 | view home and no current chat, so the home page shows |
| `App.Controller.OpenDiscovery` | src/App.tsx:294-295 | the view becomes discovery; nothing else changes |
| `App.Controller.StartChat` | src/App.tsx:76-116 | the new chat becomes current in the chat view; the chat list and storage do not change; a greeting is pending exactly when the message is non-empty |
| `App.Controller.SendMessage` | src/App.tsx:118-137 | nothing without a current chat; otherwise only the current chat changes, by `SendUpdate`, and a reply is pending with the assistants, chats and private mode of the call |
| `App.Controller.CompleteReply` | src/App.tsx:97-111 | the captured chat plus the reply becomes current; the list merged from the captured one becomes the chats and is stored; nothing else changes |
| `App.Controller.UpdateChat` | src/App.tsx:168-177 | the chat always becomes current; the list and storage change, at the first index with the id, only when it is there |
| `App.Controller.RenameChat` | src/App.tsx:305-315 | nothing for an unknown id; otherwise only that chat's title changes, it is stored, and the current chat follows when it has the id |
| `App.Controller.DeleteChat` | src/App.tsx:234-242 | every chat with the id is removed and stored; the current chat is cleared and the home view opened only when it was the deleted one |
| `App.Controller.SelectChat` | src/App.tsx:229-232 | the chat becomes current in the chat view |
| `App.Controller.CreateAssistant` | src/App.tsx:179-192 | one new assistant appended and stored; the discovery view opens |
| `App.Controller.EditAssistant` | src/App.tsx:194-197 | the assistant is being edited and the editor opens |
| `App.Controller.CreateNew` | src/App.tsx:359-362 | nothing is being edited and the editor opens |
| `App.Controller.UpdateAssistant` | src/App.tsx:199-205 | the list becomes `ApplyUpdate` of it and is stored; nothing else changes |
| `App.Controller.SaveFromEditor` | src/App.tsx:371-377 | an edited record updates and a draft creates |
| `App.Controller.DeleteAssistant` | src/App.tsx:207-218 | every assistant with the id is removed and stored; the favourites lose the id and are written only when they held it |
| `App.Controller.ToggleFavorite` | src/App.tsx:221-227 | the favourites become their toggle and are stored; the id is a favourite afterwards exactly when it was not before |
| `App.Controller.EnableSecureMode` | src/App.tsx:255-265 | nothing when already private; the intro dialog, and still not private, when the intro flag is not stored; otherwise private |
| `App.Controller.ConfirmSecureMode` | src/App.tsx:267-271 | the intro is stored as seen, the dialog closes and private mode is on |
| `App.Controller.TogglePrivateMode` | src/App.tsx:247-253 | leaving private mode is unconditional; entering it goes through the gate of `EnableSecureMode` |
| `App.ConfirmedIntroIsSeen` | src/App.tsx:259-264 | once confirmed, the intro flag is set, so the gate goes private with no dialog |
| `App.CommunityAssistantUnknownToReply` | src/App.tsx:139-140 | an assistant found only in the community catalog is shown by the chat window but unknown to the reply |
| `App.LateReplyStoresCapturedList` | src/App.tsx:156-164 | a reply stores its chat, even one deleted meanwhile, and otherwise only chats from the list captured at the call |
| `Discovery.SplitOn` | src/components/AssistantDiscovery.tsx:19 | at least one piece, and no piece contains the separator |
| `Discovery.JoinSplit` | src/components/AssistantDiscovery.tsx:18-21 | joining the pieces of a split with the separator gives back the string |
| `Discovery.SplitJoin` | src/components/AssistantDiscovery.tsx:18-21 | splitting a join of separator-free pieces gives back the pieces |
| `Discovery.CapitalizeAll` | src/components/AssistantDiscovery.tsx:20 | every word capitalised, in place |
| `Discovery.Formatted` | src/components/AssistantDiscovery.tsx:17-22 | the character-by-character form of the formatting: same length, each character its formatted counterpart |
| `Discovery.FormattedIsJoin` | src/components/AssistantDiscovery.tsx:17-22 | the split, capitalise and join chain equals the character-by-character form |
| `Discovery.FormatToolNameChars` | src/components/AssistantDiscovery.tsx:17-22 | `formatToolName` keeps the length, turns each `_` into a space and upper-cases the first character and each one after a `_` |
| `Discovery.FormatToolName` | src/components/AssistantDiscovery.tsx:17-22 | `formatToolName`: split on `_`, capitalise each piece, join with spaces; its meaning is stated by `FormatToolNameChars` and `FormatCodeInterpreter` |
| `Discovery.FormatCodeInterpreter` | src/components/AssistantDiscovery.tsx:17-22 | "code_interpreter" becomes "Code Interpreter" |
| `Discovery.ToolColor` | src/components/AssistantDiscovery.tsx:25-36 | the table's entry for a known id, the gray default for any other |
| `Discovery.ToolColorKeysAreHyphenated` | src/components/AssistantDiscovery.tsx:26-34 | every key of the colour table has a hyphen and no underscore |
| `Discovery.UnderscoreIdIsGray` | src/components/AssistantDiscovery.tsx:25-36 | an id with an underscore is always shown gray |
| `Discovery.Sort` | src/components/AssistantDiscovery.tsx:102-111 | sorted by the key and a permutation of the input |
| `Discovery.SortStable` | src/components/AssistantDiscovery.tsx:102-111 | the elements with any one key keep their input order |
| `Discovery.VisibleContents` | src/components/AssistantDiscovery.tsx:88-101 | the list shown never adds entries: each kept assistant as often as in the catalog, each other one not at all; shown exactly when in the tab and matching the query |
| `Discovery.VisibleOrder` | src/components/AssistantDiscovery.tsx:102-111 | subscriptions non-increasing (missing as 0), update times non-increasing (missing as 0), or titles in collation order |
| `Discovery.VisibleTiesKeepOrder` | src/components/AssistantDiscovery.tsx:102-111 | assistants that tie under the sort stay in catalog order |
| `Discovery.Visible` | src/components/AssistantDiscovery.tsx:88-111 | the list shown, sorted by the chosen key; its contents are stated by `VisibleContents`, its order by `VisibleOrder` and `VisibleTiesKeepOrder` |
| `Discovery.InitialPageShowsFavorites` | src/components/AssistantDiscovery.tsx:48-51 | the page opens on the favourites tab sorted by subscriptions: with an empty query it shows exactly the favourite assistants, by non-increasing subscription count |
| `Discovery.InTab` | src/components/AssistantDiscovery.tsx:89-91 | the tab condition: everything, only the system's, only the user's, only the favourites (stated by `TabMeaning`) |
| `Discovery.MatchesQuery` | src/components/AssistantDiscovery.tsx:93-101 | an empty query matches; otherwise the lower-cased query occurs in the lower-cased name, description or a formatted tool name |
| `Discovery.TabMeaning` | src/components/AssistantDiscovery.tsx:89-91 | "all" keeps everything, "recommended" exactly the system's, "yours" exactly the user's, "favorites" exactly the favourite ids |
| `Discovery.CanManage` | src/components/AssistantDiscovery.tsx:363 | edit and delete are offered exactly when some user assistant has the selected id |
| `DepartmentTree.Nodes` | src/components/DepartmentTree.tsx:106-114 | the preorder node list contains every top-level department |
| `DepartmentTree.NodesSize` | src/components/DepartmentTree.tsx:106-114 | the node list has one entry per node of the forest |
| `DepartmentTree.AllIdsArePreorder` | src/components/DepartmentTree.tsx:106-114 | the collected ids are the ids of the preorder node list |
| `DepartmentTree.AllIdsCount` | src/components/DepartmentTree.tsx:106-114 | as many ids as nodes |
| `DepartmentTree.AllIds` | src/components/DepartmentTree.tsx:106-114 | `getAllIds` as a recursive function: a node's id, its subtree's ids, then its later siblings' |
| `DepartmentTree.AllIdsHasEveryNode` | src/components/DepartmentTree.tsx:106-114 | every node of the forest, at any depth, has its id collected |
| `DepartmentTree.AllIdsAppend` | src/components/DepartmentTree.tsx:107-113 | collecting over a concatenation concatenates the results |
| `DepartmentTree.GetAllIds` | src/components/DepartmentTree.tsx:106-114 | the reduce-and-push loop computes exactly the preorder ids |
| `DepartmentTree.Filtered` | src/components/DepartmentTree.tsx:30-46 | the input itself for an empty query; never more departments than the input |
| `DepartmentTree.FilteredAppend` | src/components/DepartmentTree.tsx:34-45 | the filter works department by department, in order |
| `DepartmentTree.FilterDepartments` | src/components/DepartmentTree.tsx:30-46 | the reduce-and-push loop computes exactly `Filtered` |
| `DepartmentTree.PrunedAll` | src/components/DepartmentTree.tsx:39-42 | each survivor replaced by its pruned copy, in place |
| `DepartmentTree.FilteredIsPrunedSurvivors` | src/components/DepartmentTree.tsx:34-45 | for a non-empty query, the filter keeps exactly the surviving departments, in order, each pruned |
| `DepartmentTree.PrunedKeepsIdentity` | src/components/DepartmentTree.tsx:39-42 | a kept department keeps its id and name, and is unchanged when no child survives |
| `DepartmentTree.FilteredNonEmpty` | src/components/DepartmentTree.tsx:34-45 | the result is non-empty exactly when some node of the forest matches |
| `DepartmentTree.SurvivesIffSubtreeMatches` | src/components/DepartmentTree.tsx:35-38 | a department is kept exactly when some node of its subtree matches |
| `DepartmentTree.FilteredIdsAreForestIds` | src/components/DepartmentTree.tsx:30-46 | the filter never invents ids |
| `DepartmentTree.FilteredKeepsMatches` | src/components/DepartmentTree.tsx:30-46 | every matching node's id is in the filtered forest |
| `DepartmentTree.NameMatchChildren` | src/components/DepartmentTree.tsx:39-42 | a matching department survives; it keeps its original children when none survives, otherwise it gets the filtered children |
| `DepartmentTree.NameMatchCanDropChildren` | src/components/DepartmentTree.tsx:39-42 | a matching department with a surviving child and a non-surviving child loses children |
| `DepartmentTree.SearchingRendersAll` | src/components/DepartmentTree.tsx:56-100 | while searching every id of the displayed forest is on screen |
| `DepartmentTree.RenderedAreIds` | src/components/DepartmentTree.tsx:58-100 | only ids of the displayed forest are on screen |
| `DepartmentTree.MergeSelection` | src/components/DepartmentTree.tsx:120 | no duplicates; exactly the union of the selection and the ids |
| `DepartmentTree.MergeKeepsSelectionFirst` | src/components/DepartmentTree.tsx:120 | a duplicate-free selection comes first, unchanged |
| `DepartmentTree.MergeIdempotent` | src/components/DepartmentTree.tsx:116-121 | selecting all twice gives what selecting all once gives |
| `DepartmentTree.Picker.constructor` | src/components/DepartmentTree.tsx:18-19 | nothing expanded and no query |
| `DepartmentTree.Picker.Displayed` | src/components/DepartmentTree.tsx:54 | the forest itself without a query, the filtered forest with one |
| `DepartmentTree.Picker.IsExpanded` | src/components/DepartmentTree.tsx:56-61 | always expanded while searching; otherwise exactly when expanded by hand |
| `DepartmentTree.Picker.SetSearchQuery` | src/components/DepartmentTree.tsx:152 | the query changes, the expanded list does not |
| `DepartmentTree.Picker.ToggleExpanded` | src/components/DepartmentTree.tsx:21-25 | the expanded list becomes its toggle; the query is unchanged |
| `DepartmentTree.Picker.SelectAll` | src/components/DepartmentTree.tsx:116-132 | the merge of the selection with all ids of the displayed forest |
| `DepartmentTree.Picker.DeselectAll` | src/components/DepartmentTree.tsx:134-138 | the empty selection |
| `DepartmentTree.SelectAllWhileSearching` | src/components/DepartmentTree.tsx:116-120 | while searching, select-all adds exactly the ids on screen, and every matching node |
| `AssistantEditor.EditorToolsAreGray` | src/components/AssistantEditor.tsx:14-21 | none of the editor's tool ids is in the catalog's colour table, so all are shown gray |
| `AssistantEditor.ListOrEmpty` | src/components/AssistantEditor.tsx:46-51 | the list when present, else empty |
| `AssistantEditor.Initial` | src/components/AssistantEditor.tsx:32-53 | the defaults for a new assistant; when editing, the assistant's name, description, behaviour and tools, its icon and prompt unless empty (then the defaults), its departments and quick prompts or the empty list when absent; icon and prompt never empty; no new prompt text and nothing dragged |
| `AssistantEditor.SaveOf` | src/components/AssistantEditor.tsx:125-151 | refused exactly when the trimmed name or description is empty; an edit exactly when editing |
| `AssistantEditor.SavedFields` | src/components/AssistantEditor.tsx:131-149 | a new draft has trimmed name, description and prompt, the untrimmed icon, the form's lists, and is public exactly when a department is selected |
| `AssistantEditor.SavedEditKeepsIdentity` | src/components/AssistantEditor.tsx:131-147 | an edit keeps id, author, subscription count and update time; takes the trimmed name, description and prompt, the icon, behaviour, tools, departments and quick prompts from the form; public exactly when a department is selected |
| `AssistantEditor.OpenThenSaveIsIdentity` | src/components/AssistantEditor.tsx:32-147 | opening an assistant already in the saved form and saving it unchanged gives back the same record |
| `AssistantEditor.SaveTwiceIsSaveOnce` | src/components/AssistantEditor.tsx:131-147 | reopening a saved record and saving again gives the same record |
| `AssistantEditor.ExportData` | src/components/AssistantEditor.tsx:153-163 | trimmed name, description and prompt; the icon, behaviour, tools, departments and quick prompts as in the form |
| `AssistantEditor.ExportAgreesWithSave` | src/components/AssistantEditor.tsx:153-163 | an accepted new-assistant save is the export record plus the visibility flag |
| `AssistantEditor.ExportFileName` | src/components/AssistantEditor.tsx:170 | ends in ".json"; the trimmed name, or "assistant" when it is blank |
| `AssistantEditor.Moved` | src/components/AssistantEditor.tsx:112-115 | same length, the element now at the target, a permutation, and removing it there equals removing it at the source |
| `AssistantEditor.MovedAt` | src/components/AssistantEditor.tsx:112-115 | where each element comes from: the range between source and target shifts by one, the rest stays |
| `AssistantEditor.MovedBack` | src/components/AssistantEditor.tsx:112-115 | moving back undoes a move |
| `AssistantEditor.ShiftDown` | src/components/AssistantEditor.tsx:114-115 | the elements between source and target move down by one in place, all others stay |
| `AssistantEditor.ShiftUp` | src/components/AssistantEditor.tsx:114-115 | the elements between target and source move up by one in place, all others stay |
| `AssistantEditor.MoveElement` | src/components/AssistantEditor.tsx:112-115 | the in-place splices leave the array equal to `Moved` of its old contents |
| `AssistantEditor.Editor.constructor` | src/components/AssistantEditor.tsx:32-53 | the form starts in the `Initial` state |
| `AssistantEditor.Editor.ToggleTool` | src/components/AssistantEditor.tsx:63-67 | only the tools change, to their toggle |
| `AssistantEditor.Editor.ToggleDepartment` | src/components/AssistantEditor.tsx:92-98 | only the selected departments change, to their toggle |
| `AssistantEditor.Editor.SelectionChange` | src/components/AssistantEditor.tsx:100-102 | the selection becomes the given ids |
| `AssistantEditor.Editor.DragStart` | src/components/AssistantEditor.tsx:104-106 | the index becomes the dragged one |
| `AssistantEditor.Editor.DragOver` | src/components/AssistantEditor.tsx:108-119 | nothing when nothing is dragged or over itself; otherwise the dragged prompt moves to the index, which becomes the dragged one |
| `AssistantEditor.Editor.DragEnd` | src/components/AssistantEditor.tsx:121-123 | nothing is dragged |
| `AssistantEditor.Editor.AddQuickPrompt` | src/components/AssistantEditor.tsx:509-524 | a non-blank input is appended trimmed and cleared; a blank one changes nothing |
| `AssistantEditor.Editor.SetNewQuickPrompt` | src/components/AssistantEditor.tsx:508 | only the input text changes |
| `AssistantEditor.Editor.EditQuickPrompt` | src/components/AssistantEditor.tsx:482-486 | only the prompt at the index changes |
| `AssistantEditor.Editor.DeleteQuickPrompt` | src/components/AssistantEditor.tsx:490-492 | exactly the prompt at the index is removed |
| `ChatWindow.LLMModels` | src/components/ChatWindow.tsx:21-35 | all six models outside private mode; in private mode exactly the ones allowed there |
| `ChatWindow.PrivateModels` | src/components/ChatWindow.tsx:31-33 | in private mode the list is the last two models, in order |
| `ChatWindow.PrivateModelIds` | src/components/ChatWindow.tsx:27-33 | in private mode the ids are "llama-3-70b" and "mistral-large" |
| `ChatWindow.PublicModelIds` | src/components/ChatWindow.tsx:22-34 | outside private mode the ids are the six, in declared order |
| `ChatWindow.SelectedModel` | src/components/ChatWindow.tsx:72 | a listed model with the id, or none exactly when no listed model has it |
| `ChatWindow.AsksForSecureModeIff` | src/components/ChatWindow.tsx:72-77 | choosing a model asks for secure mode exactly when not private and the id is one of the two private models |
| `ChatWindow.AsksForSecureMode` | src/components/ChatWindow.tsx:72-77 | the model choice asks for secure mode when the found model allows private use and the view is not private (stated by `AsksForSecureModeIff`) |
| `ChatWindow.InitialModel` | src/components/ChatWindow.tsx:45 | the chat's model when set, else "gpt-4" |
| `ChatWindow.InitialBehavior` | src/components/ChatWindow.tsx:46-48 | the chat's behaviour, else the assistant's, else balanced |
| `ChatWindow.InitialSystemPrompt` | src/components/ChatWindow.tsx:49-51 | never empty: the chat's prompt, else the assistant's, else the default |
| `ChatWindow.SettingsAndReplyCanDisagree` | src/components/ChatWindow.tsx:46-48 | the dialog can show "precise" while the reply names "creative" |
| `ChatWindow.ChatView.constructor` | src/components/ChatWindow.tsx:42-51 | empty input, menus closed, and the three initial settings |
| `ChatWindow.ChatView.SetInput` | src/components/ChatWindow.tsx:410 | only the input changes |
| `ChatWindow.ChatView.HandleSubmit` | src/components/ChatWindow.tsx:62-68 | the trimmed input is sent and the input cleared exactly when it is non-blank; otherwise nothing is sent or changed |
| `ChatWindow.ChatView.HandleLLMChange` | src/components/ChatWindow.tsx:70-84 | asks for secure mode exactly as `AsksForSecureMode`; the chat sent up differs only in its model; the model is selected and the menu closes |
| `ChatWindow.ChatView.SetBehavior` | src/components/ChatWindow.tsx:253 | only the chosen behaviour changes |
| `ChatWindow.ChatView.SetSystemPrompt` | src/components/ChatWindow.tsx:283 | only the prompt text changes |
| `ChatWindow.ChatView.OpenSettings` | src/components/ChatWindow.tsx:224 | the settings dialog opens |
| `ChatWindow.ChatView.HandleSaveSettings` | src/components/ChatWindow.tsx:86-95 | the chat sent up differs only in behaviour and prompt, set to the dialog's values; the dialog closes |
| `ChatWindow.SaveUntouchedSettings` | src/components/ChatWindow.tsx:86-95 | saving untouched settings of a chat that has both gives back the chat |
| `I18n.Loaded` | src/i18n.ts:420-423 | a table for exactly the six languages; Spanish, French, Italian and Portuguese are English |
| `I18n.TargetLanguage` | src/i18n.ts:436 | the given language when non-empty, the current one when none is given |
| `I18n.Translate` | src/i18n.ts:435-438 | fails exactly when the language has no table; otherwise never empty unless the key is, and the language's own text when it has one |
| `I18n.TranslateFallbacks` | src/i18n.ts:435-438 | a missing entry falls back to English, and failing that to the key |
| `I18n.CopiesTranslateAsEnglish` | src/i18n.ts:420-423 | the four copied languages translate every key as English does |
| `I18n.LanguagesTranslate` | src/i18n.ts:420-438 | the lookup never fails for the six languages |
| `I18n.GermanFallsBackToEnglish` | src/i18n.ts:229-233 | German "home" is its own, "deleteChat" is the English "Delete Chat" |
| `I18n.StoredLanguage` | src/i18n.ts:430-433 | the stored text when non-empty, "en" when nothing or the empty text is stored; never empty |
| `I18n.StoreThenRead` | src/i18n.ts:425-433 | what `setLanguage` stores, `getLanguage` reads back |
| `I18n.UnknownStoredLanguageBreaksLookup` | src/i18n.ts:446-448 | a stored text that is not a language makes every lookup without a language fail |
| `I18n.Translator.constructor` | src/i18n.ts:418-448 | the loaded tables and the current language read from storage |
| `I18n.Translator.SetLanguage` | src/i18n.ts:425-428 | current language and stored language become the argument, and a following `getLanguage` returns it |
| `I18n.Translator.GetLanguage` | src/i18n.ts:430-433 | the stored language when non-empty, otherwise "en"; never empty |
| `I18n.Translator.T` | src/i18n.ts:435-438 | the lookup in the explicit language or else the current one; fails exactly when that language has no table; never empty unless the key is |
| `I18n.Translator.WelcomeMessages` | src/i18n.ts:440-443 | fails exactly when the target language has no table; otherwise that table's welcome list |

## Left out

- Rendering, styling, icons, the emoji picker, section toggles, scrolling, dark mode, the
  sidebar's collapse, the Escape key and the detail panel selection are not modelled; they
  hold no data logic.
- JSON parsing and printing are not modelled: a stored list is represented by its value.
  Stored list text that is not JSON is excluded by the constructor's `requires`, because
  the source parses it unguarded (`src/App.tsx:29`) and would throw.
- `window.history`, `popstate` and the path check on later navigation are not modelled
  beyond the initial path given to the constructor.
- Timer delays are not modelled. A reply is the explicit `CompleteReply` step, and any
  number of other handlers may run between it and the handler that scheduled it.
- The catalog import (`FileReader`, `alert`) and the export download (`Blob`,
  `URL.createObjectURL`, the link click) are not modelled. The export's data and file
  name are.
- `handleGenerateSystemPrompt` is not modelled. It is a timer that writes a template
  prompt.
- The random choice of a welcome message is not modelled. `WelcomeMessages` returns the
  whole list.
- The plain field setters of the editor (name, description, icon, prompt, behaviour) are
  not modelled. Each one assigns one field.
- `Strings.Lower`: maps ASCII letters only, because Unicode case mapping is not available.
- `Discovery.FormatToolNameChars`: upper-cases ASCII letters only, as `Strings.Lower`
  lower-cases them; tool ids are ASCII.
- Strings are sequences of characters, not UTF-16 code units, so `slice(0, 50)` can
  differ on text with surrogate pairs.
- `Discovery.VisibleOrder`: `localeCompare` and `new Date(...).getTime()` are abstract
  integer functions (`titleRank`, `timeOf`). `Array.prototype.sort` is modelled as a stable
  sort on an integer key, so an unparsable date (NaN) is not modelled.
- An absent `children` on a department is the empty list. All three uses in the source
  treat the two alike.
- The optional callbacks `onSelectionChange`, `onUpdateChat` and `onEnableSecureMode` are
  always present. `App.tsx` and the editor always pass them, so their absent branches are
  not modelled.
- `App.Controller.SaveFromEditor`: requires that the editor returns an edited record
  exactly when an assistant is being edited. That holds because the editor is given
  `editingAssistant`.
- `AssistantEditor.Editor.DragOver`: requires the hovered index to be in range, which the
  rendered list guarantees. Deleting a prompt while it is being dragged is not modelled.
- `ChatWindow.ChatView`: the component has no React `key` (`src/App.tsx:339`), so its local
  state survives a switch to another chat. The model creates one view per chat and does
  not capture this.
- `App.NewChat`: the handler is given one clock reading, so the new chat's `createdAt`,
  `updatedAt` and first message carry the same timestamp. The source reads the clock once
  per field (`src/App.tsx:86-90`), and the readings can differ by a millisecond.
- `App.SendUpdate`: the handler is given one clock reading, so the sent message and the
  chat's `updatedAt` carry the same timestamp. The source reads the clock twice
  (`src/App.tsx:125`, `src/App.tsx:131`).
- `Discovery.ToolColor`: the colour table is a map, so an id naming a member that every
  JavaScript object inherits (`constructor`, `__proto__`, `toString`) gets the gray
  default, where the source's object lookup returns the inherited member. Tool ids are
  names such as `web_search` and never take those values.
- `Discovery.UnderscoreIdIsGray`: holds for the map; for `__proto__` the source's lookup
  returns the inherited prototype object instead of the gray default.
- `I18n.Translate`: the tables are a map, so a language naming an inherited object member
  (`toString`, `constructor`) has no table and the lookup fails, where the source finds the
  inherited member and falls back to the English text or the key. Languages come from the
  six codes of the picker.
- `I18n.Translator.T`: the same inherited-member languages are not modelled, as for
  `I18n.Translate`.
- `I18n.UnknownStoredLanguageBreaksLookup`: does not hold in the source for a stored value
  such as `toString` or `constructor`, whose lookup finds the inherited member; the map
  model has no such members.
- `I18n.Translator.WelcomeMessages`: for a language naming an inherited object member the
  source returns undefined rather than throwing; the model fails as for any missing table.
- Model descriptions and the `publicOnly` marker are not modelled. No code reads them.
- The translation text beyond a short English and German excerpt is not modelled. The
  tables are parameters.
- `LanguageContext.tsx`, `ChatPreview.tsx` and the other pages are not part of this
  model.
- Renaming from the sidebar passes only a trimmed, non-blank title
  (`src/components/Sidebar.tsx:137-152`). `RenameChat` accepts any title, so it covers
  that case.
