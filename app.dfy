/** The application state controller of src/App.tsx: user assistants, chats, favourites,
    the current chat and view, the secure-mode gate and the browser storage the handlers
    write through to. Ids and timestamps (`Date.now()`, `new Date().toISOString()`) are
    parameters; each timer-delayed simulated reply is split into the handler that schedules
    it (returning the snapshot its closure captures) and `CompleteReply`, which runs it. */
module App {
  import opened Types
  import opened Strings
  import opened Lists

  datatype View = HomeView | ChatView | DiscoveryView | EditorView | VersionView

  /** A value in browser storage. The JSON text of a list is represented by the list it
      encodes; `Text` is any other string. */
  datatype Stored =
    | Text(text: string)
    | ChatsJson(chats: seq<Chat>)
    | AssistantsJson(assistants: seq<Assistant>)
    | IdsJson(ids: seq<string>)

  type Storage = map<string, Stored>

  /** `localStorage.getItem(key)` is truthy: present and not the empty string. */
  predicate IsSet(st: Storage, key: string)
  {
    key in st && st[key] != Text("")
  }

  /** `saved ? JSON.parse(saved) : []` for the `chats` key; `None` when the stored text is
      not the JSON of a chat list (where the source would throw or load garbage). */
  function LoadChats(st: Storage): (r: Option<seq<Chat>>)
    ensures !IsSet(st, "chats") ==> r == Some([])
    ensures IsSet(st, "chats") ==> (r.Some? <==> st["chats"].ChatsJson?)
  {
    if !IsSet(st, "chats") then Some([])
    else if st["chats"].ChatsJson? then Some(st["chats"].chats)
    else None
  }

  function LoadAssistants(st: Storage): (r: Option<seq<Assistant>>)
    ensures !IsSet(st, "assistants") ==> r == Some([])
    ensures IsSet(st, "assistants") ==> (r.Some? <==> st["assistants"].AssistantsJson?)
  {
    if !IsSet(st, "assistants") then Some([])
    else if st["assistants"].AssistantsJson? then Some(st["assistants"].assistants)
    else None
  }

  function LoadFavorites(st: Storage): (r: Option<seq<string>>)
    ensures !IsSet(st, "favorites") ==> r == Some([])
    ensures IsSet(st, "favorites") ==> (r.Some? <==> st["favorites"].IdsJson?)
  {
    if !IsSet(st, "favorites") then Some([])
    else if st["favorites"].IdsJson? then Some(st["favorites"].ids)
    else None
  }

  /** Storing the chat list and reading it back gives the list; the other lists read as before. */
  lemma StoreChats(st: Storage, cs: seq<Chat>)
    ensures LoadChats(st["chats" := ChatsJson(cs)]) == Some(cs)
    ensures LoadAssistants(st["chats" := ChatsJson(cs)]) == LoadAssistants(st)
    ensures LoadFavorites(st["chats" := ChatsJson(cs)]) == LoadFavorites(st)
  {
    assert "chats" != "assistants" && "chats" != "favorites";
  }

  lemma StoreAssistants(st: Storage, as_: seq<Assistant>)
    ensures LoadAssistants(st["assistants" := AssistantsJson(as_)]) == Some(as_)
    ensures LoadChats(st["assistants" := AssistantsJson(as_)]) == LoadChats(st)
    ensures LoadFavorites(st["assistants" := AssistantsJson(as_)]) == LoadFavorites(st)
  {
    assert "assistants" != "chats" && "assistants" != "favorites";
  }

  lemma StoreFavorites(st: Storage, ids: seq<string>)
    ensures LoadFavorites(st["favorites" := IdsJson(ids)]) == Some(ids)
    ensures LoadChats(st["favorites" := IdsJson(ids)]) == LoadChats(st)
    ensures LoadAssistants(st["favorites" := IdsJson(ids)]) == LoadAssistants(st)
  {
    assert "favorites" != "chats" && "favorites" != "assistants";
  }

  /** The flag keys never disturb the lists. */
  lemma FlagKeepsLists(st: Storage, key: string, v: string)
    requires key != "chats" && key != "assistants" && key != "favorites"
    ensures LoadChats(st[key := Text(v)]) == LoadChats(st)
    ensures LoadAssistants(st[key := Text(v)]) == LoadAssistants(st)
    ensures LoadFavorites(st[key := Text(v)]) == LoadFavorites(st)
  {
  }

  // ---------------------------------------------------------------- chats

  /** `assistant?.name || fallback` */
  function AssistantName(a: Option<Assistant>, fallback: string): string
  {
    if a.Some? && a.value.name != "" then a.value.name else fallback
  }

  /** The title of a new chat: `message.slice(0, 50) || \`Chat with ${assistant?.name || 'Assistant'}\``. */
  function StartTitle(message: string, assistant: Option<Assistant>): (title: string)
    ensures title != ""
    ensures message != "" ==> title == Slice(message, 50)
    ensures message == "" ==> title == "Chat with " + AssistantName(assistant, "Assistant")
  {
    var s := Slice(message, 50);
    if s != "" then s else "Chat with " + AssistantName(assistant, "Assistant")
  }

  /** The chat `handleStartChat` creates: with the user's message when there is one. */
  function NewChat(message: string, assistant: Option<Assistant>, chatId: string, messageId: string, now: string): (c: Chat)
    ensures c.id == chatId && c.title == StartTitle(message, assistant)
    ensures c.assistantId == if assistant.Some? then Some(assistant.value.id) else None
    ensures message != "" <==> |c.messages| == 1
    ensures message == "" <==> c.messages == []
    ensures forall m :: m in c.messages ==> m == Message(messageId, UserRole, message, now)
    ensures c.createdAt == now && c.updatedAt == now
    ensures c.llmModel.None? && c.responseBehavior.None? && c.systemPrompt.None?
  {
    Chat(chatId, StartTitle(message, assistant),
         if assistant.Some? then Some(assistant.value.id) else None,
         if message != "" then [Message(messageId, UserRole, message, now)] else [],
         now, now, None, None, None)
  }

  /** The chat `handleSendMessage` makes current: the user message appended, the time
      stamped, and a title kept when non-empty or else taken from the message. */
  function SendUpdate(current: Chat, content: string, messageId: string, now: string): (r: Chat)
    ensures |r.messages| == |current.messages| + 1
    ensures r.messages[..|current.messages|] == current.messages
    ensures r.messages[|current.messages|] == Message(messageId, UserRole, content, now)
    ensures r.updatedAt == now
    ensures current.title != "" ==> r.title == current.title
    ensures current.title == "" ==> r.title == Slice(content, 50)
    ensures r.(messages := current.messages, updatedAt := current.updatedAt, title := current.title) == current
  {
    current.(messages := current.messages + [Message(messageId, UserRole, content, now)],
             updatedAt := now,
             title := if current.title != "" then current.title else Slice(content, 50))
  }

  /** The predicate of `find(a => a.id === id)`. */
  function AssistantIdIs(id: string): Assistant -> bool
  {
    (a: Assistant) => a.id == id
  }

  /** `s.find(a => a.id === id)`; an absent id matches no assistant. */
  function FindAssistant(s: seq<Assistant>, id: Option<string>): (r: Option<Assistant>)
    ensures id.None? ==> r.None?
    ensures id.Some? ==> (r.None? <==> forall i :: 0 <= i < |s| ==> s[i].id != id.value)
    ensures r.Some? ==> id.Some? && r.value.id == id.value && r.value in s
    ensures r.Some? ==> exists i :: 0 <= i < |s| && s[i] == r.value && forall j :: 0 <= j < i ==> s[j].id != id.value
  {
    if id.None? then None
    else
      var k := FindIndex(s, AssistantIdIs(id.value));
      if k < 0 then None else Some(s[k])
  }

  /** Searching a concatenation finds the match of the first part if there is one. */
  lemma FindAssistantConcat(a: seq<Assistant>, b: seq<Assistant>, id: Option<string>)
    ensures FindAssistant(a + b, id) == if FindAssistant(a, id).Some? then FindAssistant(a, id) else FindAssistant(b, id)
  {
    if id.Some? {
      FindIndexConcat(a, b, AssistantIdIs(id.value));
      var kb := FindIndex(b, AssistantIdIs(id.value));
      if kb >= 0 { assert (a + b)[|a| + kb] == b[kb]; }
    }
  }

  /** The reply's assistant: `assistants.find(...) || getRecommendedAssistants().find(...)`.
      The community catalog is not searched. */
  function ReplyAssistant(user: seq<Assistant>, recommended: seq<Assistant>, id: Option<string>): (r: Option<Assistant>)
    ensures FindAssistant(user, id).Some? ==> r == FindAssistant(user, id)
    ensures FindAssistant(user, id).None? ==> r == FindAssistant(recommended, id)
    ensures r.Some? ==> r.value in user || r.value in recommended
  {
    if FindAssistant(user, id).Some? then FindAssistant(user, id) else FindAssistant(recommended, id)
  }

  /** The behaviour named in a simulated reply:
      `assistant?.responseBehavior || chat.responseBehavior || 'balanced'`. */
  function BehaviorLabel(a: Option<Assistant>, chat: Chat): (r: string)
    ensures r in {"precise", "balanced", "creative"}
    ensures a.Some? ==> r == BehaviorName(a.value.responseBehavior)
    ensures a.None? && chat.responseBehavior.Some? ==> r == BehaviorName(chat.responseBehavior.value)
    ensures a.None? && chat.responseBehavior.None? ==> r == "balanced"
  {
    if a.Some? then BehaviorName(a.value.responseBehavior)
    else if chat.responseBehavior.Some? then BehaviorName(chat.responseBehavior.value)
    else "balanced"
  }

  /** The first message of a new chat: an introduction when the assistant has a system
      prompt, a plain greeting otherwise. */
  function GreetingText(a: Option<Assistant>): string
  {
    if a.Some? && a.value.systemPrompt != "" then
      "Hello! I'm " + a.value.name + ". " + a.value.description + " How can I help you today?"
    else "Hello! How can I help you today?"
  }

  /** An assistant with a system prompt introduces itself by name and description; any
      other start gets the plain greeting. */
  lemma GreetingIntroducesAssistant(a: Option<Assistant>)
    ensures a.Some? && a.value.systemPrompt != "" ==>
      Contains(GreetingText(a), a.value.name) && Contains(GreetingText(a), a.value.description)
    ensures a.None? || a.value.systemPrompt == "" ==> GreetingText(a) == "Hello! How can I help you today?"
  {
    if a.Some? && a.value.systemPrompt != "" {
      var p := "Hello! I'm ";
      var n := a.value.name;
      var d := a.value.description;
      var t := GreetingText(a);
      assert t == p + n + (". " + d + " How can I help you today?");
      assert OccursAt(t, n, |p|);
      assert t == (p + n + ". ") + d + " How can I help you today?";
      assert OccursAt(t, d, |p + n + ". "|);
    }
  }

  /** The label a secure-mode reply carries. */
  const SecureMarker := "[SECURE MODE: LOGGING DISABLED]"

  /** The fixed pieces of the stand-in reply. */
  const SimulatedLead := "This is a simulated response from "
  const SimulatedMiddle := " In a real application, this would connect to your hosted LLM with the configured settings (response behavior: "

  /** The stand-in reply to a message. */
  function SimulatedText(a: Option<Assistant>, chat: Chat, privateMode: bool): string
  {
    SimulatedLead + AssistantName(a, "the assistant") + ". "
    + (if privateMode then SecureMarker else "")
    + SimulatedMiddle + BehaviorLabel(a, chat) + ")."
  }

  /** A simulated reply opens by naming the assistant, or "the assistant" when it has none. */
  lemma SimulatedTextNamesAssistant(a: Option<Assistant>, chat: Chat, privateMode: bool)
    ensures var p := SimulatedLead + AssistantName(a, "the assistant") + ". ";
      |p| <= |SimulatedText(a, chat, privateMode)| && SimulatedText(a, chat, privateMode)[..|p|] == p
  {
    var p := SimulatedLead + AssistantName(a, "the assistant") + ". ";
    var rest := (if privateMode then SecureMarker else "") + SimulatedMiddle + BehaviorLabel(a, chat) + ").";
    assert SimulatedText(a, chat, privateMode) == p + rest;
  }

  /** A simulated reply ends with the behaviour label. */
  lemma SimulatedTextEndsWithBehavior(a: Option<Assistant>, chat: Chat, privateMode: bool)
    ensures var q := BehaviorLabel(a, chat) + ").";
      |q| <= |SimulatedText(a, chat, privateMode)|
      && SimulatedText(a, chat, privateMode)[|SimulatedText(a, chat, privateMode)| - |q|..] == q
  {
    var q := BehaviorLabel(a, chat) + ").";
    var front := SimulatedLead + AssistantName(a, "the assistant") + ". "
      + (if privateMode then SecureMarker else "") + SimulatedMiddle;
    assert SimulatedText(a, chat, privateMode) == front + q;
  }

  /** In private mode the simulated reply carries the secure-mode label. */
  lemma SecureReplyIsMarked(a: Option<Assistant>, chat: Chat)
    ensures Contains(SimulatedText(a, chat, true), SecureMarker)
  {
    var t := SimulatedText(a, chat, true);
    var p := SimulatedLead + AssistantName(a, "the assistant") + ". ";
    assert t == (p + SecureMarker) + (SimulatedMiddle + BehaviorLabel(a, chat) + ").");
    assert OccursAt(t, SecureMarker, |p|);
  }

  /** What a scheduled reply's closure captured when its handler ran. */
  datatype PendingReply =
      /** From `handleStartChat`: the new chat, the assistant argument, `chats` at the call. */
    | Greeting(chat: Chat, assistant: Option<Assistant>, chatsAtCall: seq<Chat>)
      /** From `handleSendMessage`: the updated chat, and `assistants`, `chats` and
          `privateMode` at the call. */
    | Simulated(chat: Chat, assistantsAtCall: seq<Assistant>, chatsAtCall: seq<Chat>, privateAtCall: bool)

  function ReplyText(p: PendingReply, recommended: seq<Assistant>): string
  {
    match p
    case Greeting(_, a, _) => GreetingText(a)
    case Simulated(c, user, _, priv) => SimulatedText(ReplyAssistant(user, recommended, c.assistantId), c, priv)
  }

  /** The message a scheduled reply appends. */
  function ReplyMessage(p: PendingReply, recommended: seq<Assistant>, replyId: string, now: string): Message
  {
    Message(replyId, AssistantRole, ReplyText(p, recommended), now)
  }

  /** The chat a reply makes current: the captured chat with the reply appended and
      nothing else changed. */
  function FinalChat(chat: Chat, reply: Message): (f: Chat)
    ensures |f.messages| == |chat.messages| + 1
    ensures f.messages[..|chat.messages|] == chat.messages
    ensures f.messages[|chat.messages|] == reply
    ensures f.(messages := chat.messages) == chat
  {
    chat.(messages := chat.messages + [reply])
  }

  /** The predicate of `findIndex(c => c.id === id)`. */
  function ChatIdIs(id: string): Chat -> bool
  {
    (c: Chat) => c.id == id
  }

  /** `chats.findIndex(c => c.id === id)` */
  function ChatIndex(chats: seq<Chat>, id: string): (i: int)
    ensures -1 <= i < |chats|
    ensures i >= 0 ==> chats[i].id == id && forall j :: 0 <= j < i ==> chats[j].id != id
    ensures i < 0 <==> forall j :: 0 <= j < |chats| ==> chats[j].id != id
  {
    FindIndex(chats, ChatIdIs(id))
  }

  /** The first index holding the id is the index `findIndex` returns. */
  lemma ChatIndexAt(chats: seq<Chat>, id: string, i: int)
    requires 0 <= i < |chats| && chats[i].id == id
    requires forall j :: 0 <= j < i ==> chats[j].id != id
    ensures ChatIndex(chats, id) == i
  {
    assert chats[i].id == id;
  }

  /** The list a simulated reply stores: the chat replaces the first entry with its id, or is
      put in front when there is none. */
  function MergeReply(chats: seq<Chat>, f: Chat): (r: seq<Chat>)
    ensures |chats| <= |r| <= |chats| + 1
    ensures ChatIndex(r, f.id) >= 0 && r[ChatIndex(r, f.id)] == f
    ensures ChatIndex(chats, f.id) >= 0 ==>
      |r| == |chats| && ChatIndex(r, f.id) == ChatIndex(chats, f.id)
      && forall j :: 0 <= j < |chats| && j != ChatIndex(chats, f.id) ==> r[j] == chats[j]
    ensures ChatIndex(chats, f.id) < 0 ==> r == [f] + chats
  {
    var i := ChatIndex(chats, f.id);
    if i >= 0 then
      var r := chats[i := f];
      ChatIndexAt(r, f.id, i);
      r
    else
      var r := [f] + chats;
      ChatIndexAt(r, f.id, 0);
      r
  }

  /** The list a reply stores, by the handler that scheduled it: a greeting always puts
      its chat in front of the captured list. */
  function MergedChats(p: PendingReply, f: Chat): (r: seq<Chat>)
    ensures p.Greeting? ==> r == [f] + p.chatsAtCall
    ensures p.Simulated? ==> r == MergeReply(p.chatsAtCall, f)
  {
    if p.Greeting? then [f] + p.chatsAtCall else MergeReply(p.chatsAtCall, f)
  }

  /** The list a reply stores, as the timer bodies build it: a copy of the captured list,
      then an assignment at the found index or an `unshift`. */
  method MergeCaptured(p: PendingReply, f: Chat) returns (updated: seq<Chat>)
    ensures updated == MergedChats(p, f)
  {
    updated := p.chatsAtCall;
    if p.Greeting? {
      updated := [f] + updated;
    } else {
      var i := ChatIndex(updated, f.id);
      if i >= 0 {
        updated := updated[i := f];
      } else {
        updated := [f] + updated;
      }
    }
  }

  /** `chats.filter(c => c.id !== id)` */
  function WithoutChat(chats: seq<Chat>, id: string): (r: seq<Chat>)
    ensures forall c :: c in r <==> c in chats && c.id != id
    ensures forall i :: 0 <= i < |r| ==> r[i].id != id
    ensures |r| <= |chats|
    ensures (forall i :: 0 <= i < |chats| ==> chats[i].id != id) ==> r == chats
  {
    Filter(chats, (c: Chat) => c.id != id)
  }

  // ------------------------------------------------------------ assistants

  /** The record `handleCreateAssistant` appends. */
  function NewAssistant(d: Draft, id: string, now: string): (a: Assistant)
    ensures a.id == id && a.createdBy == "user" && !a.isPublic
    ensures a.subscriptionCount == Some(0) && a.updatedAt == Some(now)
    ensures a.name == d.name && a.description == d.description && a.icon == d.icon
    ensures a.systemPrompt == d.systemPrompt && a.responseBehavior == d.responseBehavior
    ensures a.allowedTools == d.allowedTools
    ensures a.publishedDepartments == Some(d.publishedDepartments) && a.quickPrompts == Some(d.quickPrompts)
  {
    Assistant(id, d.name, d.description, d.icon, d.systemPrompt, d.responseBehavior, d.allowedTools,
              "user", false, Some(d.publishedDepartments), Some(d.quickPrompts), Some(now), Some(0))
  }

  /** `assistants.map(a => a.id === updated.id ? { ...updated, updatedAt: now } : a)` */
  function ApplyUpdate(s: seq<Assistant>, updated: Assistant, now: string): (r: seq<Assistant>)
    ensures |r| == |s|
    ensures forall i :: 0 <= i < |s| && s[i].id != updated.id ==> r[i] == s[i]
    ensures forall i :: 0 <= i < |s| && s[i].id == updated.id ==> r[i] == updated.(updatedAt := Some(now))
  {
    seq(|s|, i requires 0 <= i < |s| => if s[i].id == updated.id then updated.(updatedAt := Some(now)) else s[i])
  }

  function Ids(s: seq<Assistant>): (r: seq<string>)
    ensures |r| == |s| && forall i :: 0 <= i < |s| ==> r[i] == s[i].id
  {
    seq(|s|, i requires 0 <= i < |s| => s[i].id)
  }

  /** An update keeps every id in its place, so the list stays free of duplicate ids. */
  lemma ApplyUpdateKeepsIds(s: seq<Assistant>, updated: Assistant, now: string)
    ensures Ids(ApplyUpdate(s, updated, now)) == Ids(s)
    ensures NoDup(Ids(s)) ==> NoDup(Ids(ApplyUpdate(s, updated, now)))
  {
    var r := ApplyUpdate(s, updated, now);
    assert forall i :: 0 <= i < |s| ==> r[i].id == s[i].id;
  }

  /** `assistants.filter(a => a.id !== id)` */
  function WithoutAssistant(s: seq<Assistant>, id: string): (r: seq<Assistant>)
    ensures forall a :: a in r <==> a in s && a.id != id
    ensures |r| <= |s|
  {
    Filter(s, (a: Assistant) => a.id != id)
  }

  // ------------------------------------------------------------ the screen

  /** What the main area shows (src/App.tsx:325-384); `Blank` when no guard holds. */
  datatype Screen =
    | HomeScreen
    | ChatScreen(chat: Chat)
    | DiscoveryScreen
    | EditorScreen(editing: Option<Assistant>)
    | VersionScreen
    | Blank

  /** A snapshot of every piece of state the controller keeps. */
  datatype AppState = AppState(
    currentView: View,
    showTerms: bool,
    showSecureIntro: bool,
    assistants: seq<Assistant>,
    chats: seq<Chat>,
    currentChat: Option<Chat>,
    editingAssistant: Option<Assistant>,
    favorites: seq<string>,
    privateMode: bool,
    storage: Storage)

  class Controller {
    var currentView: View
    var showTerms: bool
    var showSecureIntro: bool
    var assistants: seq<Assistant>
    var chats: seq<Chat>
    var currentChat: Option<Chat>
    var editingAssistant: Option<Assistant>
    var favorites: seq<string>
    var privateMode: bool
    var storage: Storage
    /** `getRecommendedAssistants()` and `getCommunityAssistants()`: constant catalogs. */
    const recommended: seq<Assistant>
    const community: seq<Assistant>

    function State(): AppState
      reads this
    {
      AppState(currentView, showTerms, showSecureIntro, assistants, chats, currentChat,
               editingAssistant, favorites, privateMode, storage)
    }

    /** The lists in memory are the lists in storage: every handler writes through. */
    ghost predicate Valid()
      reads this
    {
      LoadChats(storage) == Some(chats)
      && LoadAssistants(storage) == Some(assistants)
      && LoadFavorites(storage) == Some(favorites)
    }

    /** The first render: lists loaded from storage, the terms dialog raised unless accepted,
        the version page when the path is `/version`. Stored list text that is not the
        JSON of a list is excluded: the source parses it unguarded. */
    constructor (st: Storage, recommended: seq<Assistant>, community: seq<Assistant>, pathname: string)
      requires LoadChats(st).Some? && LoadAssistants(st).Some? && LoadFavorites(st).Some?
      ensures Valid()
      ensures this.recommended == recommended && this.community == community
      ensures State() == AppState(
        if pathname == "/version" then VersionView else HomeView,
        !IsSet(st, "termsAccepted"), false,
        LoadAssistants(st).value, LoadChats(st).value, None, None, LoadFavorites(st).value,
        false, st)
    {
      this.recommended := recommended;
      this.community := community;
      currentView := if pathname == "/version" then VersionView else HomeView;
      showTerms := !IsSet(st, "termsAccepted");
      showSecureIntro := false;
      assistants := LoadAssistants(st).value;
      chats := LoadChats(st).value;
      currentChat := None;
      editingAssistant := None;
      favorites := LoadFavorites(st).value;
      privateMode := false;
      storage := st;
    }

    /** `[...recommended, ...community, ...assistants]` */
    function AllAssistants(): (r: seq<Assistant>)
      reads this
      ensures |r| == |recommended| + |community| + |assistants|
      ensures forall a :: a in r <==> a in recommended || a in community || a in assistants
    {
      recommended + community + assistants
    }

    /** The assistant handed to the chat window: the first match in the merged catalog. */
    function ChatWindowAssistant(): (r: Option<Assistant>)
      reads this
      requires currentChat.Some?
      ensures r == FindAssistant(AllAssistants(), currentChat.value.assistantId)
      ensures FindAssistant(recommended, currentChat.value.assistantId).Some? ==>
        r == FindAssistant(recommended, currentChat.value.assistantId)
      ensures FindAssistant(recommended, currentChat.value.assistantId).None? ==>
        FindAssistant(community, currentChat.value.assistantId).Some? ==>
        r == FindAssistant(community, currentChat.value.assistantId)
      ensures FindAssistant(recommended + community, currentChat.value.assistantId).None? ==>
        r == FindAssistant(assistants, currentChat.value.assistantId)
    {
      var id := currentChat.value.assistantId;
      FindAssistantConcat(recommended + community, assistants, id);
      FindAssistantConcat(recommended, community, id);
      FindAssistant(AllAssistants(), id)
    }

    function CurrentScreen(): (s: Screen)
      reads this
      ensures s.ChatScreen? <==> currentView == ChatView && currentChat.Some?
      ensures s.ChatScreen? ==> s.chat == currentChat.value
      ensures s == HomeScreen <==> currentView == HomeView && currentChat.None?
      ensures s == Blank <==> (currentView == HomeView && currentChat.Some?) || (currentView == ChatView && currentChat.None?)
    {
      match currentView
      case HomeView => if currentChat.None? then HomeScreen else Blank
      case ChatView => if currentChat.Some? then ChatScreen(currentChat.value) else Blank
      case DiscoveryView => DiscoveryScreen
      case EditorView => EditorScreen(editingAssistant)
      case VersionView => VersionScreen
    }

    // ----------------------------------------------------- write-through

    /** `setChats(cs)` together with `localStorage.setItem('chats', JSON.stringify(cs))`. */
    method SaveChats(cs: seq<Chat>)
      requires Valid()
      modifies this
      ensures Valid()
      ensures State() == old(State()).(chats := cs, storage := old(storage)["chats" := ChatsJson(cs)])
    {
      StoreChats(storage, cs);
      chats := cs;
      storage := storage["chats" := ChatsJson(cs)];
    }

    /** `setAssistants(as_)` together with its storage write. */
    method SaveAssistants(as_: seq<Assistant>)
      requires Valid()
      modifies this
      ensures Valid()
      ensures State() == old(State()).(assistants := as_, storage := old(storage)["assistants" := AssistantsJson(as_)])
    {
      StoreAssistants(storage, as_);
      assistants := as_;
      storage := storage["assistants" := AssistantsJson(as_)];
    }

    /** `setFavorites(ids)` together with its storage write. */
    method SaveFavorites(ids: seq<string>)
      requires Valid()
      modifies this
      ensures Valid()
      ensures State() == old(State()).(favorites := ids, storage := old(storage)["favorites" := IdsJson(ids)])
    {
      StoreFavorites(storage, ids);
      favorites := ids;
      storage := storage["favorites" := IdsJson(ids)];
    }

    // -------------------------------------------------------------- terms

    method AcceptTerms()
      requires Valid()
      modifies this
      ensures Valid()
      ensures State() == old(State()).(showTerms := false, storage := old(storage)["termsAccepted" := Text("true")])
    {
      FlagKeepsLists(storage, "termsAccepted", "true");
      storage := storage["termsAccepted" := Text("true")];
      showTerms := false;
    }

    /** The home page's terms link. */
    method OpenTerms()
      modifies this
      ensures State() == old(State()).(showTerms := true)
    {
      showTerms := true;
    }

    /** The dialog's Close button, which is only offered once the terms were accepted. */
    method CloseTerms()
      modifies this
      ensures IsSet(old(storage), "termsAccepted") ==> State() == old(State()).(showTerms := false)
      ensures !IsSet(old(storage), "termsAccepted") ==> State() == old(State())
    {
      if IsSet(storage, "termsAccepted") {
        showTerms := false;
      }
    }

    // --------------------------------------------------------- navigation

    /** `navigateToVersion` */
    method NavigateToVersion()
      modifies this
      ensures State() == old(State()).(currentView := VersionView)
    {
      currentView := VersionView;
    }

    /** `navigateHome`, the version page's way back. */
    method NavigateHome()
      modifies this
      ensures State() == old(State()).(currentView := HomeView)
    {
      currentView := HomeView;
    }

    /** The sidebar's home entry: home, and no chat open. */
    method SidebarHome()
      modifies this
      ensures State() == old(State()).(currentView := HomeView, currentChat := None)
      ensures CurrentScreen() == HomeScreen
    {
      currentView := HomeView;
      currentChat := None;
    }

    /** The sidebar's assistants entry, the home page's discovery links and the editor's
        Cancel. */
    method OpenDiscovery()
      modifies this
      ensures State() == old(State()).(currentView := DiscoveryView)
    {
      currentView := DiscoveryView;
    }

    // -------------------------------------------------------------- chats

    /** `handleStartChat`: the new chat becomes current and the chat view opens; the chat
        list is untouched until the greeting arrives, which only a non-empty message
        schedules. */
    method StartChat(message: string, assistant: Option<Assistant>, chatId: string, messageId: string, now: string)
      returns (pending: Option<PendingReply>)
      modifies this
      ensures var c := NewChat(message, assistant, chatId, messageId, now);
        && State() == old(State()).(currentChat := Some(c), currentView := ChatView)
        && pending == if message == "" then None else Some(Greeting(c, assistant, old(chats)))
      ensures CurrentScreen().ChatScreen?
    {
      var c := NewChat(message, assistant, chatId, messageId, now);
      pending := None;
      if message != "" {
        pending := Some(Greeting(c, assistant, chats));
      }
      currentChat := Some(c);
      currentView := ChatView;
    }

    /** `handleSendMessage`: nothing without a current chat; otherwise the user message is
        appended to the current chat and a simulated reply is scheduled. */
    method SendMessage(content: string, messageId: string, now: string) returns (pending: Option<PendingReply>)
      modifies this
      ensures old(currentChat).None? ==> State() == old(State()) && pending.None?
      ensures old(currentChat).Some? ==>
        var u := SendUpdate(old(currentChat).value, content, messageId, now);
        && State() == old(State()).(currentChat := Some(u))
        && pending == Some(Simulated(u, old(assistants), old(chats), old(privateMode)))
    {
      if currentChat.None? {
        return None;
      }
      var u := SendUpdate(currentChat.value, content, messageId, now);
      currentChat := Some(u);
      pending := Some(Simulated(u, assistants, chats, privateMode));
    }

    /** The body of a scheduled reply: the captured chat with the reply appended becomes
        current, and is merged into the chat list captured at the call, which is then
        stored. */
    method CompleteReply(p: PendingReply, replyId: string, now: string)
      requires Valid()
      modifies this
      ensures Valid()
      ensures var f := FinalChat(p.chat, ReplyMessage(p, recommended, replyId, now));
        State() == old(State()).(currentChat := Some(f), chats := MergedChats(p, f),
                                storage := old(storage)["chats" := ChatsJson(MergedChats(p, f))])
    {
      var f := FinalChat(p.chat, ReplyMessage(p, recommended, replyId, now));
      var updated := MergeCaptured(p, f);
      currentChat := Some(f);
      SaveChats(updated);
    }

    /** `handleUpdateChat`: the chat always becomes current; it replaces the first entry with
        its id and is stored only when there is one. */
    method UpdateChat(chat: Chat)
      requires Valid()
      modifies this
      ensures Valid()
      ensures var i := ChatIndex(old(chats), chat.id);
        if i >= 0 then
          State() == old(State()).(currentChat := Some(chat), chats := old(chats)[i := chat],
                                  storage := old(storage)["chats" := ChatsJson(old(chats)[i := chat])])
        else State() == old(State()).(currentChat := Some(chat))
    {
      currentChat := Some(chat);
      var i := ChatIndex(chats, chat.id);
      if i >= 0 {
        SaveChats(chats[i := chat]);
      }
    }

    /** The sidebar's rename: nothing for an unknown id; otherwise the first chat with the id
        gets the title, is stored, and the current chat follows when it has that id. */
    method RenameChat(chatId: string, title: string)
      requires Valid()
      modifies this
      ensures Valid()
      ensures var i := ChatIndex(old(chats), chatId);
        if i < 0 then State() == old(State())
        else
          var cs := old(chats)[i := old(chats)[i].(title := title)];
          State() == old(State()).(
            chats := cs,
            storage := old(storage)["chats" := ChatsJson(cs)],
            currentChat := if old(currentChat).Some? && old(currentChat).value.id == chatId
                           then Some(old(currentChat).value.(title := title)) else old(currentChat))
    {
      var i := ChatIndex(chats, chatId);
      if i == -1 {
        return;
      }
      SaveChats(chats[i := chats[i].(title := title)]);
      if currentChat.Some? && currentChat.value.id == chatId {
        currentChat := Some(currentChat.value.(title := title));
      }
    }

    /** `handleDeleteChat`: every chat with the id goes and the list is stored; the current
        chat is closed and the home view opened only when it was the deleted one. */
    method DeleteChat(chatId: string)
      requires Valid()
      modifies this
      ensures Valid()
      ensures var cs := WithoutChat(old(chats), chatId);
        var wasCurrent := old(currentChat).Some? && old(currentChat).value.id == chatId;
        State() == old(State()).(
          chats := cs,
          storage := old(storage)["chats" := ChatsJson(cs)],
          currentChat := if wasCurrent then None else old(currentChat),
          currentView := if wasCurrent then HomeView else old(currentView))
    {
      SaveChats(WithoutChat(chats, chatId));
      if currentChat.Some? && currentChat.value.id == chatId {
        currentChat := None;
        currentView := HomeView;
      }
    }

    /** `handleSelectChat` */
    method SelectChat(chat: Chat)
      modifies this
      ensures State() == old(State()).(currentChat := Some(chat), currentView := ChatView)
    {
      currentChat := Some(chat);
      currentView := ChatView;
    }

    // --------------------------------------------------------- assistants

    /** `handleCreateAssistant`: one new user-owned, private assistant at the end, stored;
        the discovery view opens. */
    method CreateAssistant(draft: Draft, id: string, now: string)
      requires Valid()
      modifies this
      ensures Valid()
      ensures var as_ := old(assistants) + [NewAssistant(draft, id, now)];
        State() == old(State()).(assistants := as_, storage := old(storage)["assistants" := AssistantsJson(as_)],
                                currentView := DiscoveryView)
    {
      SaveAssistants(assistants + [NewAssistant(draft, id, now)]);
      currentView := DiscoveryView;
    }

    /** `handleEditAssistant` */
    method EditAssistant(a: Assistant)
      modifies this
      ensures State() == old(State()).(editingAssistant := Some(a), currentView := EditorView)
    {
      editingAssistant := Some(a);
      currentView := EditorView;
    }

    /** The discovery page's "create new". */
    method CreateNew()
      modifies this
      ensures State() == old(State()).(editingAssistant := None, currentView := EditorView)
    {
      editingAssistant := None;
      currentView := EditorView;
    }

    /** `handleUpdateAssistant`: every entry with the id is replaced by the update, stamped. */
    method UpdateAssistant(updated: Assistant, now: string)
      requires Valid()
      modifies this
      ensures Valid()
      ensures var as_ := ApplyUpdate(old(assistants), updated, now);
        State() == old(State()).(assistants := as_, storage := old(storage)["assistants" := AssistantsJson(as_)])
    {
      SaveAssistants(ApplyUpdate(assistants, updated, now));
    }

    /** The editor's `onSave`: an edit updates, a draft creates. The editor hands back an
        edited record exactly when it was opened on one. */
    method SaveFromEditor(saved: Saved, id: string, now: string)
      requires Valid()
      requires saved.SavedEdit? <==> editingAssistant.Some?
      modifies this
      ensures Valid()
      ensures saved.SavedEdit? ==>
        var as_ := ApplyUpdate(old(assistants), saved.assistant, now);
        State() == old(State()).(assistants := as_, storage := old(storage)["assistants" := AssistantsJson(as_)])
      ensures saved.SavedNew? ==>
        var as_ := old(assistants) + [NewAssistant(saved.draft, id, now)];
        State() == old(State()).(assistants := as_, storage := old(storage)["assistants" := AssistantsJson(as_)],
                                currentView := DiscoveryView)
    {
      if editingAssistant.Some? {
        UpdateAssistant(saved.assistant, now);
      } else {
        CreateAssistant(saved.draft, id, now);
      }
    }

    /** `handleDeleteAssistant`: every assistant with the id goes and the list is stored;
        the favourites lose the id, and are stored, only when they held it. */
    method DeleteAssistant(assistantId: string)
      requires Valid()
      modifies this
      ensures Valid()
      ensures var as_ := WithoutAssistant(old(assistants), assistantId);
        if assistantId in old(favorites) then
          var fs := RemoveAll(old(favorites), assistantId);
          State() == old(State()).(assistants := as_, favorites := fs,
            storage := old(storage)["assistants" := AssistantsJson(as_)]["favorites" := IdsJson(fs)])
        else
          State() == old(State()).(assistants := as_, storage := old(storage)["assistants" := AssistantsJson(as_)])
    {
      SaveAssistants(WithoutAssistant(assistants, assistantId));
      if assistantId in favorites {
        SaveFavorites(RemoveAll(favorites, assistantId));
      }
    }

    /** `handleToggleFavorite`: the id leaves the favourites when present, else is appended. */
    method ToggleFavorite(assistantId: string)
      requires Valid()
      modifies this
      ensures Valid()
      ensures var fs := Toggle(old(favorites), assistantId);
        State() == old(State()).(favorites := fs, storage := old(storage)["favorites" := IdsJson(fs)])
      ensures assistantId in favorites <==> assistantId !in old(favorites)
    {
      SaveFavorites(Toggle(favorites, assistantId));
    }

    // -------------------------------------------------------- secure mode

    /** `handleEnableSecureMode`: nothing when already private; the intro dialog, and still
        not private, when its flag is not stored; otherwise private. */
    method EnableSecureMode()
      modifies this
      ensures old(privateMode) ==> State() == old(State())
      ensures !old(privateMode) && !IsSet(old(storage), "hasSeenSecureIntro") ==>
        State() == old(State()).(showSecureIntro := true)
      ensures !old(privateMode) && IsSet(old(storage), "hasSeenSecureIntro") ==>
        State() == old(State()).(privateMode := true)
    {
      if privateMode {
        return;
      }
      if !IsSet(storage, "hasSeenSecureIntro") {
        showSecureIntro := true;
        return;
      }
      privateMode := true;
    }

    /** `handleConfirmSecureMode`: the intro is recorded as seen, closed, and private mode is on. */
    method ConfirmSecureMode()
      requires Valid()
      modifies this
      ensures Valid()
      ensures State() == old(State()).(showSecureIntro := false, privateMode := true,
                                      storage := old(storage)["hasSeenSecureIntro" := Text("true")])
      ensures IsSet(storage, "hasSeenSecureIntro")
    {
      FlagKeepsLists(storage, "hasSeenSecureIntro", "true");
      storage := storage["hasSeenSecureIntro" := Text("true")];
      showSecureIntro := false;
      privateMode := true;
    }

    /** `handleTogglePrivateMode`: leaving private mode needs no dialog; entering it goes
        through the gate. */
    method TogglePrivateMode()
      modifies this
      ensures old(privateMode) ==> State() == old(State()).(privateMode := false)
      ensures !old(privateMode) && !IsSet(old(storage), "hasSeenSecureIntro") ==>
        State() == old(State()).(showSecureIntro := true)
      ensures !old(privateMode) && IsSet(old(storage), "hasSeenSecureIntro") ==>
        State() == old(State()).(privateMode := true)
    {
      if !privateMode {
        EnableSecureMode();
      } else {
        privateMode := false;
      }
    }
  }

  /** After the intro was confirmed once, the gate turns private mode on without a dialog. */
  lemma ConfirmedIntroIsSeen(st: Storage)
    ensures IsSet(st["hasSeenSecureIntro" := Text("true")], "hasSeenSecureIntro")
  {
  }

  /** The chat window looks an assistant up in the merged catalog, the reply only among the
      user's and the recommended assistants: a chat with a community assistant shows it,
      while its replies are written as if it had none. */
  lemma CommunityAssistantUnknownToReply(recommended: seq<Assistant>, community: seq<Assistant>, user: seq<Assistant>, id: Option<string>)
    requires FindAssistant(recommended, id).None? && FindAssistant(user, id).None?
    requires FindAssistant(community, id).Some?
    ensures FindAssistant(recommended + community + user, id) == FindAssistant(community, id)
    ensures ReplyAssistant(user, recommended, id).None?
  {
    FindAssistantConcat(recommended + community, user, id);
    FindAssistantConcat(recommended, community, id);
  }

  /** A reply stores the list captured when it was scheduled, whatever happened since: its
      chat is always in the stored list (a chat deleted while the reply was pending comes
      back), and every other stored chat is one of the captured ones (chats created or
      changed meanwhile are lost). */
  lemma LateReplyStoresCapturedList(p: PendingReply, f: Chat)
    ensures f in MergedChats(p, f)
    ensures forall c :: c in MergedChats(p, f) ==> c == f || c in p.chatsAtCall
  {
    var r := MergedChats(p, f);
    if p.Simulated? {
      var i := ChatIndex(p.chatsAtCall, f.id);
      forall c | c in r
        ensures c == f || c in p.chatsAtCall
      {
        var j :| 0 <= j < |r| && r[j] == c;
        if i >= 0 && j != i {
          assert c == p.chatsAtCall[j];
        } else if i < 0 && j > 0 {
          assert c == p.chatsAtCall[j - 1];
        }
      }
    }
  }
}
