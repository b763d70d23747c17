/** The chat view of src/components/ChatWindow.tsx: the model list, the initial values of
    its local settings, and the submit, model-change and save-settings handlers, which hand
    their results to the application's callbacks. */
module ChatWindow {
  import opened Types
  import opened Strings
  import opened Lists
  import App

  /** An entry of the model list: its id, its display name and whether it may be used in
      secure (private) mode. */
  datatype LLM = LLM(id: string, name: string, privateAllowed: bool)

  const AllModels: seq<LLM> := [
    LLM("gpt-4", "GPT-4 (Standard)", false),
    LLM("gpt-3.5-turbo", "GPT-3.5 Turbo", false),
    LLM("claude-3-opus", "Claude 3 Opus", false),
    LLM("claude-3-sonnet", "Claude 3 Sonnet", false),
    LLM("llama-3-70b", "MUC-GPT Secure", true),
    LLM("mistral-large", "MUC-Mistral Large", true)
  ]

  const DefaultModel := "gpt-4"
  const DefaultSystemPrompt := "You are a helpful AI assistant."

  function ModelIds(ms: seq<LLM>): (r: seq<string>)
    ensures |r| == |ms| && forall i :: 0 <= i < |ms| ==> r[i] == ms[i].id
  {
    seq(|ms|, i requires 0 <= i < |ms| => ms[i].id)
  }

  /** getLLMModels: in private mode only the models allowed there, otherwise all of them,
      in the declared order. */
  function LLMModels(privateMode: bool): (r: seq<LLM>)
    ensures !privateMode ==> r == AllModels
    ensures privateMode ==> forall m :: m in r <==> m in AllModels && m.privateAllowed
  {
    if privateMode then Filter(AllModels, PrivateAllowed()) else AllModels
  }

  function PrivateAllowed(): LLM -> bool
  {
    (m: LLM) => m.privateAllowed
  }

  /** In private mode the list is the last two models. */
  lemma PrivateModels()
    ensures LLMModels(true) == [AllModels[4], AllModels[5]]
  {
    var p := PrivateAllowed();
    var s := AllModels;
    assert !p(s[0]) && !p(s[1]) && !p(s[2]) && !p(s[3]) && p(s[4]) && p(s[5]);
    FilterKeepsLastTwo(s, p);
  }

  lemma FilterKeepsLastTwo<T(!new)>(s: seq<T>, p: T -> bool)
    requires |s| == 6 && !p(s[0]) && !p(s[1]) && !p(s[2]) && !p(s[3]) && p(s[4]) && p(s[5])
    ensures Filter(s, p) == [s[4], s[5]]
  {
    assert s[5..][1..] == [];
    assert Filter(s[5..], p) == [s[5]];
    assert s[4..][1..] == s[5..];
    assert Filter(s[4..], p) == [s[4], s[5]];
    assert s[3..][1..] == s[4..];
    assert Filter(s[3..], p) == [s[4], s[5]];
    assert s[2..][1..] == s[3..];
    assert Filter(s[2..], p) == [s[4], s[5]];
    assert s[1..][1..] == s[2..];
    assert Filter(s[1..], p) == [s[4], s[5]];
  }

  /** The private list by id. */
  lemma PrivateModelIds()
    ensures ModelIds(LLMModels(true)) == ["llama-3-70b", "mistral-large"]
  {
    PrivateModels();
    ModelFacts();
    var r := ModelIds(LLMModels(true));
    assert |r| == 2 && r[0] == AllModels[4].id && r[1] == AllModels[5].id;
  }

  /** The full list by id, in the declared order. */
  lemma PublicModelIds()
    ensures ModelIds(LLMModels(false)) ==
      ["gpt-4", "gpt-3.5-turbo", "claude-3-opus", "claude-3-sonnet", "llama-3-70b", "mistral-large"]
  {
    var r := ModelIds(AllModels);
    assert r[0] == "gpt-4" && r[1] == "gpt-3.5-turbo" && r[2] == "claude-3-opus";
    assert r[3] == "claude-3-sonnet" && r[4] == "llama-3-70b" && r[5] == "mistral-large";
  }

  /** `getLLMModels().find(m => m.id === modelId)` */
  function SelectedModel(modelId: string, privateMode: bool): (r: Option<LLM>)
    ensures r.Some? ==> r.value in LLMModels(privateMode) && r.value.id == modelId
    ensures r.None? ==> forall m :: m in LLMModels(privateMode) ==> m.id != modelId
  {
    var ms := LLMModels(privateMode);
    var k := FindIndex(ms, IdIs(modelId));
    if k >= 0 then Some(ms[k]) else None
  }

  function IdIs(modelId: string): LLM -> bool
  {
    (m: LLM) => m.id == modelId
  }

  /** Whether choosing `modelId` asks the application to turn secure mode on. */
  function AsksForSecureMode(modelId: string, privateMode: bool): bool
  {
    var m := SelectedModel(modelId, privateMode);
    m.Some? && m.value.privateAllowed && !privateMode
  }

  /** Choosing a model asks for secure mode exactly when it is one of the two models allowed
      there and secure mode is off. */
  lemma AsksForSecureModeIff(modelId: string, privateMode: bool)
    ensures AsksForSecureMode(modelId, privateMode) <==>
      !privateMode && (modelId == "llama-3-70b" || modelId == "mistral-large")
  {
    if !privateMode {
      ModelFacts();
      var s := AllModels;
      var k := FindIndex(s, IdIs(modelId));
      if modelId == "llama-3-70b" {
        assert IdIs(modelId)(s[4]);
        assert k == 4;
      } else if modelId == "mistral-large" {
        assert IdIs(modelId)(s[5]);
        assert k == 5;
      } else if k >= 0 {
        assert k < 4;
      }
    }
  }

  /** The facts about the list the lemma above needs. */
  lemma ModelFacts()
    ensures |AllModels| == 6
    ensures forall i :: 0 <= i < 6 ==> (AllModels[i].privateAllowed <==> i >= 4)
    ensures AllModels[4].id == "llama-3-70b" && AllModels[5].id == "mistral-large"
    ensures forall i :: 0 <= i < 4 ==> AllModels[i].id != "llama-3-70b" && AllModels[i].id != "mistral-large"
    ensures AllModels[4].id != "mistral-large" && AllModels[5].id != "llama-3-70b"
  {
  }

  // ---------------------------------------------------------------------------------------
  // Initial values of the local settings

  /** `chat.llmModel || 'gpt-4'` */
  function InitialModel(chat: Chat): (r: string)
    ensures r != ""
    ensures chat.llmModel.Some? && chat.llmModel.value != "" ==> r == chat.llmModel.value
    ensures chat.llmModel.None? || chat.llmModel.value == "" ==> r == DefaultModel
  {
    OrElse(chat.llmModel, DefaultModel)
  }

  /** `chat.responseBehavior || assistant?.responseBehavior || 'balanced'`: the chat's own
      setting first, then the assistant's. */
  function InitialBehavior(chat: Chat, assistant: Option<Assistant>): (r: ResponseBehavior)
    ensures chat.responseBehavior.Some? ==> r == chat.responseBehavior.value
    ensures chat.responseBehavior.None? && assistant.Some? ==> r == assistant.value.responseBehavior
    ensures chat.responseBehavior.None? && assistant.None? ==> r == Balanced
  {
    if chat.responseBehavior.Some? then chat.responseBehavior.value
    else if assistant.Some? then assistant.value.responseBehavior
    else Balanced
  }

  /** The settings dialog prefers the chat's behaviour, while the simulated reply names the
      assistant's: when both are set and differ, the two disagree. */
  lemma SettingsAndReplyCanDisagree(chat: Chat, a: Assistant)
    requires chat.responseBehavior == Some(Precise) && a.responseBehavior == Creative
    ensures BehaviorName(InitialBehavior(chat, Some(a))) == "precise"
    ensures App.BehaviorLabel(Some(a), chat) == "creative"
  {
  }

  /** `chat.systemPrompt || assistant?.systemPrompt || default`: the first non-empty one. */
  function InitialSystemPrompt(chat: Chat, assistant: Option<Assistant>): (r: string)
    ensures r != ""
    ensures chat.systemPrompt.Some? && chat.systemPrompt.value != "" ==> r == chat.systemPrompt.value
    ensures (chat.systemPrompt.None? || chat.systemPrompt.value == "") && assistant.Some? && assistant.value.systemPrompt != "" ==>
      r == assistant.value.systemPrompt
    ensures (chat.systemPrompt.None? || chat.systemPrompt.value == "") && (assistant.None? || assistant.value.systemPrompt == "") ==>
      r == DefaultSystemPrompt
  {
    var fromAssistant := if assistant.Some? then Some(assistant.value.systemPrompt) else None;
    OrElse(chat.systemPrompt, OrElse(fromAssistant, DefaultSystemPrompt))
  }

  // ---------------------------------------------------------------------------------------
  // The component

  datatype ViewState = ViewState(
    input: string,
    showLLMMenu: bool,
    showSettings: bool,
    selectedLLM: string,
    chatResponseBehavior: ResponseBehavior,
    chatSystemPrompt: string)

  class ChatView {
    /** The props: the chat shown, its assistant (if found) and the secure-mode flag. */
    const chat: Chat
    const assistant: Option<Assistant>
    const privateMode: bool
    var input: string
    var showLLMMenu: bool
    var showSettings: bool
    var selectedLLM: string
    var chatResponseBehavior: ResponseBehavior
    var chatSystemPrompt: string

    function State(): ViewState
      reads this
    {
      ViewState(input, showLLMMenu, showSettings, selectedLLM, chatResponseBehavior, chatSystemPrompt)
    }

    constructor (chat: Chat, assistant: Option<Assistant>, privateMode: bool)
      ensures this.chat == chat && this.assistant == assistant && this.privateMode == privateMode
      ensures State() == ViewState("", false, false, InitialModel(chat),
                                   InitialBehavior(chat, assistant), InitialSystemPrompt(chat, assistant))
    {
      this.chat, this.assistant, this.privateMode := chat, assistant, privateMode;
      input, showLLMMenu, showSettings := "", false, false;
      selectedLLM := InitialModel(chat);
      chatResponseBehavior := InitialBehavior(chat, assistant);
      chatSystemPrompt := InitialSystemPrompt(chat, assistant);
    }

    method SetInput(text: string)
      modifies this
      ensures State() == old(State()).(input := text)
    {
      input := text;
    }

    /** handleSubmit: a non-blank input is sent trimmed (the argument of `onSendMessage`)
        and the input cleared; a blank one sends nothing and changes nothing. */
    method HandleSubmit() returns (sent: Option<string>)
      modifies this
      ensures Trim(old(input)) == "" ==> sent.None? && State() == old(State())
      ensures Trim(old(input)) != "" ==> sent == Some(Trim(old(input))) && State() == old(State()).(input := "")
    {
      var t := Trim(input);
      if t != "" {
        sent := Some(t);
        input := "";
      } else {
        sent := None;
      }
    }

    /** handleLLMChange: whether `onEnableSecureMode` is called, and the chat handed to
        `onUpdateChat`, which differs from the shown chat in its model only. */
    method HandleLLMChange(modelId: string) returns (enableSecureMode: bool, updated: Chat)
      modifies this
      ensures enableSecureMode == AsksForSecureMode(modelId, privateMode)
      ensures updated == chat.(llmModel := Some(modelId))
      ensures State() == old(State()).(selectedLLM := modelId, showLLMMenu := false)
    {
      var selected := SelectedModel(modelId, privateMode);
      enableSecureMode := selected.Some? && selected.value.privateAllowed && !privateMode;
      selectedLLM := modelId;
      showLLMMenu := false;
      updated := chat.(llmModel := Some(modelId));
    }

    method SetBehavior(b: ResponseBehavior)
      modifies this
      ensures State() == old(State()).(chatResponseBehavior := b)
    {
      chatResponseBehavior := b;
    }

    method SetSystemPrompt(p: string)
      modifies this
      ensures State() == old(State()).(chatSystemPrompt := p)
    {
      chatSystemPrompt := p;
    }

    method OpenSettings()
      modifies this
      ensures State() == old(State()).(showSettings := true)
    {
      showSettings := true;
    }

    /** handleSaveSettings: the chat handed to `onUpdateChat` carries the dialog's
        behaviour and prompt and nothing else new; the dialog closes. */
    method HandleSaveSettings() returns (updated: Chat)
      modifies this
      ensures updated == chat.(responseBehavior := Some(old(chatResponseBehavior)), systemPrompt := Some(old(chatSystemPrompt)))
      ensures State() == old(State()).(showSettings := false)
    {
      updated := chat.(responseBehavior := Some(chatResponseBehavior), systemPrompt := Some(chatSystemPrompt));
      showSettings := false;
    }
  }

  /** Saving the settings without touching them writes the values the dialog opened with:
      the chat's own ones when set, so a chat that already has both keeps them. */
  lemma SaveUntouchedSettings(chat: Chat, assistant: Option<Assistant>)
    requires chat.responseBehavior.Some? && chat.systemPrompt.Some? && chat.systemPrompt.value != ""
    ensures chat.(responseBehavior := Some(InitialBehavior(chat, assistant)),
                  systemPrompt := Some(InitialSystemPrompt(chat, assistant))) == chat
  {
  }
}
