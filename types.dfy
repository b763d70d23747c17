/** The records of src/types.ts. Optional TypeScript properties (`x?: T`) become `Option<T>`. */
module Types {

  datatype Option<+T> = None | Some(value: T)

  /** `'user' | 'assistant'` */
  datatype Role = UserRole | AssistantRole

  /** `'precise' | 'balanced' | 'creative'` */
  datatype ResponseBehavior = Precise | Balanced | Creative

  /** The label the source interpolates into text for each behaviour. */
  function BehaviorName(b: ResponseBehavior): string
  {
    match b
    case Precise => "precise"
    case Balanced => "balanced"
    case Creative => "creative"
  }

  datatype Message = Message(id: string, role: Role, content: string, timestamp: string)

  datatype Chat = Chat(
    id: string,
    title: string,
    assistantId: Option<string>,
    messages: seq<Message>,
    createdAt: string,
    updatedAt: string,
    llmModel: Option<string>,
    responseBehavior: Option<ResponseBehavior>,
    systemPrompt: Option<string>)

  datatype Assistant = Assistant(
    id: string,
    name: string,
    description: string,
    icon: string,
    systemPrompt: string,
    responseBehavior: ResponseBehavior,
    allowedTools: seq<string>,
    createdBy: string,
    isPublic: bool,
    publishedDepartments: Option<seq<string>>,
    quickPrompts: Option<seq<string>>,
    updatedAt: Option<string>,
    subscriptionCount: Option<int>)

  /** What the editor hands to `onSave` for a new assistant: the editable fields of an
      Assistant (`Omit<Assistant, 'id' | 'createdBy' | 'isPublic'>`) plus the `isPublic`
      flag the editor computes. */
  datatype Draft = Draft(
    name: string,
    description: string,
    icon: string,
    systemPrompt: string,
    responseBehavior: ResponseBehavior,
    allowedTools: seq<string>,
    publishedDepartments: seq<string>,
    quickPrompts: seq<string>,
    isPublic: bool)

  /** The argument of the editor's `onSave`: a draft for a new assistant, or the edited
      assistant record. */
  datatype Saved = SavedNew(draft: Draft) | SavedEdit(assistant: Assistant)

  /** A node of the department tree. An absent `children` is the empty list: every use of
      the field (the search filter, the id collection, the rendering guard) treats the two
      alike. */
  datatype Department = Department(id: string, name: string, children: seq<Department>)

  /** JavaScript's `o || d` on an optional string: the empty string is falsy too. */
  function OrElse(o: Option<string>, d: string): (r: string)
    ensures r == d || (o.Some? && r == o.value)
    ensures o.Some? && o.value != "" ==> r == o.value
    ensures d != "" ==> r != ""
  {
    if o.Some? && o.value != "" then o.value else d
  }
}
