/** The records shared by the chat client and the proxy. */
module Types {

  datatype Option<+T> = None | Some(value: T) {
    /** `x ?? default`, and `x || default` where the absent value is the only falsy one */
    function GetOr(default: T): T
    {
      match this
      case Some(v) => v
      case None => default
    }
  }

  /** `Message.role`: the client never produces a `tool` turn */
  datatype Role = User | Assistant | System

  /** The role as it is written on the wire */
  function RoleName(r: Role): string
  {
    match r
    case User => "user"
    case Assistant => "assistant"
    case System => "system"
  }

  /** A chat message held by the browser; `isSearching` and `searchQuery`
      are the optional fields of the record type */
  datatype Message = Message(
    id: string,
    role: Role,
    content: string,
    timestamp: int,
    isSearching: Option<bool>,
    searchQuery: Option<string>)

  /** One saved conversation of the sidebar */
  datatype Conversation = Conversation(
    id: string,
    title: string,
    messages: seq<Message>,
    createdAt: int,
    updatedAt: int)

  /** One organic result of the search provider */
  datatype SearchResult = SearchResult(title: string, link: string, snippet: string, position: int)

  /** One element of `ChatRequestBody.messages`: what the client posts and
      what the proxy forwards; the server does not check the role */
  datatype WireMessage = WireMessage(role: string, content: string)
}
