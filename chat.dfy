/**
 The chat page: the message history of one file, the input box, and the
 send handler that appends the user's message at once and the assistant's
 reply (or an error in its place) when the request settles.
 */
module Chat {
  import opened Api

  datatype Role = User | Assistant

  /** One chat message; `id` and `createdAt` come only with stored history. */
  datatype Message = Message(
    id: Option<int>,
    role: Role,
    content: string,
    contextSections: Option<seq<string>>,
    createdAt: Option<string>)

  /** The payload of a successful send: the answer and the transcript excerpts it cites. */
  datatype ChatReply = ChatReply(answer: string, sources: Option<seq<string>>)

  // ---------------------------------------------------------------------
  // String.prototype.trim
  // ---------------------------------------------------------------------

  /** The characters `trim` removes: ECMAScript WhiteSpace and LineTerminator. */
  predicate IsWhitespace(c: char) {
    || c == '\t' || c == '\n' || c == '\U{000B}' || c == '\U{000C}' || c == '\r'
    || c == ' ' || c == '\U{00A0}' || c == '\U{1680}'
    || ('\U{2000}' <= c <= '\U{200A}')
    || c == '\U{2028}' || c == '\U{2029}' || c == '\U{202F}' || c == '\U{205F}'
    || c == '\U{3000}' || c == '\U{FEFF}'
  }

  /** `s` without its leading whitespace: the longest suffix not starting with whitespace. */
  function TrimStart(s: string): (t: string)
    ensures |t| <= |s| && t == s[|s| - |t|..]
    ensures forall i :: 0 <= i < |s| - |t| ==> IsWhitespace(s[i])
    ensures t != [] ==> !IsWhitespace(t[0])
  {
    if s != [] && IsWhitespace(s[0]) then TrimStart(s[1..]) else s
  }

  /** `s` without its trailing whitespace: the longest prefix not ending with whitespace. */
  function TrimEnd(s: string): (t: string)
    ensures |t| <= |s| && t == s[..|t|]
    ensures forall i :: |t| <= i < |s| ==> IsWhitespace(s[i])
    ensures t != [] ==> !IsWhitespace(t[|t| - 1])
  {
    if s != [] && IsWhitespace(s[|s| - 1]) then TrimEnd(s[..|s| - 1]) else s
  }

  /** `t` is the piece of `s` starting at `k`, and everything of `s` around it is whitespace. */
  predicate WhitespaceFramed(s: string, t: string, k: int) {
    && 0 <= k <= |s| - |t|
    && t == s[k..k + |t|]
    && (forall i :: 0 <= i < k ==> IsWhitespace(s[i]))
    && (forall i :: k + |t| <= i < |s| ==> IsWhitespace(s[i]))
  }

  /** `s.trim()`: the part of `s` between a whitespace prefix and a whitespace
      suffix, neither starting nor ending with whitespace. */
  function Trim(s: string): (t: string)
    ensures |t| <= |s|
    ensures t != [] ==> !IsWhitespace(t[0]) && !IsWhitespace(t[|t| - 1])
    ensures exists k :: WhitespaceFramed(s, t, k)
  {
    var u := TrimStart(s);
    var t := TrimEnd(u);
    assert t != [] ==> t[0] == u[0];
    var k := |s| - |u|;
    assert WhitespaceFramed(s, t, k);
    t
  }

  /** `!s.trim()`: the input holds nothing but whitespace. */
  predicate Blank(s: string) {
    Trim(s) == ""
  }

  /** Blank inputs are exactly those made of whitespace only. */
  lemma BlankIff(s: string)
    ensures Blank(s) <==> forall i :: 0 <= i < |s| ==> IsWhitespace(s[i])
  {
  }

  // ---------------------------------------------------------------------
  // Messages appended by a send
  // ---------------------------------------------------------------------

  const ConnectionError := "Connection error. Please try again."

  /** The optimistic message: the input exactly as typed, not trimmed. */
  function UserMessage(input: string): (m: Message)
    ensures m.role == User && m.content == input
  {
    Message(None, User, input, None, None)
  }

  /** `${data.error}`: how a template literal renders the envelope's error field. */
  function RenderErrorAsWritten(e: ErrorField): (r: string)
    ensures r == "" <==> e == Text("")
  {
    match e
    case Absent => "undefined"
    case Null => "null"
    case Text(t) => t
    case Object(_) => "[object Object]"
  }

  /** The error message's content as the code is written. */
  function ErrorContentAsWritten(e: ErrorField): (c: string)
    ensures |c| >= 7 && c[..7] == "Error: " && c[7..] == RenderErrorAsWritten(e)
  {
    "Error: " + RenderErrorAsWritten(e)
  }

  /** As written, the server's message inside an error object never reaches the chat. */
  lemma ErrorMessageHiddenAsWritten(m: string)
    ensures ErrorContentAsWritten(Object(Some(m))) == "Error: [object Object]"
    ensures m != "[object Object]" ==> ErrorContentAsWritten(Object(Some(m))) != "Error: " + m
  {
    if m != "[object Object]" {
      assert ("Error: " + m)[7..] == m;
      assert ("Error: [object Object]")[7..] == "[object Object]";
    }
  }

  /** The error message's content once the error object's `message` is used
      (`data.error?.message || data.error`); otherwise as written. */
  function ErrorContent(e: ErrorField): (c: string)
    ensures HasMessage(e) ==> c == "Error: " + e.message.value
    ensures !HasMessage(e) ==> c == ErrorContentAsWritten(e)
    ensures c[..7] == "Error: "
  {
    "Error: " + ErrorMessageOr(e, RenderErrorAsWritten(e))
  }

  /** The one assistant-role message a settled send appends. A success whose
      payload is missing makes `data.data.answer` throw, which lands in the
      connection-error branch. */
  function AssistantReply(r: Response<Option<ChatReply>>): (m: Message)
    ensures m.role == Assistant && m.id == None && m.createdAt == None
    ensures r.Ok? && r.data.Some? ==>
      m.content == r.data.value.answer && m.contextSections == r.data.value.sources
    ensures r.AppErr? ==> m.content == ErrorContent(r.error) && m.contextSections == None
    ensures (r.NetErr? || r == Ok(None)) ==> m.content == ConnectionError && m.contextSections == None
  {
    match r
    case Ok(Some(reply)) => Message(None, Assistant, reply.answer, reply.sources, None)
    case Ok(None) => Message(None, Assistant, ConnectionError, None, None)
    case AppErr(e) => Message(None, Assistant, ErrorContent(e), None, None)
    case NetErr(_) => Message(None, Assistant, ConnectionError, None, None)
  }

  /** The number of messages with the given role. */
  function CountRole(ms: seq<Message>, role: Role): nat
  {
    if ms == [] then 0 else (if ms[0].role == role then 1 else 0) + CountRole(ms[1..], role)
  }

  lemma {:induction false} CountRoleAppend(a: seq<Message>, b: seq<Message>, role: Role)
    ensures CountRole(a + b, role) == CountRole(a, role) + CountRole(b, role)
  {
    if a == [] {
      assert a + b == b;
    } else {
      assert (a + b)[0] == a[0];
      assert (a + b)[1..] == a[1..] + b;
      CountRoleAppend(a[1..], b, role);
    }
  }

  /** A send adds exactly one user message and exactly one assistant message. */
  lemma SendCounts(history: seq<Message>, input: string, r: Response<Option<ChatReply>>)
    ensures CountRole(history + [UserMessage(input), AssistantReply(r)], User) == CountRole(history, User) + 1
    ensures CountRole(history + [UserMessage(input), AssistantReply(r)], Assistant) == CountRole(history, Assistant) + 1
  {
    var reply := AssistantReply(r);
    var added := [UserMessage(input), reply];
    assert CountRole([reply], User) == 0 && CountRole([reply], Assistant) == 1 by {
      assert [reply][1..] == [];
    }
    assert CountRole(added, User) == 1 && CountRole(added, Assistant) == 1 by {
      assert added[0].role == User && added[1..] == [reply];
    }
    CountRoleAppend(history, added, User);
    CountRoleAppend(history, added, Assistant);
  }

  /** The page's view state: one field per `useState` slot it updates. */
  class ChatPage {
    var messages: seq<Message>
    var newMessage: string
    var loading: bool
    var sending: bool

    constructor ()
      ensures messages == [] && newMessage == "" && !loading && !sending
    {
      messages := [];
      newMessage := "";
      loading := false;
      sending := false;
    }

    /** The guard of `handleSendMessage`, also what enables the Send button:
        nothing is in flight and the input holds a non-whitespace character. */
    predicate CanSend()
      reads this
      ensures CanSend() <==> !sending && exists i :: 0 <= i < |newMessage| && !IsWhitespace(newMessage[i])
    {
      BlankIff(newMessage);
      !Blank(newMessage) && !sending
    }

    /** The input's `onChange`. */
    method Type(text: string)
      requires !sending
      modifies this`newMessage
      ensures newMessage == text
    {
      newMessage := text;
    }

    /** `fetchChatHistory`: the stored history replaces the list only on success. */
    method FetchChatHistory(r: Response<seq<Message>>)
      modifies this`messages, this`loading
      ensures !loading
      ensures messages == if r.Ok? then r.data else old(messages)
    {
      loading := true;
      if r.Ok? {
        messages := r.data;
      }
      loading := false;
    }

    /** `handleSendMessage` up to its request: when the guard holds, the user's
        message is shown before any answer, the input is cleared and sending is on.
        `issued` tells whether a request was made. */
    method BeginSend() returns (issued: bool)
      modifies this`messages, this`newMessage, this`sending
      ensures issued == old(CanSend())
      ensures !issued ==>
        messages == old(messages) && newMessage == old(newMessage) && sending == old(sending)
      ensures issued ==>
        messages == old(messages) + [UserMessage(old(newMessage))] && newMessage == "" && sending
    {
      if Blank(newMessage) || sending {
        return false;
      }
      messages := messages + [UserMessage(newMessage)];
      newMessage := "";
      sending := true;
      return true;
    }

    /** `handleSendMessage` after its request settles with `r`: one assistant
        message is appended, nothing earlier is touched, and sending is off. */
    method ReceiveReply(r: Response<Option<ChatReply>>)
      modifies this`messages, this`sending
      ensures messages == old(messages) + [AssistantReply(r)]
      ensures !sending
    {
      messages := messages + [AssistantReply(r)];
      sending := false;
    }

    /** The whole of `handleSendMessage` when nothing else happens while the
        request is in flight. */
    method SendMessage(r: Response<Option<ChatReply>>)
      modifies this`messages, this`newMessage, this`sending
      ensures !old(CanSend()) ==>
        messages == old(messages) && newMessage == old(newMessage) && sending == old(sending)
      ensures old(CanSend()) ==>
        messages == old(messages) + [UserMessage(old(newMessage)), AssistantReply(r)] &&
        newMessage == "" && !sending
      ensures old(CanSend()) ==>
        |messages| == |old(messages)| + 2 && messages[..|old(messages)|] == old(messages) &&
        CountRole(messages, User) == CountRole(old(messages), User) + 1 &&
        CountRole(messages, Assistant) == CountRole(old(messages), Assistant) + 1
    {
      var issued := BeginSend();
      if issued {
        ReceiveReply(r);
        SendCounts(old(messages), old(newMessage), r);
      }
    }
  }
}
