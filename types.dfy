/** The records shared by the session store, the conversation editor and the
    generation service (types.ts). Optional fields of the source are `Option`s. */
module Types {

  datatype Option<+T> = None | Some(value: T)

  /** JavaScript truthiness of an optional string: present and not empty. */
  predicate Truthy(s: Option<string>)
  {
    s.Some? && s.value != ""
  }

  /** `a || b` on optional strings. */
  function OrElse(a: Option<string>, b: Option<string>): (r: Option<string>)
    ensures Truthy(a) ==> r == a
    ensures !Truthy(a) ==> r == b
  {
    if Truthy(a) then a else b
  }

  datatype Role = User | Model

  /** An inline attachment: MIME type and base64 payload. */
  datatype InlineData = InlineData(mimeType: string, data: string)

  /** One unit of message content; either field may be absent. */
  datatype MessagePart = MessagePart(text: Option<string>, inlineData: Option<InlineData>)

  function TextPart(t: string): MessagePart
  {
    MessagePart(Some(t), None)
  }

  function InlinePart(d: InlineData): MessagePart
  {
    MessagePart(None, Some(d))
  }

  /** The timestamp is informational: order is the position in the sequence. */
  datatype Message = Message(id: string, role: Role, parts: seq<MessagePart>, timestamp: int)

  /** An attachment on the input side; the preview URL is never sent. */
  datatype Attachment = Attachment(mimeType: string, data: string, previewUrl: string)

  datatype Assistant = Assistant(id: string, name: string, icon: string, model: string,
                                 systemInstruction: Option<string>)

  datatype ChatSession = ChatSession(id: string, title: string, messages: seq<Message>,
                                     assistantId: string, createdAt: int)
}
