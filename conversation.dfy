/** The conversation editor of App.tsx as pure transformations of a session's
    message sequence: the user message `processMessage` builds, the auto-title,
    the reply built from a generation outcome, the classification of a failed
    generation, and what edit, regenerate and delete do to the sequence. The
    session store (session_store.dfy) applies them to its state. */
module Conversation {
  import opened Types
  import opened GeminiService

  /** The title of a fresh session ("new conversation"). */
  const DefaultTitle := "新对话"

  /** Auto-titles keep this many characters of the first prompt. */
  const TitleLimit := 30

  // ---------------------------------------------------------------------------
  // Strings

  /** `sub` occurs in `s` starting at index `i`. */
  predicate OccursAt(s: string, sub: string, i: int)
  {
    0 <= i <= |s| - |sub| && s[i..i + |sub|] == sub
  }

  /** `s.includes(sub)`. */
  function Contains(s: string, sub: string): (r: bool)
    ensures r <==> exists i :: OccursAt(s, sub, i)
    decreases |s|
  {
    if |s| < |sub| then false
    else if s[..|sub|] == sub then assert OccursAt(s, sub, 0); true
    else
      var r := Contains(s[1..], sub);
      assert r ==> exists i :: OccursAt(s, sub, i) by {
        if r {
          var j :| OccursAt(s[1..], sub, j);
          assert s[j + 1..j + 1 + |sub|] == s[1..][j..j + |sub|];
          assert OccursAt(s, sub, j + 1);
        }
      }
      assert (exists i :: OccursAt(s, sub, i)) ==> r by {
        if exists i :: OccursAt(s, sub, i) {
          var i :| OccursAt(s, sub, i);
          assert i != 0;
          assert s[1..][i - 1..i - 1 + |sub|] == s[i..i + |sub|];
          assert OccursAt(s[1..], sub, i - 1);
        }
      }
      r
  }

  // ---------------------------------------------------------------------------
  // Finding a message

  /** `messages.findIndex(m => m.id === id)`: the first index carrying the id. */
  function FindMessageIndex(messages: seq<Message>, id: string): (r: Option<nat>)
    ensures r.Some? ==> r.value < |messages| && messages[r.value].id == id
    ensures r.Some? ==> forall j :: 0 <= j < r.value ==> messages[j].id != id
    ensures r.None? ==> forall j :: 0 <= j < |messages| ==> messages[j].id != id
  {
    if messages == [] then None
    else if messages[0].id == id then Some(0)
    else
      match FindMessageIndex(messages[1..], id)
      case None => None
      case Some(k) => Some(k + 1)
  }

  // ---------------------------------------------------------------------------
  // The user message

  /** Each attachment as an inline-data part, in order. */
  function AttachmentParts(attachments: seq<Attachment>): (parts: seq<MessagePart>)
    ensures |parts| == |attachments|
    ensures forall i :: 0 <= i < |attachments| ==>
              parts[i] == InlinePart(InlineData(attachments[i].mimeType, attachments[i].data))
  {
    seq(|attachments|, i requires 0 <= i < |attachments| =>
      InlinePart(InlineData(attachments[i].mimeType, attachments[i].data)))
  }

  /** The parts of the user message: the text first when it is not empty,
      then every attachment in order. */
  function UserParts(text: string, attachments: seq<Attachment>): (parts: seq<MessagePart>)
    ensures |parts| == (if text != "" then 1 else 0) + |attachments|
    ensures text != "" ==> parts[0] == TextPart(text)
    ensures text == "" ==> forall i :: 0 <= i < |parts| ==> parts[i].text.None?
    ensures parts[|parts| - |attachments|..] == AttachmentParts(attachments)
  {
    (if text != "" then [TextPart(text)] else []) + AttachmentParts(attachments)
  }

  /** The USER message `processMessage` shows: its first truthy text is the
      prompt, and its inline parts give the attachments back without preview. */
  function UserMessage(id: string, text: string, attachments: seq<Attachment>, timestamp: int): (m: Message)
    ensures m.id == id && m.role == User && m.timestamp == timestamp
    ensures FirstText(m.parts) == text
    ensures RecoveredAttachments(m.parts) == Cleared(attachments)
  {
    UserPartsRoundTrip(text, attachments);
    Message(id, User, UserParts(text, attachments), timestamp)
  }

  /** The first `TitleLimit` characters of the prompt, with "..." appended
      exactly when something was cut. */
  function Title(text: string): (t: string)
    ensures |t| <= TitleLimit + 3
    ensures |text| <= TitleLimit ==> t == text
    ensures |text| > TitleLimit ==>
              |t| == TitleLimit + 3 && t[..TitleLimit] == text[..TitleLimit] && t[TitleLimit..] == "..."
    ensures t == "" <==> text == ""
  {
    text[..if |text| < TitleLimit then |text| else TitleLimit] + (if |text| > TitleLimit then "..." else "")
  }

  /** The title `processMessage` proposes: only when auto-titling is asked
      for and the history is empty. */
  function AutoTitle(text: string, shouldAutoTitle: bool, history: seq<Message>): (r: Option<string>)
    ensures r.Some? <==> shouldAutoTitle && history == []
    ensures r.Some? ==> r.value == Title(text)
  {
    if shouldAutoTitle && |history| == 0 then Some(Title(text)) else None
  }

  /** An empty first prompt proposes the empty title, which is not truthy. */
  lemma EmptyPromptProposesNoTitle(shouldAutoTitle: bool, history: seq<Message>)
    ensures !Truthy(AutoTitle("", shouldAutoTitle, history))
  {
  }

  // ---------------------------------------------------------------------------
  // Generation failures

  /** The user-visible category of a failed generation. */
  datatype ErrorCategory = PermissionDenied | QuotaExhausted | Overloaded | Described(message: string) | Unknown

  /** `error.status || error.code`: a zero status counts as absent. */
  function EffectiveStatus(e: GenerationError): (s: Option<int>)
    ensures e.status.Some? && e.status.value != 0 ==> s == e.status
    ensures !(e.status.Some? && e.status.value != 0) ==> s == e.code
  {
    if e.status.Some? && e.status.value != 0 then e.status else e.code
  }

  predicate IsForbidden(e: GenerationError)
  {
    Contains(e.description, "403") || EffectiveStatus(e) == Some(403)
  }

  predicate IsQuota(e: GenerationError)
  {
    Contains(e.description, "429") || EffectiveStatus(e) == Some(429) || Contains(e.message, "Quota exceeded")
  }

  predicate IsOverloaded(e: GenerationError)
  {
    Contains(e.description, "503") || EffectiveStatus(e) == Some(503)
  }

  /** The first matching test wins: 403, then 429 or quota, then 503, then a
      non-empty message, else the fallback. */
  function Classify(e: GenerationError): (c: ErrorCategory)
    ensures c == PermissionDenied <==> IsForbidden(e)
    ensures c == QuotaExhausted <==> !IsForbidden(e) && IsQuota(e)
    ensures c == Overloaded <==> !IsForbidden(e) && !IsQuota(e) && IsOverloaded(e)
    ensures c.Described? <==> !IsForbidden(e) && !IsQuota(e) && !IsOverloaded(e) && e.message != ""
    ensures c.Described? ==> c.message == e.message
    ensures c == Unknown <==> !IsForbidden(e) && !IsQuota(e) && !IsOverloaded(e) && e.message == ""
  {
    if IsForbidden(e) then PermissionDenied
    else if IsQuota(e) then QuotaExhausted
    else if IsOverloaded(e) then Overloaded
    else if e.message != "" then Described(e.message)
    else Unknown
  }

  /** Only a permission failure asks for the settings panel to open. */
  predicate OpensSettings(c: ErrorCategory)
  {
    c == PermissionDenied
  }

  const ForbiddenPrefix := "❌ 权限不足 (403)。\n\n您当前的 API 密钥无法访问模型 \""
  const ForbiddenSuffix := "\"。\n\n• 请尝试切换回 Nano Banana (基础版)。\n• 或者在设置中输入具有 Billing/付费权限的 API Key。"
  const WarningSign := "⚠️ "
  const QuotaText := WarningSign + "配额已用尽 (429)。" + "\n\n您当前的 API 使用量已达到 Google 免费层级的限制。\n\n• 请稍等片刻再试（通常每分钟重置）。\n• 或者在设置中输入付费项目的 API Key 以获得更高配额。"
  const OverloadedText := WarningSign + "服务过载 (503)。\n\nGemini 服务当前繁忙。请稍后再试。"
  const FallbackText := "无法生成响应。"

  /** The transcript text of a category; the permission text names the assistant. */
  function ErrorText(c: ErrorCategory, assistantName: string): string
  {
    match c
    case PermissionDenied => ForbiddenPrefix + assistantName + ForbiddenSuffix
    case QuotaExhausted => QuotaText
    case Overloaded => OverloadedText
    case Described(m) => "Error: " + m
    case Unknown => FallbackText
  }

  /** The transcript text tells the categories apart, and it is never empty. */
  lemma ErrorTextDistinguishes(c1: ErrorCategory, c2: ErrorCategory, assistantName: string)
    ensures ErrorText(c1, assistantName) != ""
    ensures ErrorText(c1, assistantName) == ErrorText(c2, assistantName) ==> c1 == c2
  {
    var t1, t2 := ErrorText(c1, assistantName), ErrorText(c2, assistantName);
    LeadOfErrorText(c1, assistantName);
    LeadOfErrorText(c2, assistantName);
    if c1.QuotaExhausted? && c2.Overloaded? {
      assert t1[3] == '配' && t2[3] == '服';
    } else if c1.Overloaded? && c2.QuotaExhausted? {
      assert t1[3] == '服' && t2[3] == '配';
    } else if c1.Described? && c2.Described? && t1 == t2 {
      assert c1.message == t1[|"Error: "|..] == c2.message;
    }
  }

  lemma LeadOfErrorText(c: ErrorCategory, assistantName: string)
    ensures |ErrorText(c, assistantName)| > 3 && ErrorText(c, assistantName)[0] == Lead(c)
  {
    match c
    case PermissionDenied =>
      assert ForbiddenPrefix[0] == '❌';
    case QuotaExhausted =>
      assert WarningSign[0] == '⚠';
    case Overloaded =>
      assert WarningSign[0] == '⚠';
    case Described(m) =>
    case Unknown =>
      assert FallbackText[0] == '无';
  }

  /** The first character of each category's text. */
  function Lead(c: ErrorCategory): char
  {
    match c
    case PermissionDenied => '❌'
    case QuotaExhausted => '⚠'
    case Overloaded => '⚠'
    case Described(_) => 'E'
    case Unknown => '无'
  }

  // ---------------------------------------------------------------------------
  // The reply and the final sequence

  /** The MODEL message appended after the call: the response parts, or one
      text part with the category's text. */
  function Reply(id: string, timestamp: int, outcome: Outcome, assistantName: string): (m: Message)
    ensures m.id == id && m.role == Model && m.timestamp == timestamp
    ensures outcome.Success? ==> m.parts == outcome.parts
    ensures outcome.Failure? ==>
              |m.parts| == 1 && Truthy(m.parts[0].text) && m.parts[0].inlineData.None?
              && m.parts[0].text.value == ErrorText(Classify(outcome.error), assistantName)
  {
    match outcome
    case Success(parts) => Message(id, Model, parts, timestamp)
    case Failure(e) =>
      ErrorTextDistinguishes(Classify(e), Classify(e), assistantName);
      Message(id, Model, [TextPart(ErrorText(Classify(e), assistantName))], timestamp)
  }

  /** The sequence `processMessage` leaves: history, the user message, the reply. */
  function ProcessedMessages(text: string, attachments: seq<Attachment>, history: seq<Message>,
                             userId: string, userTimestamp: int, outcome: Outcome,
                             replyId: string, replyTimestamp: int, assistantName: string): seq<Message>
  {
    history + [UserMessage(userId, text, attachments, userTimestamp),
               Reply(replyId, replyTimestamp, outcome, assistantName)]
  }

  /** After a call the history is kept as it was, followed by exactly one USER
      message (text first if non-empty, then the attachments) and one MODEL
      reply: the response parts on success, a single non-empty text part on
      failure. */
  lemma ProcessedShape(text: string, attachments: seq<Attachment>, history: seq<Message>,
                       userId: string, userTimestamp: int, outcome: Outcome,
                       replyId: string, replyTimestamp: int, assistantName: string)
    ensures var r := ProcessedMessages(text, attachments, history, userId, userTimestamp,
                                       outcome, replyId, replyTimestamp, assistantName);
      && |r| == |history| + 2
      && r[..|history|] == history
      && r[|history|].role == User
      && r[|history|].parts == (if text != "" then [TextPart(text)] else []) + AttachmentParts(attachments)
      && r[|history| + 1].role == Model
      && (outcome.Success? ==> r[|history| + 1].parts == outcome.parts)
      && (outcome.Failure? ==> |r[|history| + 1].parts| == 1 && Truthy(r[|history| + 1].parts[0].text))
  {
    if outcome.Failure? {
      ErrorTextDistinguishes(Classify(outcome.error), Classify(outcome.error), assistantName);
    }
  }

  // ---------------------------------------------------------------------------
  // Recovering a message's content

  /** The inline-data parts of a message, in order, as the attachments a
      resubmission sends (no preview URL). */
  function RecoveredAttachments(parts: seq<MessagePart>): (r: seq<Attachment>)
    ensures |r| <= |parts|
    ensures forall i :: 0 <= i < |r| ==> r[i].previewUrl == ""
  {
    if parts == [] then []
    else
      (if parts[0].inlineData.Some?
       then [Attachment(parts[0].inlineData.value.mimeType, parts[0].inlineData.value.data, "")]
       else [])
      + RecoveredAttachments(parts[1..])
  }

  /** The inline-data parts of a sequence, in order, each stripped to its
      inline data (a part with text as well keeps only its data). */
  function InlineOnly(parts: seq<MessagePart>): seq<MessagePart>
  {
    if parts == [] then []
    else (if parts[0].inlineData.Some? then [InlinePart(parts[0].inlineData.value)] else [])
         + InlineOnly(parts[1..])
  }

  /** `parts.find(p => p.text)?.text || ''`: the first truthy text, or "". */
  function FirstText(parts: seq<MessagePart>): (t: string)
    ensures t == "" <==> forall i :: 0 <= i < |parts| ==> !Truthy(parts[i].text)
    ensures t != "" ==> exists i :: 0 <= i < |parts| && parts[i].text == Some(t)
                                    && forall j :: 0 <= j < i ==> !Truthy(parts[j].text)
  {
    if parts == [] then ""
    else if Truthy(parts[0].text) then parts[0].text.value
    else
      var t := FirstText(parts[1..]);
      assert t != "" ==> exists i :: 0 <= i < |parts| && parts[i].text == Some(t)
                                      && forall j :: 0 <= j < i ==> !Truthy(parts[j].text) by {
        if t != "" {
          var k :| 0 <= k < |parts[1..]| && parts[1..][k].text == Some(t)
                   && forall j :: 0 <= j < k ==> !Truthy(parts[1..][j].text);
          assert parts[k + 1].text == Some(t);
          assert forall j :: 0 <= j < k + 1 ==> !Truthy(parts[j].text) by {
            forall j | 0 <= j < k + 1 ensures !Truthy(parts[j].text) {
              if j > 0 { assert parts[j] == parts[1..][j - 1]; }
            }
          }
        }
      }
      t
  }

  /** Recovered attachments sent again produce exactly the message's inline parts. */
  lemma {:induction false} RecoveredAttachmentsResend(parts: seq<MessagePart>)
    ensures AttachmentParts(RecoveredAttachments(parts)) == InlineOnly(parts)
  {
    if parts != [] {
      RecoveredAttachmentsResend(parts[1..]);
      var head := if parts[0].inlineData.Some?
        then [Attachment(parts[0].inlineData.value.mimeType, parts[0].inlineData.value.data, "")]
        else [];
      AttachmentPartsAppend(head, RecoveredAttachments(parts[1..]));
    }
  }

  lemma AttachmentPartsAppend(a: seq<Attachment>, b: seq<Attachment>)
    ensures AttachmentParts(a + b) == AttachmentParts(a) + AttachmentParts(b)
  {
    assert forall i :: 0 <= i < |a + b| ==>
      AttachmentParts(a + b)[i] == (AttachmentParts(a) + AttachmentParts(b))[i];
  }

  /** Attachments without their preview URL. */
  function Cleared(attachments: seq<Attachment>): (r: seq<Attachment>)
    ensures |r| == |attachments|
    ensures forall i :: 0 <= i < |r| ==> r[i] == attachments[i].(previewUrl := "")
  {
    seq(|attachments|, i requires 0 <= i < |attachments| => attachments[i].(previewUrl := ""))
  }

  /** Round trip: from a user message built by `processMessage` one recovers
      exactly its prompt text and its attachments (less the preview URLs). */
  lemma UserPartsRoundTrip(text: string, attachments: seq<Attachment>)
    ensures FirstText(UserParts(text, attachments)) == text
    ensures RecoveredAttachments(UserParts(text, attachments)) == Cleared(attachments)
  {
    AttachmentsRoundTrip(attachments);
    var parts := UserParts(text, attachments);
    if text != "" {
      assert parts[1..] == AttachmentParts(attachments);
    } else {
      assert parts == AttachmentParts(attachments);
    }
  }

  lemma {:induction false} AttachmentsRoundTrip(attachments: seq<Attachment>)
    ensures RecoveredAttachments(AttachmentParts(attachments)) == Cleared(attachments)
  {
    if attachments != [] {
      AttachmentsRoundTrip(attachments[1..]);
      assert AttachmentParts(attachments)[1..] == AttachmentParts(attachments[1..]);
      assert Cleared(attachments) == [attachments[0].(previewUrl := "")] + Cleared(attachments[1..]);
    }
  }

  // ---------------------------------------------------------------------------
  // Edit, regenerate, delete

  /** What to resubmit: prompt, attachments, the history to send against, and
      whether auto-titling applies. */
  datatype Resubmission = Resubmission(text: string, attachments: seq<Attachment>,
                                       history: seq<Message>, shouldAutoTitle: bool)

  /** `handleEditMessage`: the new text with the edited message's attachments,
      against everything strictly before it; an unknown id does nothing. */
  function EditPlan(messages: seq<Message>, messageId: string, newText: string): Option<Resubmission>
  {
    match FindMessageIndex(messages, messageId)
    case None => None
    case Some(index) =>
      Some(Resubmission(newText, RecoveredAttachments(messages[index].parts), messages[..index], false))
  }

  /** Editing the message found first at index i leaves messages[..i], then a
      USER message of the new text (when non-empty) and the original message's
      inline parts in order, then one reply; auto-titling is off. */
  lemma EditResult(messages: seq<Message>, messageId: string, newText: string,
                   userId: string, userTimestamp: int, outcome: Outcome,
                   replyId: string, replyTimestamp: int, assistantName: string)
    ensures FindMessageIndex(messages, messageId).None? <==> EditPlan(messages, messageId, newText).None?
    ensures FindMessageIndex(messages, messageId).Some? ==>
      var i := FindMessageIndex(messages, messageId).value;
      var p := EditPlan(messages, messageId, newText).value;
      var r := ProcessedMessages(p.text, p.attachments, p.history, userId, userTimestamp,
                                 outcome, replyId, replyTimestamp, assistantName);
      && !p.shouldAutoTitle
      && |r| == i + 2
      && r[..i] == messages[..i]
      && r[i].role == User
      && r[i].parts == (if newText != "" then [TextPart(newText)] else []) + InlineOnly(messages[i].parts)
      && r[i + 1].role == Model
  {
    match FindMessageIndex(messages, messageId)
    case None =>
    case Some(i) =>
      var p := EditPlan(messages, messageId, newText).value;
      RecoveredAttachmentsResend(messages[i].parts);
      ProcessedShape(p.text, p.attachments, p.history, userId, userTimestamp,
                     outcome, replyId, replyTimestamp, assistantName);
  }

  /** The index of the USER message a regenerate resends: a MODEL target steps
      back by one; a resulting index below zero means nothing to do. The role
      of the message stepped back to is not checked. */
  function RegenerateTarget(messages: seq<Message>, messageId: string): (r: Option<nat>)
    ensures r.Some? ==> r.value < |messages|
    ensures FindMessageIndex(messages, messageId).None? ==> r.None?
    ensures FindMessageIndex(messages, messageId).Some? ==>
      var i := FindMessageIndex(messages, messageId).value;
      && (messages[i].role == User ==> r == Some(i))
      && (messages[i].role == Model && i > 0 ==> r == Some(i - 1))
      && (messages[i].role == Model && i == 0 ==> r.None?)
  {
    match FindMessageIndex(messages, messageId)
    case None => None
    case Some(index) =>
      var target := if messages[index].role == Model then index - 1 else index;
      if target < 0 then None else Some(target)
  }

  /** `handleRegenerateMessage`: resend the target's first text and its
      attachments against everything strictly before it. */
  function RegeneratePlan(messages: seq<Message>, messageId: string): Option<Resubmission>
  {
    match RegenerateTarget(messages, messageId)
    case None => None
    case Some(target) =>
      Some(Resubmission(FirstText(messages[target].parts), RecoveredAttachments(messages[target].parts),
                        messages[..target], false))
  }

  /** Regenerating a turn whose USER message `processMessage` built from a
      prompt and attachments resends that same prompt and those attachments,
      against the history before that message, without auto-titling. */
  lemma RegenerateResendsPrompt(messages: seq<Message>, messageId: string, j: nat,
                                text: string, attachments: seq<Attachment>)
    requires RegenerateTarget(messages, messageId) == Some(j)
    requires messages[j].parts == UserParts(text, attachments)
    ensures RegeneratePlan(messages, messageId) == Some(Resubmission(text, Cleared(attachments), messages[..j], false))
  {
    UserPartsRoundTrip(text, attachments);
  }

  /** Regenerating from the USER message at the target j leaves messages[..j],
      then a USER message with that message's first truthy text (if any) and
      its inline parts in order, then one reply; auto-titling is off. */
  lemma RegenerateResult(messages: seq<Message>, messageId: string, j: nat,
                         userId: string, userTimestamp: int, outcome: Outcome,
                         replyId: string, replyTimestamp: int, assistantName: string)
    requires RegenerateTarget(messages, messageId) == Some(j)
    ensures RegeneratePlan(messages, messageId).Some?
    ensures var p := RegeneratePlan(messages, messageId).value;
      var text := FirstText(messages[j].parts);
      var r := ProcessedMessages(p.text, p.attachments, p.history, userId, userTimestamp,
                                 outcome, replyId, replyTimestamp, assistantName);
      && !p.shouldAutoTitle
      && |r| == j + 2
      && r[..j] == messages[..j]
      && r[j].role == User
      && r[j].parts == (if text != "" then [TextPart(text)] else []) + InlineOnly(messages[j].parts)
      && r[j + 1].role == Model
  {
    var p := RegeneratePlan(messages, messageId).value;
    RecoveredAttachmentsResend(messages[j].parts);
    ProcessedShape(p.text, p.attachments, p.history, userId, userTimestamp,
                   outcome, replyId, replyTimestamp, assistantName);
  }

  /** How many messages a delete at `index` removes: a USER message takes the
      MODEL message right after it along. */
  function DeleteCount(messages: seq<Message>, index: nat): (n: nat)
    requires index < |messages|
    ensures n == 1 || n == 2
    ensures n == 2 <==> messages[index].role == User && index + 1 < |messages| && messages[index + 1].role == Model
  {
    if messages[index].role == User && index + 1 < |messages| && messages[index + 1].role == Model then 2 else 1
  }

  /** `handleDeleteMessage` on a sequence. */
  function AfterDelete(messages: seq<Message>, messageId: string): seq<Message>
  {
    match FindMessageIndex(messages, messageId)
    case None => messages
    case Some(index) => messages[..index] + messages[index + DeleteCount(messages, index)..]
  }

  /** Deleting an id no message carries changes nothing. */
  lemma DeleteUnknownId(messages: seq<Message>, messageId: string)
    requires forall k :: 0 <= k < |messages| ==> messages[k].id != messageId
    ensures AfterDelete(messages, messageId) == messages
  {
  }

  /** Deleting the message found first at i removes exactly it, or the bonded
      USER/MODEL pair starting at it; the rest keep their relative order. */
  lemma DeleteResult(messages: seq<Message>, messageId: string, i: nat)
    requires FindMessageIndex(messages, messageId) == Some(i)
    ensures var r := AfterDelete(messages, messageId);
      var bonded := messages[i].role == User && i + 1 < |messages| && messages[i + 1].role == Model;
      && |r| == |messages| - (if bonded then 2 else 1)
      && (forall k :: 0 <= k < i ==> r[k] == messages[k])
      && (forall k :: i <= k < |r| ==> r[k] == messages[k + (if bonded then 2 else 1)])
  {
    var c := DeleteCount(messages, i);
    var r := messages[..i] + messages[i + c..];
    assert AfterDelete(messages, messageId) == r;
    assert forall k :: i <= k < |r| ==> r[k] == messages[i + c..][k - i] == messages[k + c];
  }
}
