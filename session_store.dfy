/** The session store of App.tsx: the session list, the active session id,
    the loading flag and the two settings strings, as the fields of a class
    whose methods are the app's handlers. Each method states the whole new
    state through the pure list updates below, whose lemmas say what they keep.
    `Valid` (a non-empty list whose active id resolves) is preserved by every
    handler except `SelectSession`, which keeps it only for an id some session
    carries. Startup is valid exactly when the loaded list is non-empty and a
    saved active id, if there is one, names a loaded session. */
module SessionStore {
  import opened Types
  import opened GeminiService
  import opened Conversation

  const DefaultAssistantId := "nano-banana"

  /** The system instructions of the catalog's assistants. */
  const NanoBananaInstruction := "You are an expert AI image generator. Your task is to generate images based on the user's prompt. You must NOT return JSON, code, or text descriptions of the image. You must ONLY return the generated image itself. If the user provides an image, use it as a reference for editing."
  const NanoBananaProInstruction := "You are a high-fidelity AI image generator. Your task is to generate high-quality, photorealistic or stylized images. You must NOT return JSON, code, or text descriptions. You must ONLY return the generated image. If the user provides an image, use it as a reference."
  const GeminiProInstruction := "You are a helpful and intelligent AI assistant capable of complex reasoning and text processing. Answer the user's questions comprehensively."

  /** The fixed assistant catalog. */
  const InitialAssistants: seq<Assistant> := [
    Assistant("nano-banana", "Nano Banana", "🍌", "gemini-2.5-flash-image",
      Some(NanoBananaInstruction)),
    Assistant("nano-banana-pro", "Nano Banana Pro", "🍌⁺", "gemini-3-pro-image-preview",
      Some(NanoBananaProInstruction)),
    Assistant("gemini-3-pro", "Gemini 3.0 Pro", "🧠", "gemini-3-pro-preview",
      Some(GeminiProInstruction))
  ]

  /** What reading and parsing the saved session list came to. */
  datatype StoredSessions = Absent | Unparseable | Parsed(sessions: seq<ChatSession>)

  /** The arguments `processMessage` passes to `generateContent`, and the
      assistant whose name an error text uses. */
  datatype GenerateCall = GenerateCall(prompt: string, attachments: seq<InlineData>, modelId: string,
                                       customApiKey: Option<string>, customBaseUrl: Option<string>,
                                       config: Option<Config>, systemInstruction: Option<string>,
                                       assistantName: string)

  /** A fresh session: default title, no messages, the default assistant. */
  function NewSession(id: string, now: int): (s: ChatSession)
    ensures s.id == id && s.createdAt == now
    ensures s.title == DefaultTitle && s.messages == [] && s.assistantId == DefaultAssistantId
  {
    ChatSession(id, DefaultTitle, [], DefaultAssistantId, now)
  }

  predicate HasSession(sessions: seq<ChatSession>, id: string)
  {
    exists s :: s in sessions && s.id == id
  }

  /** `sessions.find(s => s.id === id)`. */
  function FindSession(sessions: seq<ChatSession>, id: string): (r: Option<ChatSession>)
    ensures r.Some? <==> HasSession(sessions, id)
    ensures r.Some? ==> r.value.id == id && r.value in sessions
    ensures r.Some? ==> exists i :: 0 <= i < |sessions| && sessions[i] == r.value
                                    && forall j :: 0 <= j < i ==> sessions[j].id != id
  {
    if sessions == [] then None
    else if sessions[0].id == id then Some(sessions[0])
    else
      var r := FindSession(sessions[1..], id);
      assert HasSession(sessions, id) ==> HasSession(sessions[1..], id) by {
        if HasSession(sessions, id) {
          var s :| s in sessions && s.id == id;
          assert s != sessions[0];
          assert s in sessions[1..];
        }
      }
      assert r.Some? ==> exists i :: 0 <= i < |sessions| && sessions[i] == r.value
                                     && forall j :: 0 <= j < i ==> sessions[j].id != id by {
        if r.Some? {
          var k :| 0 <= k < |sessions[1..]| && sessions[1..][k] == r.value
                   && forall j :: 0 <= j < k ==> sessions[1..][j].id != id;
          assert sessions[k + 1] == r.value;
          forall j | 0 <= j < k + 1 ensures sessions[j].id != id {
            if j > 0 { assert sessions[j] == sessions[1..][j - 1]; }
          }
        }
      }
      r
  }

  /** `assistants.find(a => a.id === id)`; an absent id matches nothing. */
  function FindAssistant(assistants: seq<Assistant>, id: Option<string>): (r: Option<Assistant>)
    ensures r.Some? <==> id.Some? && exists a :: a in assistants && a.id == id.value
    ensures r.Some? ==> r.value in assistants && r.value.id == id.value
  {
    if id.None? || assistants == [] then None
    else if assistants[0].id == id.value then Some(assistants[0])
    else
      var r := FindAssistant(assistants[1..], id);
      assert (exists a :: a in assistants && a.id == id.value) ==> r.Some? by {
        if exists a :: a in assistants && a.id == id.value {
          var a :| a in assistants && a.id == id.value;
          assert a in assistants[1..];
        }
      }
      r
  }

  /** `newTitle || s.title`. */
  function KeptTitle(newTitle: Option<string>, title: string): (t: string)
    ensures Truthy(newTitle) ==> t == newTitle.value
    ensures !Truthy(newTitle) ==> t == title
  {
    if Truthy(newTitle) then newTitle.value else title
  }

  /** `handleRenameSession` on the list: only titles change, and only those of
      the sessions carrying the id. */
  function Renamed(sessions: seq<ChatSession>, id: string, newTitle: string): (r: seq<ChatSession>)
    ensures |r| == |sessions|
    ensures forall i :: 0 <= i < |r| ==> r[i].(title := sessions[i].title) == sessions[i]
    ensures forall i :: 0 <= i < |r| ==> r[i].title == if sessions[i].id == id then newTitle else sessions[i].title
  {
    seq(|sessions|, i requires 0 <= i < |sessions| =>
      if sessions[i].id == id then sessions[i].(title := newTitle) else sessions[i])
  }

  /** `updateActiveSessionMessages` on the list: the sessions carrying the id
      get the messages and the kept title; nothing else changes. */
  function WithMessages(sessions: seq<ChatSession>, id: string, messages: seq<Message>,
                        newTitle: Option<string>): (r: seq<ChatSession>)
    ensures |r| == |sessions|
    ensures forall i :: 0 <= i < |r| ==>
              r[i].(messages := sessions[i].messages, title := sessions[i].title) == sessions[i]
    ensures forall i :: 0 <= i < |r| && sessions[i].id == id ==>
              r[i].messages == messages && r[i].title == KeptTitle(newTitle, sessions[i].title)
    ensures forall i :: 0 <= i < |r| && sessions[i].id != id ==> r[i] == sessions[i]
  {
    seq(|sessions|, i requires 0 <= i < |sessions| =>
      if sessions[i].id == id
      then sessions[i].(messages := messages, title := KeptTitle(newTitle, sessions[i].title))
      else sessions[i])
  }

  /** `updateActiveSessionAssistant` on the list: only `assistantId` changes,
      and only in the sessions carrying the id. */
  function WithAssistant(sessions: seq<ChatSession>, id: string, assistantId: string): (r: seq<ChatSession>)
    ensures |r| == |sessions|
    ensures forall i :: 0 <= i < |r| ==> r[i].(assistantId := sessions[i].assistantId) == sessions[i]
    ensures forall i :: 0 <= i < |r| ==>
              r[i].assistantId == if sessions[i].id == id then assistantId else sessions[i].assistantId
  {
    seq(|sessions|, i requires 0 <= i < |sessions| =>
      if sessions[i].id == id then sessions[i].(assistantId := assistantId) else sessions[i])
  }

  /** `sessions.filter(s => s.id !== id)`: the other sessions, in order. */
  function WithoutSession(sessions: seq<ChatSession>, id: string): (r: seq<ChatSession>)
    ensures |r| <= |sessions|
    ensures forall s :: s in r <==> s in sessions && s.id != id
    ensures r != [] ==> exists i :: 0 <= i < |sessions| && sessions[i] == r[0]
                                    && forall j :: 0 <= j < i ==> sessions[j].id == id
  {
    if sessions == [] then []
    else if sessions[0].id == id then
      var r := WithoutSession(sessions[1..], id);
      assert r != [] ==> exists i :: 0 <= i < |sessions| && sessions[i] == r[0]
                                     && forall j :: 0 <= j < i ==> sessions[j].id == id by {
        if r != [] {
          var k :| 0 <= k < |sessions[1..]| && sessions[1..][k] == r[0]
                   && forall j :: 0 <= j < k ==> sessions[1..][j].id == id;
          assert sessions[k + 1] == r[0];
          forall j | 0 <= j < k + 1 ensures sessions[j].id == id {
            if j > 0 { assert sessions[j] == sessions[1..][j - 1]; }
          }
        }
      }
      r
    else [sessions[0]] + WithoutSession(sessions[1..], id)
  }

  /** Filtering commutes with concatenation: the remaining sessions keep their
      relative order, each kept once. */
  lemma {:induction false} WithoutSessionAppend(a: seq<ChatSession>, b: seq<ChatSession>, id: string)
    ensures WithoutSession(a + b, id) == WithoutSession(a, id) + WithoutSession(b, id)
  {
    if a == [] {
      assert a + b == b;
    } else {
      assert (a + b)[0] == a[0];
      assert (a + b)[1..] == a[1..] + b;
      WithoutSessionAppend(a[1..], b, id);
    }
  }

  /** A single session is kept exactly when it does not carry the id. */
  lemma WithoutSessionSingle(s: ChatSession, id: string)
    ensures WithoutSession([s], id) == if s.id == id then [] else [s]
  {
    assert [s][1..] == [];
  }

  /** Replacing messages twice keeps the title chosen by the first call when
      the second proposes none: the two updates of `processMessage` compose. */
  lemma WithMessagesTwice(sessions: seq<ChatSession>, id: string, first: seq<Message>,
                          second: seq<Message>, newTitle: Option<string>)
    ensures WithMessages(WithMessages(sessions, id, first, newTitle), id, second, None)
            == WithMessages(sessions, id, second, newTitle)
  {
    var a := WithMessages(WithMessages(sessions, id, first, newTitle), id, second, None);
    var b := WithMessages(sessions, id, second, newTitle);
    assert forall i :: 0 <= i < |a| ==> a[i] == b[i];
  }

  /** Messages land in the session carrying the id, never in a fallback: an
      id no session carries leaves the list unchanged. */
  lemma WithMessagesUnknownId(sessions: seq<ChatSession>, id: string, messages: seq<Message>,
                              newTitle: Option<string>)
    requires !HasSession(sessions, id)
    ensures WithMessages(sessions, id, messages, newTitle) == sessions
  {
    var r := WithMessages(sessions, id, messages, newTitle);
    forall i | 0 <= i < |sessions| ensures r[i] == sessions[i] {
      assert sessions[i] in sessions;
    }
  }

  /** An empty first prompt does not replace the title. */
  lemma EmptyPromptKeepsTitle(sessions: seq<ChatSession>, id: string, messages: seq<Message>,
                              shouldAutoTitle: bool, history: seq<Message>)
    ensures WithMessages(sessions, id, messages, AutoTitle("", shouldAutoTitle, history))
            == WithMessages(sessions, id, messages, None)
  {
    EmptyPromptProposesNoTitle(shouldAutoTitle, history);
    var a := WithMessages(sessions, id, messages, AutoTitle("", shouldAutoTitle, history));
    var b := WithMessages(sessions, id, messages, None);
    assert forall i :: 0 <= i < |a| ==> a[i] == b[i];
  }

  /** Updating fields keeps every session's id, so the set of ids is unchanged. */
  lemma UpdatesKeepIds(sessions: seq<ChatSession>, id: string, target: string, messages: seq<Message>,
                       newTitle: Option<string>, title: string, assistantId: string)
    ensures HasSession(WithMessages(sessions, id, messages, newTitle), target) <==> HasSession(sessions, target)
    ensures HasSession(Renamed(sessions, id, title), target) <==> HasSession(sessions, target)
    ensures HasSession(WithAssistant(sessions, id, assistantId), target) <==> HasSession(sessions, target)
  {
    KeepIds(sessions, WithMessages(sessions, id, messages, newTitle), target);
    KeepIds(sessions, Renamed(sessions, id, title), target);
    KeepIds(sessions, WithAssistant(sessions, id, assistantId), target);
  }

  lemma KeepIds(sessions: seq<ChatSession>, r: seq<ChatSession>, target: string)
    requires |r| == |sessions| && forall i :: 0 <= i < |r| ==> r[i].id == sessions[i].id
    ensures HasSession(r, target) <==> HasSession(sessions, target)
  {
    if HasSession(sessions, target) {
      var s :| s in sessions && s.id == target;
      var i :| 0 <= i < |sessions| && sessions[i] == s;
      assert r[i] in r;
    }
    if HasSession(r, target) {
      var s :| s in r && s.id == target;
      var i :| 0 <= i < |r| && r[i] == s;
      assert sessions[i] in sessions;
    }
  }

  class Store {
    var sessions: seq<ChatSession>
    var activeSessionId: string
    var isLoading: bool
    var apiKey: string
    var baseUrl: string

    /** At least one session, and the active id names one of them. */
    ghost predicate Valid()
      reads this
    {
      sessions != [] && HasSession(sessions, activeSessionId)
    }

    /** Startup: the saved list when it parsed, else one fresh session; the
        saved active id when truthy, else the first session's id (or "").
        It is valid exactly when the loaded list is non-empty and a truthy
        saved id names a loaded session. */
    constructor (stored: StoredSessions, savedActiveId: Option<string>, savedApiKey: Option<string>,
                 savedBaseUrl: Option<string>, freshId: string, now: int)
      ensures sessions == if stored.Parsed? then stored.sessions else [NewSession(freshId, now)]
      ensures activeSessionId == if Truthy(savedActiveId) then savedActiveId.value
                                 else if sessions != [] then sessions[0].id else ""
      ensures !isLoading
      ensures apiKey == (if Truthy(savedApiKey) then savedApiKey.value else "")
      ensures baseUrl == (if Truthy(savedBaseUrl) then savedBaseUrl.value else "")
      ensures Valid() <==> sessions != [] && (Truthy(savedActiveId) ==> HasSession(sessions, savedActiveId.value))
      ensures !stored.Parsed? && !Truthy(savedActiveId) ==> Valid()
    {
      var loaded := if stored.Parsed? then stored.sessions else [NewSession(freshId, now)];
      sessions := loaded;
      activeSessionId := if Truthy(savedActiveId) then savedActiveId.value
                         else if loaded != [] then loaded[0].id else "";
      isLoading := false;
      apiKey := if Truthy(savedApiKey) then savedApiKey.value else "";
      baseUrl := if Truthy(savedBaseUrl) then savedBaseUrl.value else "";
      assert loaded != [] ==> loaded[0] in loaded;
    }

    /** The derived active session: the one carrying the active id, else the
        first session; none only when the list is empty. */
    function ActiveSession(): (r: Option<ChatSession>)
      reads this
      ensures r.None? <==> sessions == []
      ensures HasSession(sessions, activeSessionId) ==> r == FindSession(sessions, activeSessionId)
      ensures HasSession(sessions, activeSessionId) ==> r.value.id == activeSessionId
      ensures !HasSession(sessions, activeSessionId) && sessions != [] ==> r == Some(sessions[0])
    {
      match FindSession(sessions, activeSessionId)
      case Some(s) => Some(s)
      case None => if sessions == [] then None else Some(sessions[0])
    }

    /** The derived assistant: the catalog entry the active session names,
        else the first catalog entry. */
    function ActiveAssistant(): (a: Assistant)
      reads this
      ensures a in InitialAssistants
      ensures var s := ActiveSession();
        s.Some? && (exists c :: c in InitialAssistants && c.id == s.value.assistantId) ==> a.id == s.value.assistantId
      ensures var s := ActiveSession();
        !(s.Some? && exists c :: c in InitialAssistants && c.id == s.value.assistantId) ==> a == InitialAssistants[0]
    {
      var id := if ActiveSession().Some? then Some(ActiveSession().value.assistantId) else None;
      match FindAssistant(InitialAssistants, id)
      case Some(found) => found
      case None => InitialAssistants[0]
    }

    /** `handleNewChat`: prepend a fresh session and make it active. */
    method NewChat(id: string, now: int)
      modifies this
      ensures sessions == [NewSession(id, now)] + old(sessions)
      ensures activeSessionId == id
      ensures isLoading == old(isLoading) && apiKey == old(apiKey) && baseUrl == old(baseUrl)
      ensures Valid()
    {
      var newSession := NewSession(id, now);
      sessions := [newSession] + sessions;
      activeSessionId := newSession.id;
      assert newSession in sessions;
    }

    /** `handleDeleteSession`: drop the sessions carrying the id; when the
        active one went, select the first remaining session, or recreate a
        fresh one when none remain. */
    method DeleteSession(id: string, freshId: string, now: int)
      modifies this
      ensures old(activeSessionId) != id ==>
                sessions == WithoutSession(old(sessions), id) && activeSessionId == old(activeSessionId)
      ensures old(activeSessionId) == id && WithoutSession(old(sessions), id) != [] ==>
                sessions == WithoutSession(old(sessions), id) && activeSessionId == sessions[0].id
      ensures old(activeSessionId) == id && WithoutSession(old(sessions), id) == [] ==>
                sessions == [NewSession(freshId, now)] && activeSessionId == freshId
      ensures isLoading == old(isLoading) && apiKey == old(apiKey) && baseUrl == old(baseUrl)
      ensures old(Valid()) ==> Valid()
    {
      var newSessions := WithoutSession(sessions, id);
      ghost var wasValid := Valid();
      ghost var before := sessions;
      sessions := newSessions;
      if activeSessionId == id {
        if |newSessions| > 0 {
          activeSessionId := newSessions[0].id;
          assert newSessions[0] in sessions;
        } else {
          NewChat(freshId, now);
        }
      } else if wasValid {
        var s :| s in before && s.id == activeSessionId;
        assert s in sessions;
      }
    }

    /** `setActiveSessionId` from the sidebar: the id is taken as given. */
    method SelectSession(id: string)
      modifies this
      ensures activeSessionId == id
      ensures sessions == old(sessions) && isLoading == old(isLoading)
      ensures apiKey == old(apiKey) && baseUrl == old(baseUrl)
      ensures old(Valid()) && HasSession(sessions, id) ==> Valid()
    {
      activeSessionId := id;
    }

    /** `handleRenameSession`. */
    method RenameSession(id: string, newTitle: string)
      modifies this
      ensures sessions == Renamed(old(sessions), id, newTitle)
      ensures activeSessionId == old(activeSessionId) && isLoading == old(isLoading)
      ensures apiKey == old(apiKey) && baseUrl == old(baseUrl)
      ensures old(Valid()) ==> Valid()
    {
      UpdatesKeepIds(sessions, id, activeSessionId, [], None, newTitle, "");
      sessions := Renamed(sessions, id, newTitle);
    }

    /** `updateActiveSessionMessages`: matches the active id, not the
        fallback session. */
    method UpdateActiveSessionMessages(newMessages: seq<Message>, newTitle: Option<string>)
      modifies this
      ensures sessions == WithMessages(old(sessions), activeSessionId, newMessages, newTitle)
      ensures activeSessionId == old(activeSessionId) && isLoading == old(isLoading)
      ensures apiKey == old(apiKey) && baseUrl == old(baseUrl)
      ensures old(Valid()) ==> Valid()
    {
      UpdatesKeepIds(sessions, activeSessionId, activeSessionId, newMessages, newTitle, "", "");
      sessions := WithMessages(sessions, activeSessionId, newMessages, newTitle);
    }

    /** `updateActiveSessionAssistant`: messages are untouched. */
    method UpdateActiveSessionAssistant(assistantId: string)
      modifies this
      ensures sessions == WithAssistant(old(sessions), activeSessionId, assistantId)
      ensures activeSessionId == old(activeSessionId) && isLoading == old(isLoading)
      ensures apiKey == old(apiKey) && baseUrl == old(baseUrl)
      ensures old(Valid()) ==> Valid()
    {
      UpdatesKeepIds(sessions, activeSessionId, activeSessionId, [], None, "", assistantId);
      sessions := WithAssistant(sessions, activeSessionId, assistantId);
    }

    /** The first half of `processMessage`, up to the awaited call: show the
        user message (and the auto-title), raise the loading flag, and return
        the arguments of the generation call. */
    method BeginProcess(text: string, attachments: seq<Attachment>, history: seq<Message>,
                        shouldAutoTitle: bool, userId: string, userTimestamp: int)
      returns (messagesWithUser: seq<Message>, call: GenerateCall)
      modifies this
      ensures messagesWithUser == history + [UserMessage(userId, text, attachments, userTimestamp)]
      ensures sessions == WithMessages(old(sessions), activeSessionId, messagesWithUser,
                                       AutoTitle(text, shouldAutoTitle, history))
      ensures isLoading
      ensures call.prompt == text && call.config.None?
      ensures call.attachments == seq(|attachments|, i requires 0 <= i < |attachments| =>
                                        InlineData(attachments[i].mimeType, attachments[i].data))
      ensures call.modelId == old(ActiveAssistant()).model
      ensures call.systemInstruction == old(ActiveAssistant()).systemInstruction
      ensures call.assistantName == old(ActiveAssistant()).name
      ensures call.customApiKey == Some(apiKey) && call.customBaseUrl == Some(baseUrl)
      ensures activeSessionId == old(activeSessionId)
      ensures apiKey == old(apiKey) && baseUrl == old(baseUrl)
      ensures old(Valid()) ==> Valid()
    {
      var assistant := ActiveAssistant();
      call := GenerateCall(text,
                           seq(|attachments|, i requires 0 <= i < |attachments| =>
                             InlineData(attachments[i].mimeType, attachments[i].data)),
                           assistant.model, Some(apiKey), Some(baseUrl), None,
                           assistant.systemInstruction, assistant.name);
      var newUserMsg := UserMessage(userId, text, attachments, userTimestamp);
      messagesWithUser := history + [newUserMsg];
      var newTitle := AutoTitle(text, shouldAutoTitle, history);
      UpdateActiveSessionMessages(messagesWithUser, newTitle);
      isLoading := true;
    }

    /** The second half of `processMessage`, once the call has an outcome:
        append the reply, lower the loading flag, and report whether the
        settings panel is to open (a permission failure only). */
    method FinishProcess(messagesWithUser: seq<Message>, call: GenerateCall, outcome: Outcome,
                         replyId: string, replyTimestamp: int)
      returns (opensSettings: bool)
      modifies this
      ensures sessions == WithMessages(old(sessions), activeSessionId,
                                       messagesWithUser + [Reply(replyId, replyTimestamp, outcome, call.assistantName)],
                                       None)
      ensures !isLoading
      ensures opensSettings <==> outcome.Failure? && Classify(outcome.error) == PermissionDenied
      ensures activeSessionId == old(activeSessionId)
      ensures apiKey == old(apiKey) && baseUrl == old(baseUrl)
      ensures old(Valid()) ==> Valid()
    {
      var reply := Reply(replyId, replyTimestamp, outcome, call.assistantName);
      UpdateActiveSessionMessages(messagesWithUser + [reply], None);
      opensSettings := outcome.Failure? && OpensSettings(Classify(outcome.error));
      isLoading := false;
    }

    /** `processMessage` as one step: its two halves around the call, whose
        outcome is given. */
    method ProcessMessage(text: string, attachments: seq<Attachment>, history: seq<Message>,
                          shouldAutoTitle: bool, userId: string, userTimestamp: int,
                          outcome: Outcome, replyId: string, replyTimestamp: int)
      returns (opensSettings: bool)
      modifies this
      ensures sessions == WithMessages(old(sessions), activeSessionId,
                                       ProcessedMessages(text, attachments, history, userId, userTimestamp,
                                                         outcome, replyId, replyTimestamp,
                                                         old(ActiveAssistant()).name),
                                       AutoTitle(text, shouldAutoTitle, history))
      ensures !isLoading
      ensures opensSettings <==> outcome.Failure? && Classify(outcome.error) == PermissionDenied
      ensures activeSessionId == old(activeSessionId)
      ensures apiKey == old(apiKey) && baseUrl == old(baseUrl)
      ensures old(Valid()) ==> Valid()
    {
      ghost var before := sessions;
      ghost var name := ActiveAssistant().name;
      ghost var final := ProcessedMessages(text, attachments, history, userId, userTimestamp,
                                           outcome, replyId, replyTimestamp, name);
      var messagesWithUser, call := BeginProcess(text, attachments, history, shouldAutoTitle,
                                                 userId, userTimestamp);
      assert call.assistantName == name;
      assert messagesWithUser + [Reply(replyId, replyTimestamp, outcome, call.assistantName)] == final;
      opensSettings := FinishProcess(messagesWithUser, call, outcome, replyId, replyTimestamp);
      WithMessagesTwice(before, activeSessionId, messagesWithUser, final,
                        AutoTitle(text, shouldAutoTitle, history));
    }

    /** `handleSendMessage`: send against the active session's messages,
        auto-titling while the title is still the default one. */
    method HandleSendMessage(text: string, attachments: seq<Attachment>, userId: string, userTimestamp: int,
                             outcome: Outcome, replyId: string, replyTimestamp: int)
      returns (opensSettings: bool)
      modifies this
      ensures old(ActiveSession()).None? ==> sessions == old(sessions) && !opensSettings && isLoading == old(isLoading)
      ensures old(ActiveSession()).Some? ==>
                var active := old(ActiveSession()).value;
                && sessions == WithMessages(old(sessions), activeSessionId,
                                            ProcessedMessages(text, attachments, active.messages, userId,
                                                              userTimestamp, outcome, replyId, replyTimestamp,
                                                              old(ActiveAssistant()).name),
                                            AutoTitle(text, active.title == DefaultTitle, active.messages))
                && !isLoading
                && (opensSettings <==> outcome.Failure? && Classify(outcome.error) == PermissionDenied)
      ensures activeSessionId == old(activeSessionId)
      ensures apiKey == old(apiKey) && baseUrl == old(baseUrl)
      ensures old(Valid()) ==> Valid()
    {
      var active := ActiveSession();
      if active.None? {
        return false;
      }
      opensSettings := ProcessMessage(text, attachments, active.value.messages,
                                      active.value.title == DefaultTitle,
                                      userId, userTimestamp, outcome, replyId, replyTimestamp);
    }

    /** `handleEditMessage`: resubmit as `EditPlan` says; an unknown id does
        nothing. */
    method HandleEditMessage(messageId: string, newText: string, userId: string, userTimestamp: int,
                             outcome: Outcome, replyId: string, replyTimestamp: int)
      returns (opensSettings: bool)
      modifies this
      ensures old(ActiveSession()).None? || EditPlan(old(ActiveSession()).value.messages, messageId, newText).None? ==>
                sessions == old(sessions) && !opensSettings && isLoading == old(isLoading)
      ensures old(ActiveSession()).Some? && EditPlan(old(ActiveSession()).value.messages, messageId, newText).Some? ==>
                var plan := EditPlan(old(ActiveSession()).value.messages, messageId, newText).value;
                && sessions == WithMessages(old(sessions), activeSessionId,
                                            ProcessedMessages(plan.text, plan.attachments, plan.history, userId,
                                                              userTimestamp, outcome, replyId, replyTimestamp,
                                                              old(ActiveAssistant()).name),
                                            None)
                && !isLoading
                && (opensSettings <==> outcome.Failure? && Classify(outcome.error) == PermissionDenied)
      ensures activeSessionId == old(activeSessionId)
      ensures apiKey == old(apiKey) && baseUrl == old(baseUrl)
      ensures old(Valid()) ==> Valid()
    {
      var active := ActiveSession();
      if active.None? {
        return false;
      }
      var plan := EditPlan(active.value.messages, messageId, newText);
      if plan.None? {
        return false;
      }
      opensSettings := ProcessMessage(plan.value.text, plan.value.attachments, plan.value.history,
                                      plan.value.shouldAutoTitle, userId, userTimestamp,
                                      outcome, replyId, replyTimestamp);
    }

    /** `handleRegenerateMessage`: resubmit as `RegeneratePlan` says; an
        unknown id, or a MODEL message at index 0, does nothing. */
    method HandleRegenerateMessage(messageId: string, userId: string, userTimestamp: int,
                                   outcome: Outcome, replyId: string, replyTimestamp: int)
      returns (opensSettings: bool)
      modifies this
      ensures old(ActiveSession()).None? || RegeneratePlan(old(ActiveSession()).value.messages, messageId).None? ==>
                sessions == old(sessions) && !opensSettings && isLoading == old(isLoading)
      ensures old(ActiveSession()).Some? && RegeneratePlan(old(ActiveSession()).value.messages, messageId).Some? ==>
                var plan := RegeneratePlan(old(ActiveSession()).value.messages, messageId).value;
                && sessions == WithMessages(old(sessions), activeSessionId,
                                            ProcessedMessages(plan.text, plan.attachments, plan.history, userId,
                                                              userTimestamp, outcome, replyId, replyTimestamp,
                                                              old(ActiveAssistant()).name),
                                            None)
                && !isLoading
                && (opensSettings <==> outcome.Failure? && Classify(outcome.error) == PermissionDenied)
      ensures activeSessionId == old(activeSessionId)
      ensures apiKey == old(apiKey) && baseUrl == old(baseUrl)
      ensures old(Valid()) ==> Valid()
    {
      var active := ActiveSession();
      if active.None? {
        return false;
      }
      var plan := RegeneratePlan(active.value.messages, messageId);
      if plan.None? {
        return false;
      }
      opensSettings := ProcessMessage(plan.value.text, plan.value.attachments, plan.value.history,
                                      plan.value.shouldAutoTitle, userId, userTimestamp,
                                      outcome, replyId, replyTimestamp);
    }

    /** `handleDeleteMessage`: copy the active session's messages and splice
        out the target, with the MODEL reply right after a USER target. */
    method HandleDeleteMessage(messageId: string)
      modifies this
      ensures old(ActiveSession()).None? || FindMessageIndex(old(ActiveSession()).value.messages, messageId).None? ==>
                sessions == old(sessions)
      ensures old(ActiveSession()).Some? && FindMessageIndex(old(ActiveSession()).value.messages, messageId).Some? ==>
                sessions == WithMessages(old(sessions), activeSessionId,
                                         AfterDelete(old(ActiveSession()).value.messages, messageId), None)
      ensures activeSessionId == old(activeSessionId) && isLoading == old(isLoading)
      ensures apiKey == old(apiKey) && baseUrl == old(baseUrl)
      ensures old(Valid()) ==> Valid()
    {
      var active := ActiveSession();
      if active.None? {
        return;
      }
      var messages := active.value.messages;
      var found := FindMessageIndex(messages, messageId);
      if found.None? {
        return;
      }
      var index := found.value;
      var deleteCount := 1;
      if messages[index].role == User {
        if index + 1 < |messages| && messages[index + 1].role == Model {
          deleteCount := 2;
        }
      }
      var newMessages := messages;
      newMessages := newMessages[..index] + newMessages[index + deleteCount..];
      UpdateActiveSessionMessages(newMessages, None);
    }
  }
}
