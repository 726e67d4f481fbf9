/** The floating chat widget: an open/closed flag, the text being typed, an
    ordered transcript and a loading flag, driven by a guarded append
    protocol. The one awaited generation request is split into two atomic
    steps, sending (`SendStep`) and completion (`CompleteStep`), so every
    behaviour is a sequence of the events in `ChatEvent`.

    The pure step functions are the specification; `AssistantWidget` is the
    component whose fields the handlers update, each method proved to move
    its fields exactly as the matching step function does. */
module AIAssistant {
  import opened Types
  import opened Text

  datatype Speaker = User | Assistant

  datatype Message = Message(role: Speaker, content: string)

  /** How the `try` block of `handleSend` ends: with the response's text
      (which may be absent), with a rejection carrying an error message (which
      may be absent), or with the throw at the missing API key, which happens
      before any request is made and so only inside `SendStep`. */
  datatype Outcome =
    | Reply(text: Option<string>)
    | Failure(message: Option<string>)
    | MissingKey

  /** The widget's prop and state hooks, plus `hasKey`: whether the build
      environment provides an API key, which no event changes. */
  datatype ChatState = ChatState(
    userRole: Role, isOpen: bool, input: string, messages: seq<Message>, isLoading: bool, hasKey: bool)

  const Welcome: string :=
    "Welcome to OmniRoute! I'm your AI Logistics Advisor. How can I help you explore our platform's capabilities today?"
  const GreetingHead: string := "Hello! I'm your OmniRoute AI Assistant. How can I help you with your "
  const GreetingTail: string := " operations today?"
  const EmptyReplyText: string := "I'm sorry, I couldn't process that request."
  const UnknownErrorText: string := "An unexpected error occurred."
  const MissingKeyText: string :=
    "Gemini API Key is missing. Please ensure it is set in your environment variables."
  const ErrorHead: string := "Error: "
  const ErrorTail: string := ". Please check the console for more details."

  /** JavaScript's `||` falls through on an absent or empty string. */
  predicate Falsy(o: Option<string>) {
    o.None? || o.value == []
  }

  /** The first message for a role: the product welcome on the landing page,
      otherwise a greeting that names the role. */
  function Greeting(role: Role): (g: string)
    ensures role == Landing ==> g == Welcome
    ensures role != Landing ==>
      && |g| == |GreetingHead| + |RoleId(role)| + |GreetingTail|
      && g[..|GreetingHead|] == GreetingHead
      && g[|GreetingHead|..|GreetingHead| + |RoleId(role)|] == RoleId(role)
      && g[|GreetingHead| + |RoleId(role)|..] == GreetingTail
  {
    if role == Landing then Welcome else GreetingHead + RoleId(role) + GreetingTail
  }

  /** Different roles are greeted differently. */
  lemma GreetingDeterminesRole(a: Role, b: Role)
    ensures Greeting(a) == Greeting(b) ==> a == b
  {
    // a landing greeting differs from a role greeting in length already
    if Greeting(a) == Greeting(b) && a != Landing && b != Landing {
      var n := |GreetingHead|;
      assert |RoleId(a)| == |RoleId(b)|;
      assert RoleId(a) == Greeting(a)[n..n + |RoleId(a)|] == RoleId(b);
      RoleIdInjective(a, b);
    }
  }

  /** The transcript the widget is seeded with, and re-seeded with on a role change. */
  function Seed(role: Role): seq<Message> {
    [Message(Assistant, Greeting(role))]
  }

  function Initial(role: Role, hasKey: bool): ChatState {
    ChatState(role, false, "", Seed(role), false, hasKey)
  }

  /** The error bubble: the detail framed by a fixed head and tail, from which
      it can be read back. */
  function ErrorReport(detail: string): (t: string)
    ensures |t| == |ErrorHead| + |detail| + |ErrorTail|
    ensures t[..|ErrorHead|] == ErrorHead && t[|t| - |ErrorTail|..] == ErrorTail
    ensures t[|ErrorHead|..|t| - |ErrorTail|] == detail
  {
    ErrorHead + detail + ErrorTail
  }

  /** The assistant message a completion appends. It is never empty: an empty
      reply is replaced by an apology and a missing error message by a generic
      one, and every failure, including the missing key, becomes an error report. */
  function ReplyText(o: Outcome): (t: string)
    ensures t != []
    ensures o.Reply? ==> t == if Falsy(o.text) then EmptyReplyText else o.text.value
    ensures o.Failure? ==> t == ErrorReport(if Falsy(o.message) then UnknownErrorText else o.message.value)
    ensures o.MissingKey? ==> t == ErrorReport(MissingKeyText)
  {
    match o
    case Reply(text) => if Falsy(text) then EmptyReplyText else text.value
    case Failure(message) => ErrorReport(if Falsy(message) then UnknownErrorText else message.value)
    case MissingKey => ErrorReport(MissingKeyText)
  }

  /** The send button is enabled, and `handleSend` proceeds, exactly when the
      trimmed input is non-empty and no request is in flight. */
  predicate CanSend(s: ChatState): (ok: bool)
    ensures ok <==> !Blank(s.input) && !s.isLoading
  {
    TrimEmptyIffBlank(s.input);
    Trim(s.input) != [] && !s.isLoading
  }

  /** The open and close buttons: only `isOpen` changes. */
  function SetOpen(s: ChatState, open: bool): (r: ChatState)
    ensures r.isOpen == open
    ensures r.(isOpen := s.isOpen) == s
  {
    s.(isOpen := open)
  }

  /** Typing into the input field: only `input` changes. */
  function EditInput(s: ChatState, text: string): (r: ChatState)
    ensures r.input == text
    ensures r.(input := s.input) == s
  {
    s.(input := text)
  }

  /** The role-change effect. It runs only when the role value differs from the
      last one, and then replaces the transcript by the new role's greeting
      whatever the loading state; the loading flag, the input and the open flag
      are left as they are. */
  function ResetForRole(s: ChatState, role: Role): (r: ChatState)
    ensures r.userRole == role
    ensures role == s.userRole ==> r == s
    ensures role != s.userRole ==>
      && r.messages == Seed(role)
      && r.isLoading == s.isLoading && r.input == s.input && r.isOpen == s.isOpen && r.hasKey == s.hasKey
  {
    if role == s.userRole then s else s.(userRole := role, messages := Seed(role))
  }

  /** The state after a user message `m` is sent from `s`. */
  function Asked(s: ChatState, m: Message): ChatState {
    s.(input := [], messages := s.messages + [m], isLoading := true)
  }

  /** The synchronous part of `handleSend`. It changes nothing exactly when the
      input is blank or a request is in flight. Otherwise it appends one user
      message holding the trimmed input and clears the input. With an API key
      it sets loading, and the request is in flight. Without one, the throw is
      caught before the handler yields: the missing-key report is appended at
      once and loading ends cleared, so no request is made. */
  function SendStep(s: ChatState): (r: ChatState)
    ensures r == s <==> Blank(s.input) || s.isLoading
    ensures CanSend(s) && s.hasKey ==>
      && r.messages == s.messages + [Message(User, Trim(s.input))]
      && r.input == [] && r.isLoading
      && r.userRole == s.userRole && r.isOpen == s.isOpen && r.hasKey
    ensures CanSend(s) && !s.hasKey ==>
      && r.messages == s.messages + [Message(User, Trim(s.input)), Message(Assistant, ErrorReport(MissingKeyText))]
      && r.input == [] && !r.isLoading
      && r.userRole == s.userRole && r.isOpen == s.isOpen && !r.hasKey
  {
    if !CanSend(s) then
      s
    else if s.hasKey then
      Asked(s, Message(User, Trim(s.input)))
    else
      var t := CompleteStep(Asked(s, Message(User, Trim(s.input))), MissingKey);
      assert t.messages == s.messages + [Message(User, Trim(s.input)), Message(Assistant, ErrorReport(MissingKeyText))];
      t
  }

  /** The continuation after the await and its `finally`: exactly one assistant
      message is appended, every earlier message is kept, loading is cleared. */
  function CompleteStep(s: ChatState, o: Outcome): (r: ChatState)
    requires s.isLoading
    ensures |r.messages| == |s.messages| + 1 && r.messages[..|s.messages|] == s.messages
    ensures r.messages[|s.messages|] == Message(Assistant, ReplyText(o))
    ensures !r.isLoading
    ensures r.input == s.input && r.isOpen == s.isOpen && r.userRole == s.userRole && r.hasKey == s.hasKey
  {
    s.(messages := s.messages + [Message(Assistant, ReplyText(o))], isLoading := false)
  }

  datatype ChatEvent =
    | OpenClicked
    | CloseClicked
    | Typed(text: string)
    | SendRequested
    | Completed(outcome: Outcome)
    | RoleSet(role: Role)

  /** The input field, its Enter key and the send button exist only inside
      the open window. A completion arrives only while the request it answers
      is outstanding, which is what `isLoading` records, and the missing-key
      outcome never arrives later: it is handled inside `SendStep`. The close
      button is inside the window too, and the floating button that opens it
      is always shown. So a closed widget takes no typing, no send and no
      close. */
  predicate Enabled(s: ChatState, e: ChatEvent): (ok: bool)
    ensures ok && !s.isOpen ==> e.OpenClicked? || e.Completed? || e.RoleSet?
  {
    match e
    case CloseClicked => s.isOpen
    case Typed(_) => s.isOpen
    case SendRequested => s.isOpen
    case Completed(o) => s.isLoading && !o.MissingKey?
    case _ => true
  }

  function Step(s: ChatState, e: ChatEvent): ChatState
    requires Enabled(s, e)
  {
    match e
    case OpenClicked => SetOpen(s, true)
    case CloseClicked => SetOpen(s, false)
    case Typed(text) => EditInput(s, text)
    case SendRequested => SendStep(s)
    case Completed(o) => CompleteStep(s, o)
    case RoleSet(role) => ResetForRole(s, role)
  }

  predicate Runnable(s: ChatState, es: seq<ChatEvent>)
    decreases |es|
  {
    es == [] || (Enabled(s, es[0]) && Runnable(Step(s, es[0]), es[1..]))
  }

  function Run(s: ChatState, es: seq<ChatEvent>): ChatState
    requires Runnable(s, es)
    decreases |es|
  {
    if es == [] then s else Run(Step(s, es[0]), es[1..])
  }

  /** A run that starts with `e` is a step by `e` followed by the rest of the run. */
  lemma RunTail(s: ChatState, e: ChatEvent, es: seq<ChatEvent>)
    requires Enabled(s, e) && Runnable(Step(s, e), es)
    ensures Runnable(s, [e] + es) && Run(s, [e] + es) == Run(Step(s, e), es)
  {
    assert ([e] + es)[1..] == es;
  }

  /** The transcript opens with the greeting of the current role, and every
      user message in it is non-empty and trimmed. */
  predicate WellFormed(s: ChatState) {
    && |s.messages| >= 1
    && s.messages[0] == Message(Assistant, Greeting(s.userRole))
    && forall i :: 1 <= i < |s.messages| && s.messages[i].role == User ==>
         s.messages[i].content != [] && Trimmed(s.messages[i].content)
  }

  lemma StepKeepsWellFormed(s: ChatState, e: ChatEvent)
    requires WellFormed(s) && Enabled(s, e)
    ensures WellFormed(Step(s, e))
  {
    match e
    case SendRequested => SendKeepsWellFormed(s);
    case Completed(o) => AppendKeepsWellFormed(s, Message(Assistant, ReplyText(o)), CompleteStep(s, o));
    case _ =>
  }

  /** An accepted send appends the trimmed, non-empty input as a user
      message and, without a key, the missing-key report after it. */
  lemma SendKeepsWellFormed(s: ChatState)
    requires WellFormed(s)
    ensures WellFormed(SendStep(s))
  {
    if CanSend(s) {
      var m := Message(User, Trim(s.input));
      var t := Asked(s, m);
      AppendKeepsWellFormed(s, m, t);
      if !s.hasKey {
        AppendKeepsWellFormed(t, Message(Assistant, ReplyText(MissingKey)), CompleteStep(t, MissingKey));
      }
    }
  }

  /** Appending a message, non-empty and trimmed if it is the user's, keeps
      the transcript well formed. */
  lemma AppendKeepsWellFormed(s: ChatState, m: Message, t: ChatState)
    requires WellFormed(s) && t.userRole == s.userRole && t.messages == s.messages + [m]
    requires m.role == User ==> m.content != [] && Trimmed(m.content)
    ensures WellFormed(t)
  {
    forall i | 1 <= i < |t.messages| && t.messages[i].role == User
      ensures t.messages[i].content != [] && Trimmed(t.messages[i].content)
    {
      if i < |s.messages| {
        assert t.messages[i] == s.messages[i];
      }
    }
  }

  lemma {:induction false} RunKeepsWellFormed(s: ChatState, es: seq<ChatEvent>)
    requires WellFormed(s) && Runnable(s, es)
    ensures WellFormed(Run(s, es))
    decreases |es|
  {
    if es != [] {
      StepKeepsWellFormed(s, es[0]);
      RunKeepsWellFormed(Step(s, es[0]), es[1..]);
    }
  }

  /** After the greeting, user and assistant messages alternate, starting
      with a user message. */
  predicate Alternates(m: seq<Message>) {
    forall i :: 1 <= i < |m| ==> (m[i].role == User <==> i % 2 == 1)
  }

  /** The alternation holds, and a request is in flight exactly when the last
      message is a user message still waiting for its answer. */
  predicate Paired(s: ChatState) {
    |s.messages| >= 1 && Alternates(s.messages) && (s.isLoading <==> |s.messages| % 2 == 0)
  }

  lemma AppendKeepsAlternation(m: seq<Message>, x: Message)
    requires Alternates(m) && |m| >= 1
    requires x.role == User <==> |m| % 2 == 1
    ensures Alternates(m + [x])
  {
    var r := m + [x];
    forall i | 1 <= i < |r| ensures r[i].role == User <==> i % 2 == 1 {
      if i < |m| { assert r[i] == m[i]; }
    }
  }

  /** The race the source leaves open: the role changes while a request is
      outstanding. */
  predicate Interrupts(s: ChatState, e: ChatEvent) {
    e.RoleSet? && e.role != s.userRole && s.isLoading
  }

  lemma StepKeepsPaired(s: ChatState, e: ChatEvent)
    requires Paired(s) && Enabled(s, e) && !Interrupts(s, e)
    ensures Paired(Step(s, e))
  {
    match e
    case SendRequested => SendKeepsPaired(s);
    case Completed(o) => CompleteKeepsPaired(s, o);
    case RoleSet(role) =>
    case _ =>
  }

  lemma SendKeepsPaired(s: ChatState)
    requires Paired(s)
    ensures Paired(SendStep(s))
  {
    if CanSend(s) {
      AcceptedSendKeepsPaired(s);
    }
  }

  /** An accepted send appends a user message at an odd position. With a key
      it starts the request that the next completion answers; without one the
      missing-key report answers it at once. */
  lemma AcceptedSendKeepsPaired(s: ChatState)
    requires Paired(s) && CanSend(s)
    ensures Paired(SendStep(s))
  {
    var m := Message(User, Trim(s.input));
    AskedKeepsPaired(s, m);
    if !s.hasKey {
      CompleteKeepsPaired(Asked(s, m), MissingKey);
    }
  }

  lemma AskedKeepsPaired(s: ChatState, m: Message)
    requires Paired(s) && !s.isLoading && m.role == User
    ensures Paired(Asked(s, m))
  {
    AppendKeepsAlternation(s.messages, m);
  }

  lemma CompleteKeepsPaired(s: ChatState, o: Outcome)
    requires Paired(s) && s.isLoading
    ensures Paired(CompleteStep(s, o))
  {
    AppendKeepsAlternation(s.messages, Message(Assistant, ReplyText(o)));
  }

  /** A run in which no role change interrupts an outstanding request. */
  predicate Uninterrupted(s: ChatState, es: seq<ChatEvent>)
    requires Runnable(s, es)
    decreases |es|
  {
    es == [] || (!Interrupts(s, es[0]) && Uninterrupted(Step(s, es[0]), es[1..]))
  }

  lemma {:induction false} RunKeepsPaired(s: ChatState, es: seq<ChatEvent>)
    requires Paired(s) && Runnable(s, es) && Uninterrupted(s, es)
    ensures Paired(Run(s, es))
    decreases |es|
  {
    if es != [] {
      StepKeepsPaired(s, es[0]);
      RunKeepsPaired(Step(s, es[0]), es[1..]);
    }
  }

  /** From the widget's first render, as long as no role change lands while a
      request is outstanding, the transcript is the current role's greeting
      followed by user and assistant messages in strict alternation: each
      accepted send is answered by exactly one assistant message. */
  lemma ConversationAlternates(role: Role, hasKey: bool, es: seq<ChatEvent>)
    requires Runnable(Initial(role, hasKey), es) && Uninterrupted(Initial(role, hasKey), es)
    ensures WellFormed(Run(Initial(role, hasKey), es)) && Paired(Run(Initial(role, hasKey), es))
  {
    RunKeepsWellFormed(Initial(role, hasKey), es);
    RunKeepsPaired(Initial(role, hasKey), es);
  }

  /** The race as written: a role change during a request re-seeds the
      transcript but keeps `isLoading`, and the late answer is appended to the
      new role's greeting with no user message before it. */
  lemma RoleChangeMidRequest(s: ChatState, role: Role, o: Outcome)
    requires s.isLoading && role != s.userRole
    ensures CompleteStep(ResetForRole(s, role), o).messages
      == [Message(Assistant, Greeting(role)), Message(Assistant, ReplyText(o))]
    ensures !Paired(CompleteStep(ResetForRole(s, role), o))
  {
    var t := CompleteStep(ResetForRole(s, role), o);
    assert t.messages[1].role == Assistant;
  }

  /** In the open, idle widget with a key, a question typed and sent, then
      the end of its request, adds exactly the trimmed question and one
      answer, whatever the outcome; the input is cleared and loading ends. */
  lemma AskOnce(s: ChatState, q: string, o: Outcome)
    requires s.isOpen && !s.isLoading && s.hasKey && !Blank(q) && !o.MissingKey?
    ensures Runnable(s, [Typed(q), SendRequested, Completed(o)])
    ensures var t := Run(s, [Typed(q), SendRequested, Completed(o)]);
      && t.messages == s.messages + [Message(User, Trim(q)), Message(Assistant, ReplyText(o))]
      && t.input == [] && !t.isLoading
  {
    var s1 := EditInput(s, q);
    SendThenComplete(s1, o);
    var s2 := SendStep(s1);
    var s3 := CompleteStep(s2, o);
    assert Runnable(s3, []) && Run(s3, []) == s3;
    RunTail(s2, Completed(o), []);
    RunTail(s1, SendRequested, [Completed(o)]);
    RunTail(s, Typed(q), [SendRequested, Completed(o)]);
  }

  /** With a key, an accepted send and the end of its request add the
      trimmed input and one answer, and leave the input cleared and loading
      ended. */
  lemma SendThenComplete(s: ChatState, o: Outcome)
    requires CanSend(s) && s.hasKey
    ensures SendStep(s).isLoading
    ensures var t := CompleteStep(SendStep(s), o);
      && t.messages == s.messages + [Message(User, Trim(s.input)), Message(Assistant, ReplyText(o))]
      && t.input == [] && !t.isLoading
  {
    var u := Message(User, Trim(s.input));
    var a := Message(Assistant, ReplyText(o));
    assert SendStep(s) == Asked(s, u);
    assert s.messages + [u] + [a] == s.messages + [u, a];
  }

  /** Without a key, a question typed and sent is answered at once by the
      missing-key report, and no request is left in flight. */
  lemma AskWithoutKey(s: ChatState, q: string)
    requires s.isOpen && !s.isLoading && !s.hasKey && !Blank(q)
    ensures Runnable(s, [Typed(q), SendRequested])
    ensures var t := Run(s, [Typed(q), SendRequested]);
      && t.messages == s.messages + [Message(User, Trim(q)), Message(Assistant, ErrorReport(MissingKeyText))]
      && t.input == [] && !t.isLoading
  {
    var s1 := EditInput(s, q);
    var s2 := SendStep(s1);
    assert Runnable(s2, []) && Run(s2, []) == s2;
    RunTail(s1, SendRequested, []);
    RunTail(s, Typed(q), [SendRequested]);
  }

  /** The key comes from the build environment: no run changes it. */
  lemma {:induction false} RunKeepsKey(s: ChatState, es: seq<ChatEvent>)
    requires Runnable(s, es)
    ensures Run(s, es).hasKey == s.hasKey
    decreases |es|
  {
    if es != [] {
      RunKeepsKey(Step(s, es[0]), es[1..]);
    }
  }

  /** Without a key no request is ever in flight, so no completion can
      arrive and the widget never shows its loading state. */
  lemma {:induction false} NoKeyNeverLoads(s: ChatState, es: seq<ChatEvent>)
    requires !s.hasKey && !s.isLoading && Runnable(s, es)
    ensures !Run(s, es).isLoading
    decreases |es|
  {
    if es != [] {
      var t := Step(s, es[0]);
      assert !t.hasKey && !t.isLoading;
      NoKeyNeverLoads(t, es[1..]);
    }
  }

  /** A run extended by one enabled event ends one step further. */
  lemma {:induction false} RunSnoc(s: ChatState, es: seq<ChatEvent>, e: ChatEvent)
    requires Runnable(s, es) && Enabled(Run(s, es), e)
    ensures Runnable(s, es + [e]) && Run(s, es + [e]) == Step(Run(s, es), e)
    decreases |es|
  {
    if es == [] {
      assert es + [e] == [e] + [];
      RunTail(s, e, []);
    } else {
      assert (es + [e])[1..] == es[1..] + [e];
      RunSnoc(Step(s, es[0]), es[1..], e);
    }
  }

  /** Whatever has been said, switching to another role discards the whole
      conversation: only the new role's greeting is left. */
  lemma SwitchDiscardsConversation(s: ChatState, es: seq<ChatEvent>, b: Role)
    requires Runnable(s, es) && b != Run(s, es).userRole
    ensures Runnable(s, es + [RoleSet(b)])
    ensures Run(s, es + [RoleSet(b)]).messages == Seed(b)
  {
    RunSnoc(s, es, RoleSet(b));
  }

  /** The mounted component. `userRole` is the prop it receives, `hasKey`
      whether the build environment sets the API key; the other fields are its
      state hooks. */
  class AssistantWidget {
    var userRole: Role
    var isOpen: bool
    var input: string
    var messages: seq<Message>
    var isLoading: bool
    const hasKey: bool

    function State(): ChatState
      reads this
    {
      ChatState(userRole, isOpen, input, messages, isLoading, hasKey)
    }

    constructor (userRole: Role, hasKey: bool)
      ensures State() == Initial(userRole, hasKey)
    {
      this.userRole := userRole;
      this.hasKey := hasKey;
      isOpen := false;
      input := "";
      messages := Seed(userRole);
      isLoading := false;
    }

    method Open()
      modifies this
      ensures State() == SetOpen(old(State()), true)
    {
      isOpen := true;
    }

    method Close()
      modifies this
      ensures State() == SetOpen(old(State()), false)
    {
      isOpen := false;
    }

    method Edit(text: string)
      modifies this
      ensures State() == EditInput(old(State()), text)
    {
      input := text;
    }

    /** The effect that depends on the role prop. */
    method OnRoleChange(role: Role)
      modifies this
      ensures State() == ResetForRole(old(State()), role)
    {
      if role != userRole {
        userRole := role;
        messages := Seed(role);
      }
    }

    /** `handleSend` up to its await. It returns the text handed to the
      generation call: None when the send is rejected, and None without a
      key, since the throw comes before any request. The text sent is the
      one the new user message shows. */
    method HandleSend() returns (sent: Option<string>)
      modifies this
      ensures State() == SendStep(old(State()))
      ensures sent.Some? <==> CanSend(old(State())) && hasKey
      ensures sent.Some? ==> sent.value == Trim(old(input)) && messages[|messages| - 1] == Message(User, sent.value)
    {
      ghost var s := State();
      var userMessage := Trim(input);
      if userMessage == [] || isLoading {
        assert !CanSend(s);
        return None;
      }
      input := "";
      messages := messages + [Message(User, userMessage)];
      isLoading := true;
      if !hasKey {
        // the throw is caught before the handler yields
        messages := messages + [Message(Assistant, ReplyText(MissingKey))];
        isLoading := false;
        assert State() == CompleteStep(Asked(s, Message(User, userMessage)), MissingKey);
        return None;
      }
      sent := Some(userMessage);
      assert CanSend(s) && State() == Asked(s, Message(User, userMessage));
    }

    /** `handleSend` after its await: the success or catch branch, then finally. */
    method Complete(outcome: Outcome)
      requires isLoading && !outcome.MissingKey?
      modifies this
      ensures State() == CompleteStep(old(State()), outcome)
    {
      messages := messages + [Message(Assistant, ReplyText(outcome))];
      isLoading := false;
    }
  }
}
