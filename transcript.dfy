/** The chat message view (components/message.tsx): the scanner that finds
    `<function name="…" parameters="…">` tags in a message, the widget each call selects,
    the two transcript updates the embedded token form triggers (success appends the
    contract-address message; cancel strips one tool invocation and appends
    "Action cancelled"), and the comparison that decides when a message re-renders. */
module Transcript {
  import opened Common
  import TokenForm

  const FUNCTION_OPEN: string := "<function"
  const CANCELLED_TEXT: string := "Action cancelled"
  const ADD_LIQUIDITY: string := "addLiquidity"

  datatype FunctionCall = FunctionCall(name: string, parameters: string)

  // ---------------------------------------------------------------------------------
  // The tag scanner: `content.matchAll(/<function[^>]*>/g)`, then in each tag the first
  // `name="([^"]+)"` and the first `parameters="([^"]+)"`.
  // ---------------------------------------------------------------------------------

  /** `s[i..j]` is a match of `<function[^>]*>`: the opening text, then no `>` until the
      one that ends it. */
  predicate IsTag(s: string, i: nat, j: nat) {
    i + |FUNCTION_OPEN| < j <= |s| && IsPrefix(FUNCTION_OPEN, s[i..]) && s[j - 1] == '>'
    && forall k :: i + |FUNCTION_OPEN| <= k < j - 1 ==> s[k] != '>'
  }

  /** The pattern can match at `i`: the opening text is there and some `>` follows it. */
  predicate TagStartsAt(s: string, i: nat)
    requires i <= |s|
  {
    IsPrefix(FUNCTION_OPEN, s[i..]) && IndexOfFrom(s, '>', i + |FUNCTION_OPEN|).Some?
  }

  /** The leftmost match at or after `from`, as start and end (exclusive). */
  function NextTag(s: string, from: nat): (r: Option<(nat, nat)>)
    requires from <= |s|
    decreases |s| - from
    ensures r.Some? ==> from <= r.value.0 && IsTag(s, r.value.0, r.value.1)
    ensures r.Some? ==> forall k :: from <= k < r.value.0 ==> !TagStartsAt(s, k)
    ensures r.None? ==> forall k :: from <= k <= |s| ==> !TagStartsAt(s, k)
  {
    if TagStartsAt(s, from) then Some((from, IndexOfFrom(s, '>', from + |FUNCTION_OPEN|).value + 1))
    else if from == |s| then None
    else NextTag(s, from + 1)
  }

  /** The text `key="` that opens an attribute. */
  function AttrOpen(key: string): string {
    key + "=\""
  }

  /** `key="([^"]+)"` can match at `i`: the opening text, then at least one character
      before the next quote. */
  predicate AttrAt(s: string, pat: string, i: nat)
    requires i <= |s|
  {
    IsPrefix(pat, s[i..])
    && var q := IndexOfFrom(s, '"', i + |pat|);
       q.Some? && q.value > i + |pat|
  }

  /** The leftmost position at or after `from` where the attribute pattern matches. */
  function FindAttr(s: string, pat: string, from: nat): (r: Option<nat>)
    requires from <= |s|
    decreases |s| - from
    ensures r.Some? ==> from <= r.value <= |s| && AttrAt(s, pat, r.value)
    ensures r.Some? ==> forall k :: from <= k < r.value ==> !AttrAt(s, pat, k)
    ensures r.None? ==> forall k :: from <= k <= |s| ==> !AttrAt(s, pat, k)
  {
    if AttrAt(s, pat, from) then Some(from)
    else if from == |s| then None
    else FindAttr(s, pat, from + 1)
  }

  /** The captured value of the first `key="…"` in `tag`: non-empty, free of quotes, and
      standing in the tag between `key="` and a closing quote. */
  function AttrValue(tag: string, key: string): (r: Option<string>)
    ensures r.Some? <==> FindAttr(tag, AttrOpen(key), 0).Some?
    ensures r.Some? ==> r.value != [] && '"' !in r.value
    ensures r.Some? ==>
      var i := FindAttr(tag, AttrOpen(key), 0).value;
      IsPrefix(AttrOpen(key) + r.value + "\"", tag[i..])
  {
    var pat := AttrOpen(key);
    match FindAttr(tag, pat, 0)
    case None => None
    case Some(i) =>
      var q := IndexOfFrom(tag, '"', i + |pat|).value;
      var v := tag[i + |pat|..q];
      assert tag[i..][..|pat| + |v| + 1] == pat + v + "\"";
      Some(v)
  }

  /** The call a tag yields, when it carries both attributes. */
  function CallOf(tag: string): (r: Option<FunctionCall>)
    ensures r.Some? <==> AttrValue(tag, "name").Some? && AttrValue(tag, "parameters").Some?
    ensures r.Some? ==> r.value == FunctionCall(AttrValue(tag, "name").value, AttrValue(tag, "parameters").value)
  {
    match (AttrValue(tag, "name"), AttrValue(tag, "parameters"))
    case (Some(name), Some(parameters)) => Some(FunctionCall(name, parameters))
    case _ => None
  }

  predicate WellFormed(c: FunctionCall) {
    c.name != [] && '"' !in c.name && c.parameters != [] && '"' !in c.parameters
  }

  /** The calls of the tags at or after `from`, in order of appearance; tags missing an
      attribute are skipped. This is the reference definition of the `matchAll` loop: its
      meaning comes from `NextTag`'s leftmost-match contract and `FindAttr`'s, and its own
      `ensures` only give the shape of the result. */
  function CallsFrom(s: string, from: nat): (r: seq<FunctionCall>)
    requires from <= |s|
    decreases |s| - from
    ensures forall c :: c in r ==> WellFormed(c)
    ensures |r| <= |s| - from
  {
    match NextTag(s, from)
    case None => []
    case Some((i, j)) =>
      (match CallOf(s[i..j]) case Some(c) => [c] case None => []) + CallsFrom(s, j)
  }

  /** One scanning step: the calls from `from` are those of the next tag, then the rest. */
  lemma CallsFromUnfold(s: string, from: nat)
    requires from <= |s| && NextTag(s, from).Some?
    ensures var (i, j) := NextTag(s, from).value;
      CallsFrom(s, from) == (if CallOf(s[i..j]).Some? then [CallOf(s[i..j]).value] else []) + CallsFrom(s, j)
  {
  }

  /** `parseFunctionCalls`: one call per qualifying tag, in order; null rather than an
      empty list when no tag qualifies. */
  method ParseFunctionCalls(content: string) returns (r: Option<seq<FunctionCall>>)
    ensures r.Some? <==> CallsFrom(content, 0) != []
    ensures r.Some? ==> r.value == CallsFrom(content, 0)
    ensures r.Some? ==> forall c :: c in r.value ==> WellFormed(c)
  {
    var functions: seq<FunctionCall> := [];
    var pos: nat := 0;
    var next := NextTag(content, pos);
    while next.Some?
      invariant pos <= |content|
      invariant next == NextTag(content, pos)
      invariant functions + CallsFrom(content, pos) == CallsFrom(content, 0)
      decreases |content| - pos
    {
      var i, j := next.value.0, next.value.1;
      var tag := content[i..j];
      var name := AttrValue(tag, "name");
      var parameters := AttrValue(tag, "parameters");
      ghost var rest := CallsFrom(content, j);
      CallsFromUnfold(content, pos);
      if name.Some? && parameters.Some? {
        assert CallsFrom(content, pos) == [FunctionCall(name.value, parameters.value)] + rest;
        functions := functions + [FunctionCall(name.value, parameters.value)];
      } else {
        assert CallsFrom(content, pos) == rest;
      }
      pos := j;
      next := NextTag(content, pos);
    }
    r := if |functions| > 0 then Some(functions) else None;
  }

  /** A content with no `<function` text yields no calls. */
  lemma {:induction false} NoTagNoCalls(s: string, from: nat)
    requires from <= |s|
    requires forall k :: from <= k <= |s| ==> !IsPrefix(FUNCTION_OPEN, s[k..])
    ensures CallsFrom(s, from) == []
  {
  }

  // ---------------------------------------------------------------------------------
  // Rendering the calls.
  // ---------------------------------------------------------------------------------

  datatype Widget = SwapWidget(params: string) | StakeWidget(params: string) | BridgeWidget(params: string)

  /** The widget a call's name selects; any other name renders nothing. */
  function WidgetFor(c: FunctionCall): (r: Option<Widget>)
    ensures c.name == "swap_token" <==> r == Some(SwapWidget(c.parameters))
    ensures c.name == "stake_token" <==> r == Some(StakeWidget(c.parameters))
    ensures c.name == "bridge_token" <==> r == Some(BridgeWidget(c.parameters))
    ensures r.None? <==> c.name !in {"swap_token", "stake_token", "bridge_token"}
  {
    if c.name == "swap_token" then Some(SwapWidget(c.parameters))
    else if c.name == "stake_token" then Some(StakeWidget(c.parameters))
    else if c.name == "bridge_token" then Some(BridgeWidget(c.parameters))
    else None
  }

  /** The widgets rendered for a list of calls, in order. */
  function WidgetsFor(calls: seq<FunctionCall>): (r: seq<Widget>)
    ensures |r| <= |calls|
    ensures forall w :: w in r ==> exists c :: c in calls && WidgetFor(c) == Some(w)
    ensures forall c :: c in calls && WidgetFor(c).Some? ==> WidgetFor(c).value in r
  {
    if calls == [] then []
    else
      (match WidgetFor(calls[0]) case Some(w) => [w] case None => []) + WidgetsFor(calls[1..])
  }

  /** The widgets keep the calls' order, one per call with a known name: rendering a
      concatenation renders each part. */
  lemma {:induction false} WidgetsForAppend(a: seq<FunctionCall>, b: seq<FunctionCall>)
    ensures WidgetsFor(a + b) == WidgetsFor(a) + WidgetsFor(b)
  {
    if a == [] {
      assert a + b == b;
    } else {
      assert (a + b)[0] == a[0];
      assert (a + b)[1..] == a[1..] + b;
      WidgetsForAppend(a[1..], b);
    }
  }

  /** A single call renders its own widget, or nothing for an unknown name. */
  lemma WidgetsForSingle(c: FunctionCall)
    ensures WidgetFor(c).Some? ==> WidgetsFor([c]) == [WidgetFor(c).value]
    ensures WidgetFor(c).None? ==> WidgetsFor([c]) == []
  {
    assert [c][1..] == [];
  }

  datatype Role = User | Assistant | System | Data
  datatype InvocationState = PartialCall | Call | Result

  /** A tool invocation. Its `result`, when there is one, is an arbitrary value compared by
      identity (`handle`), as for non-text content. */
  datatype ToolInvocation = ToolInvocation(
    toolCallId: string, toolName: string, state: InvocationState, args: map<string, string>, result: Option<nat>)

  /** A message's content: text, or some other value (compared by identity, `handle`). */
  datatype Content = Text(text: string) | NonText(handle: nat)

  datatype Message = Message(id: string, role: Role, content: Content, toolInvocations: Option<seq<ToolInvocation>>, createdAt: int)

  /** What the message body shows: nothing (empty content), the selected widgets, or the
      content as Markdown. */
  datatype Body = NoBody | Widgets(widgets: seq<Widget>) | Markdown(content: Content)

  /** The message body in view mode, from the content and the parsed calls. */
  function BodyOf(content: Content, calls: Option<seq<FunctionCall>>): (r: Body)
    ensures content == Text("") <==> r.NoBody?
    ensures r.Markdown? <==> content != Text("") && calls.None?
    ensures r.Markdown? ==> r.content == content
    ensures r.Widgets? ==> calls.Some? && r.widgets == WidgetsFor(calls.value)
  {
    if content == Text("") then NoBody
    else match calls
      case Some(cs) => Widgets(WidgetsFor(cs))
      case None => Markdown(content)
  }

  /** `messageFunctions`: only text content is scanned. */
  method MessageFunctions(m: Message) returns (r: Option<seq<FunctionCall>>)
    ensures m.content.NonText? ==> r.None?
    ensures m.content.Text? ==> (r.Some? <==> CallsFrom(m.content.text, 0) != [])
    ensures r.Some? ==> m.content.Text? && r.value == CallsFrom(m.content.text, 0)
  {
    match m.content
    case NonText(_) => r := None;
    case Text(s) => r := ParseFunctionCalls(s);
  }

  // ---------------------------------------------------------------------------------
  // The two transcript updates. Each `setMessages` updater is one atomic transform; the
  // `persisted` list is what is handed to the persistence call.
  // ---------------------------------------------------------------------------------

  datatype Update = Update(messages: seq<Message>, persisted: seq<Message>)

  /** The message announcing a launched token. */
  function LaunchedMessage(tokenAddress: string, id: string, callId: string, now: int): (r: Message)
    ensures r.id == id && r.role == Assistant && r.createdAt == now
    ensures r.content == Text(TokenForm.CA_PREFIX + "`" + tokenAddress + "`")
    ensures r.toolInvocations == Some([ToolInvocation(callId, ADD_LIQUIDITY, Result, map["tokenAddress" := tokenAddress], None)])
  {
    Message(id, Assistant, Text(TokenForm.CA_PREFIX + "`" + tokenAddress + "`"),
      Some([ToolInvocation(callId, ADD_LIQUIDITY, Result, map["tokenAddress" := tokenAddress], None)]), now)
  }

  /** The form's success callback: append exactly one message, persist only it. */
  function OnSuccess(messages: seq<Message>, tokenAddress: string, id: string, callId: string, now: int): (r: Update)
    ensures |r.messages| == |messages| + 1
    ensures r.messages[..|messages|] == messages
    ensures r.messages[|messages|] == LaunchedMessage(tokenAddress, id, callId, now)
    ensures r.persisted == [r.messages[|messages|]]
  {
    var m := LaunchedMessage(tokenAddress, id, callId, now);
    Update(messages + [m], [m])
  }

  /** `toolInvocations.filter(inv => inv.toolCallId !== callId)`. */
  function RemoveCall(invs: seq<ToolInvocation>, callId: string): (r: seq<ToolInvocation>)
    ensures |r| <= |invs|
    ensures forall k :: 0 <= k < |r| ==> r[k].toolCallId != callId
    ensures forall t: ToolInvocation :: t.toolCallId != callId ==> multiset(r)[t] == multiset(invs)[t]
    ensures (forall k :: 0 <= k < |invs| ==> invs[k].toolCallId != callId) ==> r == invs
  {
    if invs == [] then []
    else
      assert invs == [invs[0]] + invs[1..];
      (if invs[0].toolCallId != callId then [invs[0]] else []) + RemoveCall(invs[1..], callId)
  }

  /** Filtering keeps the order: it distributes over concatenation. */
  lemma {:induction false} RemoveCallAppend(a: seq<ToolInvocation>, b: seq<ToolInvocation>, callId: string)
    ensures RemoveCall(a + b, callId) == RemoveCall(a, callId) + RemoveCall(b, callId)
  {
    if a == [] {
      assert a + b == b;
    } else {
      var head := if a[0].toolCallId != callId then [a[0]] else [];
      assert (a + b)[0] == a[0];
      assert (a + b)[1..] == a[1..] + b;
      calc {
        RemoveCall(a + b, callId);
        head + RemoveCall(a[1..] + b, callId);
        { RemoveCallAppend(a[1..], b, callId); }
        head + (RemoveCall(a[1..], callId) + RemoveCall(b, callId));
        (head + RemoveCall(a[1..], callId)) + RemoveCall(b, callId);
        RemoveCall(a, callId) + RemoveCall(b, callId);
      }
    }
  }

  /** A message with one tool invocation removed; a message without invocations keeps none. */
  function WithoutCall(m: Message, callId: string): (r: Message)
    ensures r == m.(toolInvocations := r.toolInvocations)
    ensures m.toolInvocations.None? ==> r.toolInvocations.None?
    ensures m.toolInvocations.Some? ==> r.toolInvocations == Some(RemoveCall(m.toolInvocations.value, callId))
  {
    match m.toolInvocations
    case None => m
    case Some(invs) => m.(toolInvocations := Some(RemoveCall(invs, callId)))
  }

  function CancelledMessage(id: string, now: int): Message {
    Message(id, Assistant, Text(CANCELLED_TEXT), None, now)
  }

  /** The form's cancel callback: in every message with the form's message id, drop the
      invocations carrying the form's call id; leave every other message as it was; append
      one "Action cancelled" message and persist the whole list. */
  function OnCancel(messages: seq<Message>, messageId: string, callId: string, id: string, now: int): (r: Update)
    ensures |r.messages| == |messages| + 1
    ensures forall i :: 0 <= i < |messages| && messages[i].id != messageId ==> r.messages[i] == messages[i]
    ensures forall i :: 0 <= i < |messages| && messages[i].id == messageId ==>
      r.messages[i] == WithoutCall(messages[i], callId)
    ensures r.messages[|messages|] == CancelledMessage(id, now)
    ensures r.persisted == r.messages
  {
    var mapped := seq(|messages|, i requires 0 <= i < |messages| =>
      if messages[i].id == messageId then WithoutCall(messages[i], callId) else messages[i]);
    var all := mapped + [CancelledMessage(id, now)];
    Update(all, all)
  }

  /** Cancelling twice strips nothing more the second time, but appends a second
      "Action cancelled" message: nothing checks that the invocation was still there. */
  lemma CancelTwice(messages: seq<Message>, messageId: string, callId: string, id1: string, id2: string, now1: int, now2: int)
    ensures var once := OnCancel(messages, messageId, callId, id1, now1).messages;
            var twice := OnCancel(once, messageId, callId, id2, now2).messages;
            |twice| == |messages| + 2
            && twice[..|messages| + 1] == once
            && twice[|messages| + 1] == CancelledMessage(id2, now2)
  {
    var once := OnCancel(messages, messageId, callId, id1, now1).messages;
    var twice := OnCancel(once, messageId, callId, id2, now2).messages;
    forall i | 0 <= i < |once|
      ensures twice[i] == once[i]
    {
      if once[i].id == messageId && once[i].toolInvocations.Some? {
        if i < |messages| {
          assert once[i] == WithoutCall(messages[i], callId);
        }
      }
    }
  }

  // ---------------------------------------------------------------------------------
  // Re-render decision.
  // ---------------------------------------------------------------------------------

  datatype Vote = Vote(chatId: string, messageId: string, isUpvoted: bool)

  datatype Props = Props(chatId: string, message: Message, vote: Option<Vote>, isLoading: bool, isReadonly: bool)

  /** The memo comparator: re-rendering is skipped exactly when the loading flag, the
      content, the tool invocations and the vote are all equal (the last two deeply). */
  predicate SkipRerender(prev: Props, next: Props): (r: bool)
    // skipping means the two renders differ at most in the props the comparator ignores
    ensures r <==> next == prev.(chatId := next.chatId, isReadonly := next.isReadonly,
                                 message := prev.message.(id := next.message.id, role := next.message.role,
                                                          createdAt := next.message.createdAt))
  {
    && prev.isLoading == next.isLoading
    && prev.message.content == next.message.content
    && prev.message.toolInvocations == next.message.toolInvocations
    && prev.vote == next.vote
  }

  /** Changing anything the comparator does not look at never re-renders. */
  lemma UnwatchedChangesSkip(p: Props, chatId: string, isReadonly: bool, id: string, role: Role, createdAt: int)
    ensures SkipRerender(p, p.(chatId := chatId, isReadonly := isReadonly,
                               message := p.message.(id := id, role := role, createdAt := createdAt)))
  {
  }

  /** Changing any watched field always re-renders. */
  lemma WatchedChangesRerender(p: Props, q: Props)
    requires p.isLoading != q.isLoading || p.message.content != q.message.content
          || p.message.toolInvocations != q.message.toolInvocations || p.vote != q.vote
    ensures !SkipRerender(p, q) && !SkipRerender(q, p)
  {
  }

  /** The invocations are compared deeply, results included: a change in one invocation's
      result alone re-renders. */
  lemma ResultChangeRerenders(p: Props, k: nat, result: Option<nat>)
    requires p.message.toolInvocations.Some? && k < |p.message.toolInvocations.value|
    requires p.message.toolInvocations.value[k].result != result
    ensures var invs := p.message.toolInvocations.value;
      !SkipRerender(p, p.(message := p.message.(toolInvocations := Some(invs[k := invs[k].(result := result)]))))
  {
    var invs := p.message.toolInvocations.value;
    assert invs[k := invs[k].(result := result)][k].result == result;
  }

  /** A cancel re-renders the form's own message exactly when it removed an invocation. */
  lemma CancelRerendersOnlyWhenStripped(p: Props, callId: string)
    requires p.message.toolInvocations.Some?
    ensures SkipRerender(p, p.(message := WithoutCall(p.message, callId)))
        <==> forall k :: 0 <= k < |p.message.toolInvocations.value| ==>
               p.message.toolInvocations.value[k].toolCallId != callId
  {
    var invs := p.message.toolInvocations.value;
    if exists k :: 0 <= k < |invs| && invs[k].toolCallId == callId {
      var k :| 0 <= k < |invs| && invs[k].toolCallId == callId;
      assert RemoveCall(invs, callId) != invs;
    }
  }
}
