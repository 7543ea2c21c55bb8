/**
 * The per-frame decision of the message listener: which collaborators a frame
 * reaches and which reply, if any, it produces. The collaborators (group
 * settings, the plugin manager, the AI backend) are given as the answers they
 * return, and every consultation is recorded in a trace of calls.
 */
module Router {
  import opened Wrappers
  import opened OneBot

  /** What `PluginManager.handle_message` returns: `{handled, reply}`. */
  datatype PluginResult = PluginResult(handled: bool, reply: Option<string>)

  /**
   * The collaborators, as functions from what they are asked to what they answer.
   * `enabledSetting(g)` is the `enabled` entry of group g's chat setting (`None`
   * when the setting has no such key, its truth value otherwise); `ask` is the AI
   * request followed by extracting its answer (`None` when there is none).
   */
  datatype Oracles = Oracles(
    enabledSetting: Id -> Option<bool>,
    handleMessage: Frame -> PluginResult,
    ask: (string, Id, bool) -> Option<string>)

  /** One consultation of a collaborator. */
  datatype Call =
    | LoadPlugins
    | SettingLookup(groupId: Id)
    | PluginCall(frame: Frame)
    | AiCall(text: string, identity: Id, isGroup: bool)

  /**
   * The errors a frame raises inside the loop: `json.loads` or `.get` failing on
   * something that is not an object, and the unguarded `['group_id']` and
   * `['sender']['user_id']` lookups. Nothing in the loop catches them.
   */
  datatype FrameError = NotJsonObject | MissingGroupId | MissingSenderUserId

  /** What dispatching one message does: the reply sent, if any, and the calls made. */
  datatype Dispatch = Dispatch(reply: Option<Action>, calls: seq<Call>)

  /** What the receive loop does with one frame. */
  datatype Routed = Heartbeat(frame: Frame) | Ignored | Dispatched(dispatch: Dispatch)

  /** `raw_message`, or the empty string when the key is absent. */
  function MessageText(f: Frame): string {
    f.rawMessage.GetOr("")
  }

  /** Python truthiness of the AI answer: present and non-empty. */
  predicate Truthy(answer: Option<string>) {
    answer.Some? && answer.value != ""
  }

  /** `group_setting.get('enabled', True)`: a group is enabled unless its setting says otherwise. */
  predicate GroupEnabled(setting: Option<bool>) {
    setting.GetOr(true)
  }

  /** The calls made before the plugin chain: the group setting lookup for a group chat. */
  function GateCalls(c: Conversation): seq<Call> {
    match c
    case PrivateChat(_) => []
    case GroupChat(g) => [SettingLookup(g)]
  }

  /**
   * The part common to both message handlers: ask the plugin manager first; a
   * handled result is final (its reply is sent when it is not `None`, even when
   * empty); otherwise ask the AI once and send its answer when it is truthy.
   */
  function PluginThenAi(f: Frame, c: Conversation, o: Oracles): (d: Dispatch)
    ensures 1 <= |d.calls| <= 2 && d.calls[0] == PluginCall(f)
    ensures |d.calls| == 2 <==> !o.handleMessage(f).handled
    ensures |d.calls| == 2 ==> d.calls[1] == AiCall(MessageText(f), c.Identity(), c.GroupChat?)
    ensures d.reply.Some? ==> WellFormed(d.reply.value) && Recipient(d.reply.value) == c
  {
    var result := o.handleMessage(f);
    if result.handled then
      match result.reply
      case Some(m) => Dispatch(Some(Reply(c, m)), [PluginCall(f)])
      case None => Dispatch(None, [PluginCall(f)])
    else
      var text := MessageText(f);
      var answer := o.ask(text, c.Identity(), c.GroupChat?);
      var calls := [PluginCall(f), AiCall(text, c.Identity(), c.GroupChat?)];
      if Truthy(answer) then Dispatch(Some(Reply(c, answer.value)), calls)
      else Dispatch(None, calls)
  }

  /** `process_private_message`: reads `sender.user_id`, then plugin, then AI. */
  function ProcessPrivate(f: Frame, o: Oracles): (r: Result<Dispatch, FrameError>)
    ensures r.Failure? <==> f.senderUserId.None?
    ensures r.Failure? ==> r.error == MissingSenderUserId
    ensures r.Success? ==> |r.value.calls| >= 1 && r.value.calls[0] == PluginCall(f)
    ensures r.Success? && r.value.reply.Some? ==>
      WellFormed(r.value.reply.value) && Recipient(r.value.reply.value) == PrivateChat(f.senderUserId.value)
  {
    match f.senderUserId
    case None => Failure(MissingSenderUserId)
    case Some(u) => Success(PluginThenAi(f, PrivateChat(u), o))
  }

  /**
   * `process_group_message`: reads `group_id` and `sender.user_id`, consults the
   * group's setting, and only for an enabled group goes on to plugin and AI.
   */
  function ProcessGroup(f: Frame, o: Oracles): (r: Result<Dispatch, FrameError>)
    ensures f.groupId.None? ==> r == Failure(MissingGroupId)
    ensures f.groupId.Some? && f.senderUserId.None? ==> r == Failure(MissingSenderUserId)
    ensures r.Success? <==> f.groupId.Some? && f.senderUserId.Some?
    ensures r.Success? ==> |r.value.calls| >= 1 && r.value.calls[0] == SettingLookup(f.groupId.value)
    ensures r.Success? ==> (|r.value.calls| == 1 <==> !GroupEnabled(o.enabledSetting(f.groupId.value)))
    ensures r.Success? && r.value.reply.Some? ==>
      WellFormed(r.value.reply.value) && Recipient(r.value.reply.value) == GroupChat(f.groupId.value)
  {
    match f.groupId
    case None => Failure(MissingGroupId)
    case Some(g) =>
      if f.senderUserId.None? then Failure(MissingSenderUserId)
      else if !GroupEnabled(o.enabledSetting(g)) then Success(Dispatch(None, [SettingLookup(g)]))
      else
        var d := PluginThenAi(f, GroupChat(g), o);
        Success(Dispatch(d.reply, [SettingLookup(g)] + d.calls))
  }

  /** One iteration of the receive loop, from the received text to what it does. */
  function RouteFrame(raw: RawFrame, o: Oracles): (r: Result<Routed, FrameError>)
    ensures raw.NotAnObject? ==> r == Failure(NotJsonObject)
    ensures r.Success? && r.value.Heartbeat? ==>
      raw.Decoded? && r.value.frame == raw.frame && Classify(raw.frame) == HeartbeatFrame
    ensures r.Failure? ==> raw.NotAnObject? || Classify(raw.frame) in {PrivateFrame, GroupFrame}
    ensures ReplyOf(r).Some? ==> WellFormed(ReplyOf(r).value)
  {
    match raw
    case NotAnObject => Failure(NotJsonObject)
    case Decoded(f) =>
      match Classify(f)
      case HeartbeatFrame => Success(Heartbeat(f))
      case PrivateFrame =>
        (match ProcessPrivate(f, o)
         case Failure(e) => Failure(e)
         case Success(d) => Success(Dispatched(d)))
      case GroupFrame =>
        (match ProcessGroup(f, o)
         case Failure(e) => Failure(e)
         case Success(d) => Success(Dispatched(d)))
      case OtherFrame => Success(Ignored)
  }

  /** The action a routed frame sends, if any. */
  function ReplyOf(r: Result<Routed, FrameError>): Option<Action> {
    if r.Success? && r.value.Dispatched? then r.value.dispatch.reply else None
  }

  /** The collaborator calls a routed frame makes. */
  function CallsOf(r: Result<Routed, FrameError>): seq<Call> {
    if r.Success? && r.value.Dispatched? then r.value.dispatch.calls else []
  }

  /** The conversation a message frame belongs to, when it carries the fields its handler reads. */
  function ConversationOf(f: Frame): Option<Conversation> {
    match Classify(f)
    case PrivateFrame =>
      if f.senderUserId.Some? then Some(PrivateChat(f.senderUserId.value)) else None
    case GroupFrame =>
      if f.groupId.Some? && f.senderUserId.Some? then Some(GroupChat(f.groupId.value)) else None
    case _ => None
  }

  /** A message frame of chat c that passes the group policy gate (private chats always do). */
  predicate Admitted(f: Frame, o: Oracles, c: Conversation) {
    ConversationOf(f) == Some(c) && (c.GroupChat? ==> GroupEnabled(o.enabledSetting(c.groupId)))
  }

  // ---------------------------------------------------------------------------
  // The routing decision, case by case.

  /** A heartbeat goes to the heartbeat handler only: no reply, no collaborator call. */
  lemma HeartbeatOnlyRecorded(f: Frame, o: Oracles)
    requires Classify(f) == HeartbeatFrame
    ensures RouteFrame(Decoded(f), o) == Success(Heartbeat(f))
    ensures ReplyOf(RouteFrame(Decoded(f), o)) == None && CallsOf(RouteFrame(Decoded(f), o)) == []
  {
  }

  /**
   * A frame that is neither a heartbeat meta event nor a private or group
   * message is dropped: no reply, no call, and the loop goes on.
   */
  lemma OtherFrameDropped(f: Frame, o: Oracles)
    requires Classify(f) == OtherFrame
    ensures RouteFrame(Decoded(f), o) == Success(Ignored)
    ensures ReplyOf(RouteFrame(Decoded(f), o)) == None && CallsOf(RouteFrame(Decoded(f), o)) == []
  {
  }

  /**
   * A malformed frame is not skipped: a text that is not an object, and a
   * message frame without the fields its handler indexes, raise an error.
   */
  lemma MalformedFrameRaises(raw: RawFrame, o: Oracles)
    requires raw.NotAnObject? || (Classify(raw.frame) in {PrivateFrame, GroupFrame} && ConversationOf(raw.frame) == None)
    ensures RouteFrame(raw, o).Failure?
  {
  }

  /** Every message frame carrying its fields gets through to dispatch: only those errors exist. */
  lemma WellFormedMessageDispatched(f: Frame, o: Oracles, c: Conversation)
    requires ConversationOf(f) == Some(c)
    ensures RouteFrame(Decoded(f), o).Success? && RouteFrame(Decoded(f), o).value.Dispatched?
  {
  }

  /**
   * A group whose setting says `enabled` is false is answered by nobody: the
   * setting lookup is the only call and nothing is sent.
   */
  lemma DisabledGroupShortCircuits(f: Frame, o: Oracles, g: Id)
    requires ConversationOf(f) == Some(GroupChat(g)) && !GroupEnabled(o.enabledSetting(g))
    ensures RouteFrame(Decoded(f), o) == Success(Dispatched(Dispatch(None, [SettingLookup(g)])))
  {
  }

  /** A group setting without an `enabled` key lets the message through to the plugins. */
  lemma MissingSettingEnables(f: Frame, o: Oracles, g: Id)
    requires ConversationOf(f) == Some(GroupChat(g)) && o.enabledSetting(g) == None
    ensures Admitted(f, o, GroupChat(g))
    ensures CallsOf(RouteFrame(Decoded(f), o))[..2] == [SettingLookup(g), PluginCall(f)]
  {
  }

  /**
   * A plugin that handles the message with reply m wins: exactly one action,
   * to the message's own chat, carrying m (the empty string included), and the
   * AI is never asked.
   */
  lemma PluginReplySent(f: Frame, o: Oracles, c: Conversation, m: string)
    requires Admitted(f, o, c) && o.handleMessage(f) == PluginResult(true, Some(m))
    ensures RouteFrame(Decoded(f), o) == Success(Dispatched(Dispatch(Some(Reply(c, m)), GateCalls(c) + [PluginCall(f)])))
  {
    assert GateCalls(c) + [PluginCall(f)] == if c.GroupChat? then [SettingLookup(c.groupId), PluginCall(f)] else [PluginCall(f)];
  }

  /** A plugin that handles the message with reply `None` suppresses it: nothing sent, no AI call. */
  lemma PluginSuppresses(f: Frame, o: Oracles, c: Conversation)
    requires Admitted(f, o, c) && o.handleMessage(f) == PluginResult(true, None)
    ensures RouteFrame(Decoded(f), o) == Success(Dispatched(Dispatch(None, GateCalls(c) + [PluginCall(f)])))
  {
    assert GateCalls(c) + [PluginCall(f)] == if c.GroupChat? then [SettingLookup(c.groupId), PluginCall(f)] else [PluginCall(f)];
  }

  /**
   * An unhandled message is put to the AI exactly once, with its text (empty
   * when absent), the user or group identity and the group flag; a truthy
   * answer is sent to the same chat, any other answer sends nothing.
   */
  lemma AiFallback(f: Frame, o: Oracles, c: Conversation)
    requires Admitted(f, o, c) && !o.handleMessage(f).handled
    ensures var r := RouteFrame(Decoded(f), o);
      CallsOf(r) == GateCalls(c) + [PluginCall(f), AiCall(MessageText(f), c.Identity(), c.GroupChat?)]
    ensures var answer := o.ask(MessageText(f), c.Identity(), c.GroupChat?);
      Truthy(answer) ==> ReplyOf(RouteFrame(Decoded(f), o)) == Some(Reply(c, answer.value))
    ensures !Truthy(o.ask(MessageText(f), c.Identity(), c.GroupChat?)) ==> ReplyOf(RouteFrame(Decoded(f), o)) == None
  {
  }

  // ---------------------------------------------------------------------------
  // Worked cases.

  /** A private "hi" from user 42 that no plugin handles, answered "hello" by the AI. */
  lemma PrivateAiScenario(f: Frame, o: Oracles)
    requires f == Frame(Some(MessagePost), None, Some(PrivateMessage), None, Some(42), Some("hi"))
    requires !o.handleMessage(f).handled && o.ask("hi", 42, false) == Some("hello")
    ensures RouteFrame(Decoded(f), o) ==
      Success(Dispatched(Dispatch(
        Some(Action(SendPrivateMsg, UserParams(42, "hello"), SendPrivateMsg)),
        [PluginCall(f), AiCall("hi", 42, false)])))
  {
  }

  /** A message to group 100, whose setting disables it: no plugin, no AI, nothing sent. */
  lemma DisabledGroupScenario(f: Frame, o: Oracles)
    requires f.postType == Some(MessagePost) && f.messageType == Some(GroupMessage)
    requires f.groupId == Some(100) && f.senderUserId.Some? && o.enabledSetting(100) == Some(false)
    ensures ReplyOf(RouteFrame(Decoded(f), o)) == None
    ensures CallsOf(RouteFrame(Decoded(f), o)) == [SettingLookup(100)]
  {
  }

  /** A message to enabled group 200 that a plugin answers "pong": the AI is never asked. */
  lemma GroupPluginScenario(f: Frame, o: Oracles)
    requires f.postType == Some(MessagePost) && f.messageType == Some(GroupMessage)
    requires f.groupId == Some(200) && f.senderUserId.Some? && o.enabledSetting(200) != Some(false)
    requires o.handleMessage(f) == PluginResult(true, Some("pong"))
    ensures ReplyOf(RouteFrame(Decoded(f), o)) == Some(Action(SendGroupMsg, GroupParams(200, "pong"), SendGroupMsg))
    ensures CallsOf(RouteFrame(Decoded(f), o)) == [SettingLookup(200), PluginCall(f)]
  {
  }
}
