/** The OneBot frames the listener receives and the actions it writes back, as decoded values. */
module OneBot {
  import opened Wrappers

  /** A user or group number as the gateway sends it. */
  type Id = int

  // The literals the router compares frame fields with.
  const MetaEventPost := "meta_event"
  const HeartbeatEvent := "heartbeat"
  const MessagePost := "message"
  const PrivateMessage := "private"
  const GroupMessage := "group"

  // The two outbound action names; each is also the action's echo tag.
  const SendPrivateMsg := "send_private_msg"
  const SendGroupMsg := "send_group_msg"

  /**
   * A frame that decoded to a JSON object. Each field is the value under one key
   * the router reads, `None` when the key is absent. In the three fields compared
   * with the literals above, a value that is not a string compares unequal to
   * every literal, exactly as an absent one does, so it is written `None` too.
   * `senderUserId` is `sender.user_id`: `None` when either key is missing.
   */
  datatype Frame = Frame(
    postType: Option<string>,
    metaEventType: Option<string>,
    messageType: Option<string>,
    groupId: Option<Id>,
    senderUserId: Option<Id>,
    rawMessage: Option<string>)

  /** A text frame as it arrives: not a JSON object at all, or a decoded object. */
  datatype RawFrame = NotAnObject | Decoded(frame: Frame)

  /** The four ways the receive loop treats a decoded frame. */
  datatype FrameKind = HeartbeatFrame | PrivateFrame | GroupFrame | OtherFrame

  /**
   * The receive loop's if/elif chain: heartbeat meta events first, then message
   * frames by `message_type`; everything else falls through and is dropped.
   */
  function Classify(f: Frame): (k: FrameKind)
    ensures k == HeartbeatFrame <==> f.postType == Some(MetaEventPost) && f.metaEventType == Some(HeartbeatEvent)
    ensures k == PrivateFrame <==> f.postType == Some(MessagePost) && f.messageType == Some(PrivateMessage)
    ensures k == GroupFrame <==> f.postType == Some(MessagePost) && f.messageType == Some(GroupMessage)
    ensures k == OtherFrame <==>
      !(f.postType == Some(MetaEventPost) && f.metaEventType == Some(HeartbeatEvent)) &&
      (f.postType != Some(MessagePost) || f.messageType !in {Some(PrivateMessage), Some(GroupMessage)})
  {
    if f.postType == Some(MetaEventPost) && f.metaEventType == Some(HeartbeatEvent) then HeartbeatFrame
    else if f.postType == Some(MessagePost) then
      if f.messageType == Some(PrivateMessage) then PrivateFrame
      else if f.messageType == Some(GroupMessage) then GroupFrame
      else OtherFrame
    else OtherFrame
  }

  /** The `params` object of an outbound action: the recipient and the text. */
  datatype Params = UserParams(userId: Id, message: string) | GroupParams(groupId: Id, message: string)

  /** An outbound action frame `{action, params, echo}`, before JSON encoding. */
  datatype Action = Action(action: string, params: Params, echo: string)

  /** A chat a reply goes to: a user for a private message, a group for a group message. */
  datatype Conversation = PrivateChat(userId: Id) | GroupChat(groupId: Id) {

    /** The identity the AI backend is asked on behalf of. */
    function Identity(): Id {
      match this
      case PrivateChat(u) => u
      case GroupChat(g) => g
    }
  }

  /** An action the gateway accepts: the echo tag repeats the action name, which matches the params. */
  predicate WellFormed(a: Action) {
    a.echo == a.action &&
    (a.action == SendPrivateMsg <==> a.params.UserParams?) &&
    (a.action == SendGroupMsg <==> a.params.GroupParams?)
  }

  /** The chat an action is addressed to. */
  function Recipient(a: Action): Conversation {
    match a.params
    case UserParams(u, _) => PrivateChat(u)
    case GroupParams(g, _) => GroupChat(g)
  }

  /** The reply dictionary built before each `websocket.send`. */
  function Reply(c: Conversation, message: string): (a: Action)
    ensures WellFormed(a)
    ensures Recipient(a) == c && a.params.message == message
  {
    match c
    case PrivateChat(u) => Action(SendPrivateMsg, UserParams(u, message), SendPrivateMsg)
    case GroupChat(g) => Action(SendGroupMsg, GroupParams(g, message), SendGroupMsg)
  }
}
