/**
 * The connection handler of the message listener: the path check, then a
 * receive loop that routes each frame in arrival order until the connection
 * closes or a frame raises. `Replay` is its specification on values; the
 * `MessageListener.Handler` method is the loop itself, proved to do what
 * `Replay` says.
 */
module Listener {
  import opened Wrappers
  import opened OneBot
  import opened Router

  /** What a connection's frames have done so far. */
  datatype Session = Session(
    heartbeats: seq<Frame>,    // frames handed to the heartbeat handler, in order
    sent: seq<Action>,         // actions written to the socket, in order
    origins: seq<nat>,         // origins[j] is the position of the frame that triggered sent[j]
    calls: seq<Call>,          // collaborators consulted, in order
    seen: nat,                 // frames routed without raising
    fault: Option<FrameError>) // the error that ended the loop, if one did

  const Fresh := Session([], [], [], [], 0, None)

  /** The actions a reply puts on the socket: none or one. */
  function Sends(reply: Option<Action>): seq<Action> {
    match reply
    case Some(a) => [a]
    case None => []
  }

  /** The frames a routed frame hands to the heartbeat handler: itself for a heartbeat, else none. */
  function Recorded(r: Result<Routed, FrameError>): seq<Frame> {
    if r.Success? && r.value.Heartbeat? then [r.value.frame] else []
  }

  /** The error a routed frame raises, if any. */
  function Raised(r: Result<Routed, FrameError>): Option<FrameError> {
    if r.Failure? then Some(r.error) else None
  }

  /** The session after the loop has received one more frame, routed with oracle o. */
  function Advance(s: Session, raw: RawFrame, o: Oracles): Session {
    if s.fault.Some? then s
    else
      match RouteFrame(raw, o)
      case Failure(e) => s.(fault := Some(e))
      case Success(Heartbeat(f)) => s.(heartbeats := s.heartbeats + [f], seen := s.seen + 1)
      case Success(Ignored) => s.(seen := s.seen + 1)
      case Success(Dispatched(d)) =>
        s.(sent := s.sent + Sends(d.reply),
           origins := s.origins + (if d.reply.Some? then [s.seen] else []),
           calls := s.calls + d.calls,
           seen := s.seen + 1)
  }

  /**
   * The loop over a connection's frames, the i-th routed with `env(i)` (the
   * collaborators may answer differently from one frame to the next). A frame
   * that raises ends the loop; the frames after it are never routed.
   */
  function Replay(frames: seq<RawFrame>, env: nat -> Oracles): (s: Session)
    ensures s.seen <= |frames|
    ensures s.fault.None? <==> s.seen == |frames|
    ensures |s.origins| == |s.sent|
    decreases |frames|
  {
    if |frames| == 0 then Fresh
    else
      var n := |frames| - 1;
      Advance(Replay(frames[..n], env), frames[n], env(n))
  }

  /** The heartbeat frames among `frames`, in order: a reference for what the handler records. */
  function HeartbeatFrames(frames: seq<RawFrame>): seq<Frame>
    decreases |frames|
  {
    if |frames| == 0 then []
    else
      var n := |frames| - 1;
      var last := frames[n];
      HeartbeatFrames(frames[..n]) +
        (if last.Decoded? && Classify(last.frame) == HeartbeatFrame then [last.frame] else [])
  }

  /** The collaborator calls routing makes for each of `frames` in turn: a reference for the trace. */
  function CallsFrames(frames: seq<RawFrame>, env: nat -> Oracles): seq<Call>
    decreases |frames|
  {
    if |frames| == 0 then []
    else
      var n := |frames| - 1;
      CallsFrames(frames[..n], env) + CallsOf(RouteFrame(frames[n], env(n)))
  }

  // ---------------------------------------------------------------------------
  // What a connection does, over all its frames.

  /** Every frame before position `seen` routes without raising; a fault is the error of the frame at `seen`. */
  ghost predicate EndsAtFirstFault(s: Session, frames: seq<RawFrame>, env: nat -> Oracles) {
    s.seen <= |frames| &&
    (forall i :: 0 <= i < s.seen ==> RouteFrame(frames[i], env(i)).Success?) &&
    (s.fault.Some? ==> s.seen < |frames| && RouteFrame(frames[s.seen], env(s.seen)) == Failure(s.fault.value))
  }

  /** Each action sent is the reply routing gives its triggering frame, one the loop has routed. */
  ghost predicate RepliesMatchFrames(s: Session, frames: seq<RawFrame>, env: nat -> Oracles) {
    |s.origins| == |s.sent| && s.seen <= |frames| &&
    forall j :: 0 <= j < |s.origins| ==>
      s.origins[j] < s.seen && ReplyOf(RouteFrame(frames[s.origins[j]], env(s.origins[j]))) == Some(s.sent[j])
  }

  /** The triggering frames of the actions sent strictly increase: no reordering, no frame twice. */
  ghost predicate OriginsIncrease(s: Session) {
    forall j, k :: 0 <= j < k < |s.origins| ==> s.origins[j] < s.origins[k]
  }

  /** Every routed frame whose routing gives a reply has that reply sent. */
  ghost predicate NoReplyLost(s: Session, frames: seq<RawFrame>, env: nat -> Oracles) {
    s.seen <= |frames| &&
    forall i :: 0 <= i < s.seen && ReplyOf(RouteFrame(frames[i], env(i))).Some? ==> i in s.origins
  }

  /**
   * One step of the loop on a session that has not faulted: the frame's reply,
   * heartbeat and calls are appended, and its error (if any) becomes the fault.
   */
  lemma AdvanceStep(s: Session, raw: RawFrame, o: Oracles)
    requires s.fault.None?
    ensures var r := RouteFrame(raw, o);
      Advance(s, raw, o).sent == s.sent + Sends(ReplyOf(r)) &&
      Advance(s, raw, o).heartbeats == s.heartbeats + Recorded(r) &&
      Advance(s, raw, o).calls == s.calls + CallsOf(r) &&
      Advance(s, raw, o).fault == Raised(r)
  {
  }

  /** The same step, as seen from the replies: its position becomes the origin of the frame's reply. */
  lemma AdvanceAppendsReply(s: Session, raw: RawFrame, o: Oracles)
    requires s.fault.None?
    ensures Advance(s, raw, o).seen == if RouteFrame(raw, o).Success? then s.seen + 1 else s.seen
    ensures ReplyOf(RouteFrame(raw, o)).Some? ==>
      Advance(s, raw, o).origins == s.origins + [s.seen] &&
      Advance(s, raw, o).sent == s.sent + [ReplyOf(RouteFrame(raw, o)).value]
    ensures ReplyOf(RouteFrame(raw, o)).None? ==>
      Advance(s, raw, o).origins == s.origins && Advance(s, raw, o).sent == s.sent
  {
  }

  /** Replaying one more frame advances the replay of the frames before it. */
  lemma ReplayNext(frames: seq<RawFrame>, env: nat -> Oracles, i: nat)
    requires i < |frames|
    ensures Replay(frames[..i + 1], env) == Advance(Replay(frames[..i], env), frames[i], env(i))
  {
    assert frames[..i + 1][..i] == frames[..i];
  }

  /** Once a frame has raised, later frames change nothing. */
  lemma {:induction false} ReplayStopsAtFault(frames: seq<RawFrame>, env: nat -> Oracles, k: nat)
    requires k <= |frames| && Replay(frames[..k], env).fault.Some?
    ensures Replay(frames, env) == Replay(frames[..k], env)
    decreases |frames|
  {
    if k < |frames| {
      var n := |frames| - 1;
      assert frames[..n][..k] == frames[..k];
      ReplayStopsAtFault(frames[..n], env, k);
    } else {
      assert frames[..k] == frames;
    }
  }

  /** The loop routes exactly the frames before the first one that raises, and stops on that one. */
  lemma {:induction false} ReplayEndsAtFirstFault(frames: seq<RawFrame>, env: nat -> Oracles)
    ensures EndsAtFirstFault(Replay(frames, env), frames, env)
    decreases |frames|
  {
    if |frames| > 0 {
      var n := |frames| - 1;
      ReplayEndsAtFirstFault(frames[..n], env);
      assert forall i :: 0 <= i < n ==> frames[..n][i] == frames[i];
    }
  }

  /** Each action sent on a connection is the reply its frame's routing gives. */
  lemma {:induction false} ReplayRepliesMatchFrames(frames: seq<RawFrame>, env: nat -> Oracles)
    ensures RepliesMatchFrames(Replay(frames, env), frames, env)
    decreases |frames|
  {
    if |frames| > 0 {
      var n := |frames| - 1;
      var p := Replay(frames[..n], env);
      ReplayRepliesMatchFrames(frames[..n], env);
      assert forall i :: 0 <= i < n ==> frames[..n][i] == frames[i];
      if p.fault.None? {
        AdvanceAppendsReply(p, frames[n], env(n));
      }
    }
  }

  /** Replies leave in the order of their frames, and no frame sends two. */
  lemma {:induction false} ReplayRepliesInFrameOrder(frames: seq<RawFrame>, env: nat -> Oracles)
    ensures OriginsIncrease(Replay(frames, env))
    decreases |frames|
  {
    if |frames| > 0 {
      var n := |frames| - 1;
      var p := Replay(frames[..n], env);
      ReplayRepliesInFrameOrder(frames[..n], env);
      ReplayRepliesMatchFrames(frames[..n], env);
      if p.fault.None? {
        AdvanceAppendsReply(p, frames[n], env(n));
      }
    }
  }

  /** No reply is lost: every routed frame whose routing gives a reply has it sent. */
  lemma {:induction false} ReplayRepliesAllSent(frames: seq<RawFrame>, env: nat -> Oracles)
    ensures NoReplyLost(Replay(frames, env), frames, env)
    decreases |frames|
  {
    if |frames| > 0 {
      var n := |frames| - 1;
      var p := Replay(frames[..n], env);
      ReplayRepliesAllSent(frames[..n], env);
      assert forall i :: 0 <= i < n ==> frames[..n][i] == frames[i];
      if p.fault.None? {
        AdvanceAppendsReply(p, frames[n], env(n));
      }
    }
  }

  /** At most one action per routed frame. */
  lemma {:induction false} AtMostOneReplyPerFrame(frames: seq<RawFrame>, env: nat -> Oracles)
    ensures |Replay(frames, env).sent| <= Replay(frames, env).seen
  {
    var s := Replay(frames, env);
    ReplayRepliesMatchFrames(frames, env);
    ReplayRepliesInFrameOrder(frames, env);
    IncreasingBelowBound(s.origins, s.seen);
  }

  /** A strictly increasing sequence of numbers below `bound` has at most `bound` elements. */
  lemma {:induction false} IncreasingBelowBound(xs: seq<nat>, bound: nat)
    requires forall j :: 0 <= j < |xs| ==> xs[j] < bound
    requires forall j, k :: 0 <= j < k < |xs| ==> xs[j] < xs[k]
    ensures |xs| <= bound
    decreases bound
  {
    if |xs| > 0 {
      var n := |xs| - 1;
      assert forall j :: 0 <= j < n ==> xs[j] < xs[n];
      IncreasingBelowBound(xs[..n], xs[n]);
    }
  }

  /** Every action sent on a connection is well formed: its echo tag equals its action name. */
  lemma {:induction false} SentActionsWellFormed(frames: seq<RawFrame>, env: nat -> Oracles)
    ensures forall a :: a in Replay(frames, env).sent ==> WellFormed(a)
  {
    var s := Replay(frames, env);
    ReplayRepliesMatchFrames(frames, env);
    forall a | a in s.sent
      ensures WellFormed(a)
    {
      var j :| 0 <= j < |s.sent| && s.sent[j] == a;
      var i := s.origins[j];
      assert ReplyOf(RouteFrame(frames[i], env(i))) == Some(a);
    }
  }

  /** The heartbeat handler receives exactly the heartbeat frames among those routed, in order. */
  lemma {:induction false} ReplayRecordsHeartbeats(frames: seq<RawFrame>, env: nat -> Oracles)
    ensures Replay(frames, env).heartbeats == HeartbeatFrames(frames[..Replay(frames, env).seen])
    decreases |frames|
  {
    if |frames| > 0 {
      var n := |frames| - 1;
      var p := Replay(frames[..n], env);
      ReplayRecordsHeartbeats(frames[..n], env);
      assert frames[..n][..p.seen] == frames[..p.seen];
      if p.fault.None? {
        assert frames[..n + 1] == frames;
        assert frames[..n] == frames[..p.seen];
      }
    }
  }

  /** The trace holds exactly the calls routing makes for the routed frames, in order. */
  lemma {:induction false} ReplayRecordsCalls(frames: seq<RawFrame>, env: nat -> Oracles)
    ensures Replay(frames, env).calls == CallsFrames(frames[..Replay(frames, env).seen], env)
    decreases |frames|
  {
    if |frames| > 0 {
      var n := |frames| - 1;
      var p := Replay(frames[..n], env);
      ReplayRecordsCalls(frames[..n], env);
      assert frames[..n][..p.seen] == frames[..p.seen];
      if p.fault.None? {
        var r := RouteFrame(frames[n], env(n));
        AdvanceStep(p, frames[n], env(n));
        assert frames[..n] == frames[..p.seen];
        if r.Success? {
          assert frames[..n + 1] == frames;
          assert CallsFrames(frames, env) == CallsFrames(frames[..n], env) + CallsOf(r);
        } else {
          assert CallsOf(r) == [];
        }
      }
    }
  }

  // ---------------------------------------------------------------------------
  // The objects the handler changes.

  /** The socket a connection runs on: what has been written to it, and whether it was closed. */
  class WebSocket {
    var sent: seq<Action>
    var closed: bool

    constructor ()
      ensures sent == [] && !closed
    {
      sent := [];
      closed := false;
    }

    /** `websocket.send`: the action is written after those already sent. */
    method Send(a: Action)
      modifies this
      ensures sent == old(sent) + [a] && closed == old(closed)
    {
      sent := sent + [a];
    }

    /** `websocket.close`. */
    method Close()
      modifies this
      ensures closed && sent == old(sent)
    {
      closed := true;
    }
  }

  /**
   * The listener: its configured path, the record of its heartbeat handler
   * (one for the whole listener, shared by its connections) and a ghost trace
   * of every collaborator it consulted.
   */
  class MessageListener {
    const path: string
    var heartbeats: seq<Frame>
    ghost var consulted: seq<Call>

    constructor (path: string)
      ensures this.path == path && heartbeats == [] && consulted == []
    {
      this.path := path;
      heartbeats := [];
      consulted := [];
    }

    /** The socket and the listener hold what they held before, followed by what session s did. */
    ghost predicate Extends(ws: WebSocket, s: Session, sent0: seq<Action>, closed0: bool, heartbeats0: seq<Frame>, consulted0: seq<Call>)
      reads this, ws
    {
      ws.sent == sent0 + s.sent && ws.closed == closed0 &&
      heartbeats == heartbeats0 + s.heartbeats && consulted == consulted0 + s.calls
    }

    /** Sends the reply of a dispatch, if any, and records the calls it made. */
    method Deliver(ws: WebSocket, d: Dispatch)
      modifies this, ws
      ensures ws.sent == old(ws.sent) + Sends(d.reply) && ws.closed == old(ws.closed)
      ensures consulted == old(consulted) + d.calls && heartbeats == old(heartbeats)
    {
      consulted := consulted + d.calls;
      if d.reply.Some? {
        ws.Send(d.reply.value);
      }
    }

    /**
     * One iteration of the receive loop: classify the frame, hand a heartbeat to
     * the heartbeat handler, dispatch a private or group message, drop the rest.
     * `err` is the error the frame raises, which ends the loop.
     */
    method Receive(ws: WebSocket, raw: RawFrame, o: Oracles) returns (err: Option<FrameError>)
      modifies this, ws
      ensures var r := RouteFrame(raw, o);
        err == Raised(r) &&
        ws.sent == old(ws.sent) + Sends(ReplyOf(r)) && ws.closed == old(ws.closed) &&
        heartbeats == old(heartbeats) + Recorded(r) &&
        consulted == old(consulted) + CallsOf(r)
    {
      err := None;
      match raw {
        case NotAnObject =>
          err := Some(NotJsonObject);
        case Decoded(f) =>
          if f.postType == Some(MetaEventPost) && f.metaEventType == Some(HeartbeatEvent) {
            heartbeats := heartbeats + [f];
          } else if f.postType == Some(MessagePost) {
            if f.messageType == Some(PrivateMessage) {
              match ProcessPrivate(f, o)
              case Failure(e) => err := Some(e);
              case Success(d) => Deliver(ws, d);
            } else if f.messageType == Some(GroupMessage) {
              match ProcessGroup(f, o)
              case Failure(e) => err := Some(e);
              case Success(d) => Deliver(ws, d);
            }
          }
      }
    }

    /** `Receive` seen on sessions: if the objects reflected s, they now reflect s advanced by the frame. */
    method ReceiveNext(ws: WebSocket, raw: RawFrame, o: Oracles, ghost s: Session,
                       ghost sent0: seq<Action>, ghost closed0: bool, ghost heartbeats0: seq<Frame>, ghost consulted0: seq<Call>)
      returns (err: Option<FrameError>)
      requires s.fault.None? && Extends(ws, s, sent0, closed0, heartbeats0, consulted0)
      modifies this, ws
      ensures err == Advance(s, raw, o).fault
      ensures Extends(ws, Advance(s, raw, o), sent0, closed0, heartbeats0, consulted0)
    {
      AdvanceStep(s, raw, o);
      err := Receive(ws, raw, o);
    }

    /**
     * `handler`: a connection on another path is closed at once, with no plugin
     * load and no frame read. On the configured path the plugins are loaded and
     * the connection's frames are received; `fault` is the error that ended the
     * loop, which leaves the handler.
     */
    method Handler(ws: WebSocket, requestPath: string, frames: seq<RawFrame>, env: nat -> Oracles)
      returns (fault: Option<FrameError>)
      modifies this, ws
      ensures requestPath != path ==>
        ws.closed && ws.sent == old(ws.sent) && fault == None &&
        heartbeats == old(heartbeats) && consulted == old(consulted)
      ensures requestPath == path ==>
        ws.sent == old(ws.sent) + Replay(frames, env).sent && ws.closed == old(ws.closed) &&
        heartbeats == old(heartbeats) + Replay(frames, env).heartbeats &&
        consulted == old(consulted) + [LoadPlugins] + Replay(frames, env).calls &&
        fault == Replay(frames, env).fault
    {
      if requestPath != path {
        ws.Close();
        return None;
      }
      consulted := consulted + [LoadPlugins];
      fault := ReceiveAll(ws, frames, env);
    }

    /**
     * The `async for` loop: frames are received one by one until they run out
     * (the connection closed) or one raises.
     */
    method ReceiveAll(ws: WebSocket, frames: seq<RawFrame>, env: nat -> Oracles)
      returns (fault: Option<FrameError>)
      modifies this, ws
      ensures ws.sent == old(ws.sent) + Replay(frames, env).sent && ws.closed == old(ws.closed)
      ensures heartbeats == old(heartbeats) + Replay(frames, env).heartbeats
      ensures consulted == old(consulted) + Replay(frames, env).calls
      ensures fault == Replay(frames, env).fault
    {
      fault := None;
      var i := 0;
      ghost var done := Fresh;
      while i < |frames| && fault.None?
        invariant 0 <= i <= |frames| && done == Replay(frames[..i], env) && fault == done.fault
        invariant Extends(ws, done, old(ws.sent), old(ws.closed), old(heartbeats), old(consulted))
        decreases |frames| - i
      {
        ReplayNext(frames, env, i);
        fault := ReceiveNext(ws, frames[i], env(i), done, old(ws.sent), old(ws.closed), old(heartbeats), old(consulted));
        done := Advance(done, frames[i], env(i));
        i := i + 1;
      }
      if fault.Some? {
        ReplayStopsAtFault(frames, env, i);
      } else {
        assert frames[..i] == frames;
      }
    }
  }
}
