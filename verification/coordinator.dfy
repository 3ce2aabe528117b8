/**
 * The coordinator (the extension's background script): one session per
 * tab showing the split viewer, holding the frame ids of the two panes,
 * the pane currently driving, and an echo block that keeps the pane a
 * scroll was just relayed to from taking the driver role straight back.
 */
module Coordinator {
  import opened Wrappers
  import opened AnchorCodec
  import opened Messages

  /** How long a relayed scroll blocks the target pane's driver requests. */
  const EchoBlockMs := 650

  datatype Role = Original | Translated

  /** The roles a `REGISTER_FRAME` may name; any other string is refused. */
  function ParseRole(role: string): (r: Option<Role>)
    ensures r == Some(Original) <==> role == "original"
    ensures r == Some(Translated) <==> role == "translated"
    ensures r.None? <==> role != "original" && role != "translated"
  {
    if role == "original" then Some(Original)
    else if role == "translated" then Some(Translated)
    else None
  }

  function OtherRole(role: Role): Role
  {
    if role == Original then Translated else Original
  }

  datatype Session = Session(
    originalFrameId: Option<int>,
    translatedFrameId: Option<int>,
    activeSourceFrameId: Option<int>,
    blockActiveFromFrameId: Option<int>,
    blockActiveUntil: int)

  /** The record a first registration starts from. */
  const NewSession := Session(None, None, None, None, 0)

  /** What the coordinator sends out: a message to one frame of one tab. */
  datatype Relay = Relay(tabId: int, frameId: int, message: Message)

  function FrameOf(s: Session, role: Role): Option<int>
  {
    if role == Original then s.originalFrameId else s.translatedFrameId
  }

  /** `frameId` is one of the session's two registered frames. */
  predicate IsKnownFrame(s: Session, frameId: int)
  {
    s.originalFrameId == Some(frameId) || s.translatedFrameId == Some(frameId)
  }

  /** The echo block covers `frameId` at time `now`. */
  predicate Blocks(s: Session, frameId: int, now: int)
  {
    s.blockActiveFromFrameId == Some(frameId) && now < s.blockActiveUntil
  }

  /** The frame registered in the other role than `frameId`'s. */
  function PeerOf(s: Session, frameId: int): Option<int>
  {
    if s.originalFrameId == Some(frameId) then s.translatedFrameId
    else if s.translatedFrameId == Some(frameId) then s.originalFrameId
    else None
  }

  /** The session `sessions.get(tabId) ?? {...}` yields. */
  function Lookup(m: map<int, Session>, tabId: int): Session
  {
    if tabId in m then m[tabId] else NewSession
  }

  // ---------------------------------------------------------------------
  // Per-session transitions

  /** `REGISTER_FRAME`: records the frame id for its role, and only that. */
  function Register(s: Session, role: Role, frameId: int): (r: Session)
    ensures FrameOf(r, role) == Some(frameId)
    ensures FrameOf(r, OtherRole(role)) == FrameOf(s, OtherRole(role))
    ensures r.activeSourceFrameId == s.activeSourceFrameId
    ensures r.blockActiveFromFrameId == s.blockActiveFromFrameId
    ensures r.blockActiveUntil == s.blockActiveUntil
  {
    if role == Original then s.(originalFrameId := Some(frameId))
    else s.(translatedFrameId := Some(frameId))
  }

  /** `SET_ACTIVE_SOURCE`: a registered frame that the echo block does not
      cover becomes the driver; otherwise nothing changes. */
  function RequestDriver(s: Session, frameId: int, now: int): (r: Session)
    ensures r == s.(activeSourceFrameId := r.activeSourceFrameId)
    ensures r.activeSourceFrameId != s.activeSourceFrameId ==>
              r.activeSourceFrameId == Some(frameId) && IsKnownFrame(s, frameId)
    ensures !IsKnownFrame(s, frameId) || Blocks(s, frameId, now) ==> r == s
    ensures IsKnownFrame(s, frameId) && !Blocks(s, frameId, now) ==> r.activeSourceFrameId == Some(frameId)
  {
    var isKnownFrame := s.originalFrameId == Some(frameId) || s.translatedFrameId == Some(frameId);
    if !isKnownFrame then s
    else if s.blockActiveFromFrameId == Some(frameId) && now < s.blockActiveUntil then s
    else s.(activeSourceFrameId := Some(frameId))
  }

  /** The session after a `SCROLL`, and the frame it is relayed to. */
  datatype ScrollOutcome = ScrollOutcome(session: Session, target: Option<int>)

  /** `SCROLL`: accepted from a registered frame whose peer is registered,
      when that frame is the driver or there is none yet (it then becomes
      the driver). Accepting arms the echo block against the peer. */
  function ScrollStep(s: Session, frameId: int, now: int): (o: ScrollOutcome)
    ensures o.target.Some? <==>
              IsKnownFrame(s, frameId) && PeerOf(s, frameId).Some? &&
              (s.activeSourceFrameId.None? || s.activeSourceFrameId == Some(frameId))
    ensures o.target.None? ==> o.session == s
    ensures o.target.Some? ==>
              && o.target == PeerOf(s, frameId)
              && IsKnownFrame(s, o.target.value)
              && o.session.originalFrameId == s.originalFrameId
              && o.session.translatedFrameId == s.translatedFrameId
              && o.session.activeSourceFrameId == Some(frameId)
              && o.session.blockActiveFromFrameId == o.target
              && o.session.blockActiveUntil == now + EchoBlockMs
  {
    var isOriginalSource := s.originalFrameId == Some(frameId);
    var isTranslatedSource := s.translatedFrameId == Some(frameId);
    if !isOriginalSource && !isTranslatedSource then ScrollOutcome(s, None)
    else
      var target := if isOriginalSource then s.translatedFrameId else s.originalFrameId;
      if target.None? then ScrollOutcome(s, None)
      else
        var driven := if s.activeSourceFrameId.None? then s.(activeSourceFrameId := Some(frameId)) else s;
        if driven.activeSourceFrameId != Some(frameId) then ScrollOutcome(driven, None)
        else ScrollOutcome(driven.(blockActiveFromFrameId := target, blockActiveUntil := now + EchoBlockMs), target)
  }

  // ---------------------------------------------------------------------
  // The session table

  /** The table after a `REGISTER_FRAME`: a message without a numeric frame
      id or with an unknown role changes nothing; otherwise the tab's
      session, created if new, records the frame. Other tabs are untouched. */
  function AfterRegister(m: map<int, Session>, tabId: int, frameId: Option<int>, role: string)
    : (r: map<int, Session>)
    ensures frameId.None? || ParseRole(role).None? ==> r == m
    ensures frameId.Some? && ParseRole(role).Some? ==>
              r.Keys == m.Keys + {tabId} &&
              r[tabId] == Register(Lookup(m, tabId), ParseRole(role).value, frameId.value)
    ensures forall t :: t in m && t != tabId ==> t in r && r[t] == m[t]
  {
    if frameId.None? then m
    else
      match ParseRole(role)
      case None => m
      case Some(r) => m[tabId := Register(Lookup(m, tabId), r, frameId.value)]
  }

  /** The table after a `SET_ACTIVE_SOURCE`; no session for the tab or no
      numeric frame id changes nothing. */
  function AfterDriverRequest(m: map<int, Session>, tabId: int, frameId: Option<int>, now: int)
    : (r: map<int, Session>)
    ensures tabId !in m || frameId.None? ==> r == m
    ensures r.Keys == m.Keys
    ensures forall t :: t in m && t != tabId ==> r[t] == m[t]
    ensures tabId in m && frameId.Some? ==> r[tabId] == RequestDriver(m[tabId], frameId.value, now)
  {
    if tabId !in m || frameId.None? then m
    else m[tabId := RequestDriver(m[tabId], frameId.value, now)]
  }

  /** The table after a `SCROLL`, and the `APPLY_SCROLL` relayed, if any. */
  datatype Outcome = Outcome(sessions: map<int, Session>, relay: Option<Relay>)

  function AfterScroll(m: map<int, Session>, tabId: int, frameId: Option<int>, now: int,
                       progress: real, anchor: Option<Anchor>, syncId: Option<SyncId>)
    : (o: Outcome)
    ensures tabId !in m || frameId.None? ==> o == Outcome(m, None)
    ensures o.sessions.Keys == m.Keys
    ensures forall t :: t in m && t != tabId ==> o.sessions[t] == m[t]
    ensures tabId in m && frameId.Some? ==>
              var step := ScrollStep(m[tabId], frameId.value, now);
              && o.sessions[tabId] == step.session
              && (o.relay.Some? <==> step.target.Some?)
              && (o.relay.Some? ==>
                    o.relay.value == Relay(tabId, step.target.value, ApplyScroll(progress, anchor, syncId)))
  {
    if tabId !in m || frameId.None? then Outcome(m, None)
    else
      var step := ScrollStep(m[tabId], frameId.value, now);
      var relay := if step.target.Some? then Some(Relay(tabId, step.target.value, ApplyScroll(progress, anchor, syncId))) else None;
      Outcome(m[tabId := step.session], relay)
  }

  /** Whether a tab's new address is the viewer page. */
  predicate IsViewerUrl(tabUrl: Option<string>, viewerUrl: string)
  {
    tabUrl.Some? && viewerUrl <= tabUrl.value
  }

  // ---------------------------------------------------------------------
  // isHttpUrl

  function LowerAscii(c: char): char
  {
    if 'A' <= c <= 'Z' then (c as int + 32) as char else c
  }

  /** `s` begins with the lower-case `prefix`, ignoring ASCII case. */
  predicate StartsWithIgnoringCase(s: string, prefix: string)
  {
    |prefix| <= |s| && forall i :: 0 <= i < |prefix| ==> LowerAscii(s[i]) == prefix[i]
  }

  /** The pattern `^https?:\/\/` with the `i` flag, matched one character
      at a time: "http", an optional "s", then "://". */
  function MatchesHttpScheme(s: string): (r: bool)
    ensures r <==> StartsWithIgnoringCase(s, "http://") || StartsWithIgnoringCase(s, "https://")
  {
    if |s| < 4 || LowerAscii(s[0]) != 'h' || LowerAscii(s[1]) != 't'
       || LowerAscii(s[2]) != 't' || LowerAscii(s[3]) != 'p' then false
    else
      var rest := if |s| > 4 && LowerAscii(s[4]) == 's' then s[5..] else s[4..];
      |rest| >= 3 && rest[0] == ':' && rest[1] == '/' && rest[2] == '/'
  }

  /** `isHttpUrl`: a string that starts with an http or https scheme. */
  predicate IsHttpUrl(url: Option<string>)
  {
    url.Some? && MatchesHttpScheme(url.value)
  }

  // ---------------------------------------------------------------------
  // The coordinator

  class Hub {
    var sessions: map<int, Session>

    /** A session exists only once some frame has registered in it. */
    predicate Valid()
      reads this
    {
      forall t :: t in sessions ==>
        sessions[t].originalFrameId.Some? || sessions[t].translatedFrameId.Some?
    }

    constructor ()
      ensures Valid() && sessions == map[]
    {
      sessions := map[];
    }

    method RegisterFrame(tabId: int, frameId: Option<int>, role: string)
      requires Valid()
      modifies this
      ensures Valid()
      ensures sessions == AfterRegister(old(sessions), tabId, frameId, role)
    {
      if frameId.None? || (role != "original" && role != "translated") {
        return;
      }
      var session := if tabId in sessions then sessions[tabId] else NewSession;
      if role == "original" {
        session := session.(originalFrameId := frameId);
      } else {
        session := session.(translatedFrameId := frameId);
      }
      sessions := sessions[tabId := session];
    }

    method SetActiveSource(now: int, tabId: int, frameId: Option<int>)
      requires Valid()
      modifies this
      ensures Valid()
      ensures sessions == AfterDriverRequest(old(sessions), tabId, frameId, now)
    {
      if tabId !in sessions || frameId.None? {
        return;
      }
      var session := sessions[tabId];
      var f := frameId.value;
      var isKnownFrame := session.originalFrameId == Some(f) || session.translatedFrameId == Some(f);
      if !isKnownFrame {
        return;
      }
      if session.blockActiveFromFrameId == Some(f) && now < session.blockActiveUntil {
        return;
      }
      session := session.(activeSourceFrameId := Some(f));
      sessions := sessions[tabId := session];
    }

    method Scroll(now: int, tabId: int, frameId: Option<int>,
                  progress: real, anchor: Option<Anchor>, syncId: Option<SyncId>)
      returns (relay: Option<Relay>)
      requires Valid()
      modifies this
      ensures Valid()
      ensures Outcome(sessions, relay) == AfterScroll(old(sessions), tabId, frameId, now, progress, anchor, syncId)
    {
      if tabId !in sessions || frameId.None? {
        return None;
      }
      var session := sessions[tabId];
      var f := frameId.value;
      var isOriginalSource := session.originalFrameId == Some(f);
      var isTranslatedSource := session.translatedFrameId == Some(f);
      if !isOriginalSource && !isTranslatedSource {
        return None;
      }
      var targetFrameId := if isOriginalSource then session.translatedFrameId else session.originalFrameId;
      if targetFrameId.None? {
        return None;
      }
      if session.activeSourceFrameId.None? {
        session := session.(activeSourceFrameId := Some(f));
        sessions := sessions[tabId := session];
      }
      if session.activeSourceFrameId != Some(f) {
        return None;
      }
      session := session.(blockActiveFromFrameId := targetFrameId, blockActiveUntil := now + EchoBlockMs);
      sessions := sessions[tabId := session];
      return Some(Relay(tabId, targetFrameId.value, ApplyScroll(progress, anchor, syncId)));
    }

    /** The `runtime.onMessage` handler: drops a message whose sender is not
        in a tab, and dispatches the rest by type. */
    method OnMessage(now: int, message: Message, senderTab: Option<int>, senderFrame: Option<int>)
      returns (relay: Option<Relay>)
      requires Valid()
      modifies this
      ensures Valid()
      ensures senderTab.None? || message.Unrecognised? || message.ApplyScroll? ==>
                relay == None && sessions == old(sessions)
      ensures senderTab.Some? && message.RegisterFrame? ==>
                relay == None && sessions == AfterRegister(old(sessions), senderTab.value, senderFrame, message.role)
      ensures senderTab.Some? && message.SetActiveSource? ==>
                relay == None && sessions == AfterDriverRequest(old(sessions), senderTab.value, senderFrame, now)
      ensures senderTab.Some? && message.Scroll? ==>
                Outcome(sessions, relay) ==
                AfterScroll(old(sessions), senderTab.value, senderFrame, now,
                            message.progress, message.anchor, message.syncId)
    {
      relay := None;
      if senderTab.None? {
        return;
      }
      var tabId := senderTab.value;
      match message {
        case RegisterFrame(role) => RegisterFrame(tabId, senderFrame, role);
        case SetActiveSource => SetActiveSource(now, tabId, senderFrame);
        case Scroll(progress, anchor, syncId) =>
          relay := Scroll(now, tabId, senderFrame, progress, anchor, syncId);
        case ApplyScroll(_, _, _) =>
        case Unrecognised =>
      }
    }

    /** `cleanupSession`: forgets the tab's session. */
    method CleanupSession(tabId: int)
      requires Valid()
      modifies this
      ensures Valid()
      ensures sessions == old(sessions) - {tabId}
    {
      sessions := sessions - {tabId};
    }

    /** A closed tab loses its session. */
    method OnTabRemoved(tabId: int)
      requires Valid()
      modifies this
      ensures Valid()
      ensures sessions == old(sessions) - {tabId}
    {
      CleanupSession(tabId);
    }

    /** A tab that navigates somewhere other than the viewer page loses its
        session; updates that do not change the address, or that go to the
        viewer, keep it. */
    method OnTabUpdated(tabId: int, changedUrl: Option<string>, tabUrl: Option<string>, viewerUrl: string)
      requires Valid()
      modifies this
      ensures Valid()
      ensures changedUrl.Some? && changedUrl.value != "" && !IsViewerUrl(tabUrl, viewerUrl) ==>
                sessions == old(sessions) - {tabId}
      ensures changedUrl.None? || changedUrl.value == "" || IsViewerUrl(tabUrl, viewerUrl) ==>
                sessions == old(sessions)
    {
      if changedUrl.None? || changedUrl.value == "" {
        return;
      }
      var isViewer := tabUrl.Some? && viewerUrl <= tabUrl.value;
      if !isViewer {
        CleanupSession(tabId);
      }
    }

    /** The toolbar button: on an http(s) page, starts afresh by dropping the
        tab's session and (outside this model) opening the viewer. Returns
        whether the viewer is opened. */
    method OnActionClicked(tabId: Option<int>, tabUrl: Option<string>) returns (opensViewer: bool)
      requires Valid()
      modifies this
      ensures Valid()
      ensures opensViewer <==> tabId.Some? && IsHttpUrl(tabUrl)
      ensures opensViewer ==> sessions == old(sessions) - {tabId.value}
      ensures !opensViewer ==> sessions == old(sessions)
    {
      if tabId.None? || !(tabUrl.Some? && MatchesHttpScheme(tabUrl.value)) {
        return false;
      }
      CleanupSession(tabId.value);
      return true;
    }
  }

  // ---------------------------------------------------------------------
  // Properties of the coordinator

  /** Registering the same frame in the same role twice is registering it
      once: no second session, no other change. */
  lemma RegisterIdempotent(m: map<int, Session>, tabId: int, frameId: Option<int>, role: string)
    ensures AfterRegister(AfterRegister(m, tabId, frameId, role), tabId, frameId, role)
            == AfterRegister(m, tabId, frameId, role)
  {
    // The second registration writes the frame id the first one left there.
  }

  /** A scroll relayed to a pane blocks that pane's driver requests for
      the whole echo-block window. */
  lemma EchoBlockHoldsBackTarget(s: Session, frameId: int, now: int, later: int)
    requires ScrollStep(s, frameId, now).target.Some?
    requires now <= later < now + EchoBlockMs
    ensures var o := ScrollStep(s, frameId, now);
            RequestDriver(o.session, o.target.value, later) == o.session
  {
  }

  /** Re-registering a role under a new frame id leaves the driver field
      on the old id: scrolls from both frames are then dropped until one of
      them asks to drive again, which succeeds outside the echo block. */
  lemma ReRegistrationLeavesStaleDriver(s: Session, oldFrame: int, newFrame: int, peer: int, now: int)
    requires s.originalFrameId == Some(oldFrame) && s.translatedFrameId == Some(peer)
    requires s.activeSourceFrameId == Some(oldFrame)
    requires newFrame != oldFrame && peer != oldFrame
    requires !Blocks(s, newFrame, now)
    ensures var r := Register(s, Original, newFrame);
            && !IsKnownFrame(r, oldFrame)
            && r.activeSourceFrameId == Some(oldFrame)
            && ScrollStep(r, newFrame, now).target.None?
            && ScrollStep(r, peer, now).target.None?
            && RequestDriver(r, newFrame, now).activeSourceFrameId == Some(newFrame)
  {
  }
}
