/**
 * The pane agent: the script running in each of the two panes. It decides
 * when the pane's own scrolling is reported to the coordinator (only while
 * the user is interacting, not while a remote scroll is being applied,
 * rate- and magnitude-limited), and applies the scrolls the coordinator
 * relays from the other pane. Time is the parameter `now`, in milliseconds.
 */
module Pane {
  import opened Wrappers
  import opened Dom
  import opened Layout
  import opened AnchorCodec
  import opened Messages

  const SendIntervalMs := 28
  const ApplySuppressMs := 360
  const MinProgressDelta := 0.003
  const ActiveSignalIntervalMs := 120
  const UserIntentWindowMs := 1200
  /** How much longer than `ApplySuppressMs` an inbound apply keeps the
      pane from reporting scrolls and user intent. */
  const RemoteApplyExtraMs := 420

  /** The role of a pane, from the name of the frame it runs in; a frame
      with another name runs no agent. */
  function FrameRole(windowName: string): (r: Option<string>)
    ensures r.Some? <==> windowName == "originalPane" || windowName == "translatedPane"
    ensures r == Some("original") <==> windowName == "originalPane"
    ensures r == Some("translated") <==> windowName == "translatedPane"
  {
    if windowName == "originalPane" then Some("original")
    else if windowName == "translatedPane" then Some("translated")
    else None
  }

  /** The offset ratio an apply uses: the anchor's, or 0 without one. */
  function AnchorRatio(anchor: Option<Anchor>): real
  {
    if anchor.Some? then anchor.value.offsetRatio else 0.0
  }

  /** Where an apply scrolls to: the anchored position when an element was
      resolved, `round(max * progress)` otherwise, clamped to the scroll
      range. */
  function TargetTop(page: Page, target: Option<Pos>, offsetRatio: real, progress: real): (t: int)
    ensures 0 <= t <= MaxScroll(page.view)
    ensures target.None? ==> t == ProgressTop(page.view, progress)
    ensures target.Some? ==>
              var anchored := AnchoredTop(page.view, page.rectTop(target.value),
                                          page.rectHeight(target.value), offsetRatio);
              && (0 <= anchored <= MaxScroll(page.view) ==> t == anchored)
              && (anchored < 0 ==> t == 0)
              && (anchored > MaxScroll(page.view) ==> t == MaxScroll(page.view))
  {
    var unclamped :=
      if target.Some? then
        AnchoredTop(page.view, page.rectTop(target.value), page.rectHeight(target.value), offsetRatio)
      else
        ProgressTop(page.view, progress);
    ClampTop(page.view, unclamped)
  }

  /** Anchor first: when the element under a pane's anchor line is at most
      `MaxPathDepth` levels deep and the line crosses its box, applying that
      pane's own anchor to the same page scrolls to where the page already
      is (rounded), whatever progress travels with it. */
  lemma AnchorWinsOverProgress(page: Page, progress: real)
    requires HitInDocument(page.doc, ProbeHit(page))
    requires var picked := PickedElement(page.doc, ProbeHit(page));
             picked.Some? && |picked.value| <= MaxPathDepth &&
             page.rectTop(picked.value) <= AnchorLine(page.view) as real
               <= page.rectTop(picked.value) + RealMax(page.rectHeight(picked.value), 1.0)
    requires 0.0 <= page.view.scrollTop <= MaxScroll(page.view) as real
    ensures TargetTop(page, FindTarget(page.doc, AnchorAt(page)), AnchorRatio(AnchorAt(page)), progress)
            == Round(page.view.scrollTop)
  {
    // The anchor resolves to the picked element itself (AnchorRoundTrip),
    // and decoding its ratio undoes encoding (AnchoredTopRestoresScroll).
  }

  class PaneAgent {
    const role: string
    var lastSentAt: int
    var lastProgress: real
    var outboundSeq: int
    var suppressUntil: int
    var lastAppliedSyncId: Option<SyncId>
    var userIntentUntil: int
    var applyingRemoteUntil: int
    var lastActiveSentAt: int

    /** The last progress is -1 until the pane first sends or applies, and a
        fraction afterwards; the sequence number never goes below zero. */
    predicate Valid()
      reads this
    {
      (lastProgress == -1.0 || 0.0 <= lastProgress <= 1.0) && outboundSeq >= 0
    }

    constructor (role: string)
      ensures Valid() && this.role == role
      ensures lastSentAt == 0 && lastProgress == -1.0 && outboundSeq == 0
      ensures suppressUntil == 0 && lastAppliedSyncId == None
      ensures userIntentUntil == 0 && applyingRemoteUntil == 0 && lastActiveSentAt == 0
    {
      this.role := role;
      lastSentAt := 0;
      lastProgress := -1.0;
      outboundSeq := 0;
      suppressUntil := 0;
      lastAppliedSyncId := None;
      userIntentUntil := 0;
      applyingRemoteUntil := 0;
      lastActiveSentAt := 0;
    }

    /** Inside a window opened by applying a remote scroll. */
    predicate Muted(now: int)
      reads this
    {
      now < suppressUntil || now < applyingRemoteUntil
    }

    /** The user has interacted with the pane recently enough. */
    predicate HasUserIntent(now: int)
      reads this
    {
      now <= userIntentUntil
    }

    /** Too soon after the previous send. */
    predicate Throttled(now: int)
      reads this
    {
      now - lastSentAt < SendIntervalMs
    }

    /** The progress has moved far enough since the last one recorded. */
    predicate MovedEnough(progress: real)
      reads this
    {
      Abs(progress - lastProgress) >= MinProgressDelta
    }

    /** Every gate of `maybeSendScroll` is open. */
    predicate MaySend(now: int, progress: real)
      reads this
    {
      !Muted(now) && HasUserIntent(now) && !Throttled(now) && MovedEnough(progress)
    }

    /** On a scroll or resize event: when every gate is open, records the
        send and returns the `SCROLL` message with a fresh sync id;
        otherwise returns nothing and changes nothing. */
    method MaybeSendScroll(now: int, page: Page) returns (sent: Option<Message>)
      requires Valid()
      requires HitInDocument(page.doc, ProbeHit(page))
      modifies this
      ensures Valid()
      ensures var progress := ScrollProgress(page.view);
              old(MaySend(now, progress)) ==>
                && sent == Some(Scroll(progress, AnchorAt(page), Some(SyncId(role, old(outboundSeq) + 1, now))))
                && lastSentAt == now && lastProgress == progress
                && outboundSeq == old(outboundSeq) + 1
      ensures old(MaySend(now, ScrollProgress(page.view))) ==>
                unchanged(this`suppressUntil, this`lastAppliedSyncId, this`userIntentUntil,
                          this`applyingRemoteUntil, this`lastActiveSentAt)
      ensures !old(MaySend(now, ScrollProgress(page.view))) ==> sent == None && unchanged(this)
    {
      if now < suppressUntil || now < applyingRemoteUntil || now > userIntentUntil
         || now - lastSentAt < SendIntervalMs {
        return None;
      }
      var progress := ScrollProgress(page.view);
      if Abs(progress - lastProgress) < MinProgressDelta {
        return None;
      }
      lastSentAt := now;
      lastProgress := progress;
      outboundSeq := outboundSeq + 1;
      var syncId := SyncId(role, outboundSeq, now);
      var anchor := BuildAnchor(page);
      return Some(Scroll(progress, anchor, Some(syncId)));
    }

    /** Scrolls the page to the target of a relayed sync event, opens the
        echo-suppression window and records the sync id and the new
        progress. Returns the scroll position written. */
    method ApplyScroll(now: int, page: Page, progress: real, anchor: Option<Anchor>, syncId: Option<SyncId>)
      returns (top: int)
      requires Valid()
      modifies this
      ensures Valid()
      ensures top == TargetTop(page, FindTarget(page.doc, anchor), AnchorRatio(anchor), progress)
      ensures 0 <= top <= MaxScroll(page.view)
      ensures FindTarget(page.doc, anchor).None? ==> top == ProgressTop(page.view, progress)
      ensures suppressUntil == now + ApplySuppressMs
      ensures lastAppliedSyncId == if syncId.Some? then syncId else old(lastAppliedSyncId)
      ensures lastProgress == ScrollProgress(page.view.(scrollTop := top as real))
      ensures unchanged(this`lastSentAt, this`outboundSeq, this`userIntentUntil,
                        this`applyingRemoteUntil, this`lastActiveSentAt)
    {
      var targetTop: int;
      var anchorElement := FindTargetFromAnchor(page.doc, anchor);
      if anchorElement.Some? {
        targetTop := AnchoredTop(page.view, page.rectTop(anchorElement.value),
                                 page.rectHeight(anchorElement.value), AnchorRatio(anchor));
      } else {
        targetTop := ProgressTop(page.view, progress);
      }
      top := ClampTop(page.view, targetTop);
      suppressUntil := now + ApplySuppressMs;
      if syncId.Some? {
        lastAppliedSyncId := syncId;
      }
      lastProgress := ScrollProgress(page.view.(scrollTop := top as real));
    }

    /** Asks the coordinator to make this pane the driver, unless a remote
        apply is in progress or (when not forced) one was asked for less
        than `ActiveSignalIntervalMs` ago. */
    method SignalActiveSource(now: int, force: bool) returns (sent: Option<Message>)
      modifies this`lastActiveSentAt
      ensures sent.Some? <==>
                now >= applyingRemoteUntil &&
                (force || now - old(lastActiveSentAt) >= ActiveSignalIntervalMs)
      ensures sent.Some? ==> sent.value == SetActiveSource && lastActiveSentAt == now
      ensures sent.None? ==> lastActiveSentAt == old(lastActiveSentAt)
    {
      if now < applyingRemoteUntil {
        return None;
      }
      if !force && now - lastActiveSentAt < ActiveSignalIntervalMs {
        return None;
      }
      lastActiveSentAt := now;
      return Some(SetActiveSource);
    }

    /** On user input: opens the user-intent window and, for the inputs
        that force it, asks to become the driver; ignored while a remote
        apply is in progress. */
    method MarkUserIntent(now: int, forceActive: bool) returns (sent: Option<Message>)
      modifies this`userIntentUntil, this`lastActiveSentAt
      ensures now < applyingRemoteUntil ==> sent == None && unchanged(this)
      ensures now >= applyingRemoteUntil ==>
                && userIntentUntil == now + UserIntentWindowMs
                && (sent.Some? <==> forceActive)
                && (forceActive ==> sent == Some(SetActiveSource) && lastActiveSentAt == now)
                && (!forceActive ==> lastActiveSentAt == old(lastActiveSentAt))
    {
      if now < applyingRemoteUntil {
        return None;
      }
      userIntentUntil := now + UserIntentWindowMs;
      sent := None;
      if forceActive {
        sent := SignalActiveSource(now, true);
      }
    }

    /** The message is an `APPLY_SCROLL` that is not a repeat of the one
        applied last. */
    predicate Accepts(message: Message)
      reads this
    {
      message.ApplyScroll? && !(message.syncId.Some? && message.syncId == lastAppliedSyncId)
    }

    /** The `APPLY_SCROLL` listener: applies a relayed scroll unless it is a
        duplicate, after opening a window in which the pane neither reports
        scrolls nor user intent. Returns the scroll position written. */
    method OnMessage(now: int, message: Message, page: Page) returns (scrolledTo: Option<int>)
      requires Valid()
      modifies this
      ensures Valid()
      ensures !old(Accepts(message)) ==> scrolledTo == None && unchanged(this)
      ensures old(Accepts(message)) ==>
                && scrolledTo == Some(TargetTop(page, FindTarget(page.doc, message.anchor),
                                                AnchorRatio(message.anchor), message.progress))
                && applyingRemoteUntil == now + ApplySuppressMs + RemoteApplyExtraMs
                && suppressUntil == now + ApplySuppressMs
                && suppressUntil < applyingRemoteUntil
                && lastProgress == ScrollProgress(page.view.(scrollTop := scrolledTo.value as real))
                && (message.syncId.Some? ==> lastAppliedSyncId == message.syncId && !Accepts(message))
                && (message.syncId.None? ==> lastAppliedSyncId == old(lastAppliedSyncId))
      ensures old(Accepts(message)) ==>
                unchanged(this`lastSentAt, this`outboundSeq, this`userIntentUntil, this`lastActiveSentAt)
      ensures old(Accepts(message)) ==>
                forall t :: now <= t < now + ApplySuppressMs + RemoteApplyExtraMs ==> Muted(t)
    {
      if !message.ApplyScroll? {
        return None;
      }
      if message.syncId.Some? && message.syncId == lastAppliedSyncId {
        return None;
      }
      applyingRemoteUntil := now + ApplySuppressMs + RemoteApplyExtraMs;
      var top := ApplyScroll(now, page, message.progress, message.anchor, message.syncId);
      return Some(top);
    }
  }
}
