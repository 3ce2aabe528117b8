/** The two pane agents and the coordinator together. */
module Protocol {
  import opened Wrappers
  import opened Dom
  import opened Layout
  import opened AnchorCodec
  import opened Messages
  import opened Pane
  import opened Coordinator

  /**
   * The original pane's half of a round in a fresh tab: both panes
   * register, the user turns the wheel in the original pane and scrolls
   * it, and the coordinator makes that pane the driver and relays the
   * scroll to the translated pane, blocking the translated pane's driver
   * requests for the echo-block window.
   */
  method RelayUserScroll(tabId: int, a: int, b: int, now: int, pageA: Page)
    returns (hub: Hub, relay: Option<Relay>)
    requires a != b
    requires now >= SendIntervalMs
    requires HitInDocument(pageA.doc, ProbeHit(pageA))
    ensures fresh(hub) && hub.Valid()
    ensures hub.sessions == map[tabId := Session(Some(a), Some(b), Some(a), Some(b), now + EchoBlockMs)]
    ensures relay == Some(Relay(tabId, b, ApplyScroll(ScrollProgress(pageA.view), AnchorAt(pageA),
                                                     Some(SyncId("original", 1, now)))))
  {
    hub := new Hub();
    var original := new PaneAgent("original");
    hub.RegisterFrame(tabId, Some(a), "original");
    hub.RegisterFrame(tabId, Some(b), "translated");
    assert hub.sessions == map[tabId := Session(Some(a), Some(b), None, None, 0)];

    var request := original.MarkUserIntent(now, true);
    var ignored := hub.OnMessage(now, request.value, Some(tabId), Some(a));
    assert hub.sessions == map[tabId := Session(Some(a), Some(b), Some(a), None, 0)];
    assert original.MaySend(now, ScrollProgress(pageA.view));
    var sent := original.MaybeSendScroll(now, pageA);
    relay := hub.OnMessage(now, sent.value, Some(tabId), Some(a));
  }

  /**
   * One whole round: the relayed scroll reaches the translated pane, whatever
   * state that pane is in (its user-intent window may well be open), as long
   * as it has not applied this very sync id already. Until its window closes
   * (`later`) it reports nothing back, neither its own scroll nor a driver
   * request; and a driver request it sent during the echo block
   * (`requestAt`) would be refused, so the original pane stays the driver.
   */
  method EchoFreeRound(tabId: int, a: int, b: int, now: int, later: int, requestAt: int,
                       translated: PaneAgent, pageA: Page, pageB: Page, pageLater: Page)
    returns (relay: Option<Relay>, echo: Option<Message>, intent: Option<Message>, driver: Option<int>)
    requires a != b
    requires now >= SendIntervalMs
    requires now <= later < now + ApplySuppressMs + RemoteApplyExtraMs
    requires now <= requestAt < now + EchoBlockMs
    requires HitInDocument(pageA.doc, ProbeHit(pageA))
    requires HitInDocument(pageLater.doc, ProbeHit(pageLater))
    requires translated.Valid()
    requires translated.lastAppliedSyncId != Some(SyncId("original", 1, now))
    modifies translated
    ensures relay.Some? && relay.value.tabId == tabId && relay.value.frameId == b
    ensures relay.value.message.ApplyScroll?
    ensures relay.value.message.progress == ScrollProgress(pageA.view)
    ensures relay.value.message.anchor == AnchorAt(pageA)
    ensures echo == None && intent == None
    ensures driver == Some(a)
  {
    var hub;
    hub, relay := RelayUserScroll(tabId, a, b, now, pageA);
    assert translated.Accepts(relay.value.message);
    var scrolledTo := translated.OnMessage(now, relay.value.message, pageB);
    echo := translated.MaybeSendScroll(later, pageLater);
    intent := translated.MarkUserIntent(later, true);
    var ignored := hub.OnMessage(requestAt, SetActiveSource, Some(tabId), Some(b));
    driver := hub.sessions[tabId].activeSourceFrameId;
  }
}
