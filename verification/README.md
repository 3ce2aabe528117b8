# Scroll synchronisation for a side-by-side translation viewer — a Dafny model

The browser extension shows a page and its machine translation side by side, each in its own
frame (a *pane*), and keeps the two scrolled to the same place. This project models the
protocol that does it, and proves properties of the model:

- **Anchor codec** (`anchor_codec.dfy`, over the document tree of `dom.dfy` and the geometry of
  `layout.dfy`). A pane records the element under its anchor line. It stores the element's child
  indices from the body (at most nine), its tag name, its ordinal among elements of that tag,
  and how far through the element the line falls. The other pane resolves the anchor by path
  first. It falls back to the tag ordinal when the path fails or leads to an element of another
  tag. The document is a tree of `(tag, children)` elements rooted at the body. An element is
  identified by its position (its child-index path from the body).
  `getElementsByTagName` is the pre-order list of positions with that tag.
- **Pane agent** (`pane.dfy`). Class `PaneAgent` holds the script's closure variables as fields.
  Its methods take the time `now` and the page's geometry as parameters. They decide when a
  scroll is reported (suppression, user-intent, rate and distance gates). They also apply relayed
  scrolls, dropping duplicate sync ids and opening the suppression windows.
- **Coordinator** (`coordinator.dfy`). Class `Hub` holds the session table
  `map<int, Session>`, keyed by tab id. It has one method per message type, plus teardown and
  the toolbar action. A relayed `APPLY_SCROLL` is the method's return value. The per-session
  transitions are the functions `Register`, `RequestDriver` and `ScrollStep`.
- **Protocol** (`protocol.dfy`). One full round: a user scroll in the original pane is relayed
  once to the translated pane. That pane then sends nothing back while its suppression window
  lasts, and the driver does not change.

In these places the model follows behaviour of the code that a reader might not expect:

- A session is created when the first of the two frames registers, not once both have.
- An anchor without a tag name accepts whatever element its path reaches, with no tag check.
- `activeSourceFrameId` is a registered frame when it is assigned. A later re-registration of
  that role under a new frame id can leave it stale (`ReRegistrationLeavesStaleDriver`).
- For an element more than nine levels below the body, the recorded path holds only the last
  nine indices, but it is resolved from the body. It can land on another element of the same
  tag, and then the tag-ordinal fallback is not used (`DeepAnchorLandsOnAncestor`).

## Model

| member | source | states |
|---|---|---|
| `Dom.TaggedSound` | content.js:99 | every position `getElementsByTagName` lists is an element of the document with that tag |
| `Dom.TaggedComplete` | content.js:99 | every element of the document with that tag is listed |
| `Dom.IndexOf` | content.js:100-106 | the index of the first occurrence of the element, or -1 exactly when it is absent |
| `Layout.Clamp01` | content.js:194 | `Math.min(Math.max(x, 0), 1)` lands in [0,1], leaves values already there alone, and sends the rest to the nearer end |
| `Layout.Round` | content.js:190 | `Math.round`: the nearest integer, ties rounded up |
| `Layout.MaxScroll` | content.js:199 | the scroll range `max(scrollHeight - innerHeight, 0)`, zero exactly when the page does not scroll |
| `Layout.ScrollProgress` | content.js:31-43 | the progress is in [0,1], exactly 0 when the scrollable range is at most 0, and scrollTop/max inside the range |
| `Layout.ProbeX` | content.js:124 | the hit-test x is at least 1 and is the middle of the viewport |
| `Layout.ProbeY` | content.js:123 | the hit-test y is within [1,120]: 120 on tall windows, the last row on short ones |
| `Layout.OffsetRatio` | content.js:148-150 | the offset ratio is in [0,1]: 0 when the box starts below the anchor line, 1 when it ends above it |
| `Layout.AnchoredTop` | content.js:186-190 | the anchored target puts the point `offsetRatio` down the element on the anchor line, to within rounding |
| `Layout.AnchoredTopRestoresScroll` | content.js:148-150 | when the anchor line crosses the element's box, applying the recorded offset ratio on the same geometry returns the page to its own scroll position, rounded |
| `Layout.ProgressTop` | content.js:193-197 | the fallback target `round(max * clamp(progress))` stays within [0, max] |
| `Layout.ClampTop` | content.js:199-200 | the clamp yields [0, maxScroll] and leaves in-range values alone |
| `AnchorCodec.BuildElementPath` | content.js:50-75 | at most 9 indices, the last ones of the element's position; the whole position when it is at most 9 deep; each index is valid for its parent |
| `AnchorCodec.ResolveElementPath` | content.js:77-91 | the walk from the body finds the element the path leads to, or null |
| `AnchorCodec.ResolveFailsAtBadIndex` | content.js:83-88 | resolution is null exactly when some index is negative or at least the current element's child count |
| `AnchorCodec.GetTagOrdinal` | content.js:93-107 | the scan returns the element's index among same-tag elements, -1 without a tag name |
| `AnchorCodec.TagOrdinalFound` | content.js:93-107 | every element with a tag name has an ordinal, and it indexes that element |
| `AnchorCodec.ResolveByTagOrdinal` | content.js:109-120 | null for a missing tag, a negative ordinal or one past the end; otherwise an element of that tag, the ordinal-th in document order |
| `AnchorCodec.TagOrdinalRoundTrip` | content.js:93-120 | resolving an element's own tag and ordinal returns that element |
| `AnchorCodec.FindTarget` | content.js:160-175 | a null anchor gives null; the path result is kept only when its tag matches (or the anchor has no tag), otherwise the tag-ordinal result |
| `AnchorCodec.FindTargetFromAnchor` | content.js:160-175 | the method computes `FindTarget` |
| `AnchorCodec.Unwrap` | content.js:135-137 | the result is the nearest ancestor-or-self that is not a SPAN (or the body), and everything climbed over is a SPAN |
| `AnchorCodec.PickedElement` | content.js:125-139 | no hit, or a text node without a parent, gives null; otherwise the unwrapped element, which is in the document |
| `AnchorCodec.PickAnchorElement` | content.js:122-140 | the method hit-tests at the probe point and climbs out of SPANs as `PickedElement` says |
| `AnchorCodec.BuildAnchor` | content.js:142-158 | the anchor has at most 9 path indices and an offset ratio in [0,1] |
| `AnchorCodec.AnchorRoundTrip` | content.js:50-175 | an anchor for an element at most 9 levels deep resolves to that element in the same document |
| `AnchorCodec.AnchorResolvesToSameTag` | content.js:160-175 | at any depth the anchor resolves to an element of the same tag: the element itself, or for a deep element the place its truncated path leads to |
| `AnchorCodec.DeepAnchorLandsOnAncestor` | content.js:54-59 | for ten nested DIVs, the anchor of the innermost resolves to its parent |
| `Pane.FrameRole` | content.js:1-7 | only frames named `originalPane` and `translatedPane` get a role, "original" and "translated" respectively |
| `Pane.TargetTop` | content.js:183-200 | the applied scroll position is in [0, maxScroll]; when an element resolves, the page scrolls to its anchored position clamped to the range (exactly there when in range, 0 above the top, maxScroll past the end), whatever the progress; only when no element resolves is it the progress fallback |
| `Pane.AnchorWinsOverProgress` | content.js:142-200 | a pane's own anchor, for an element at most 9 deep that the anchor line crosses, applied to the same page returns it to its scroll position (rounded), whatever progress travels with it |
| `Pane.PaneAgent.constructor` | content.js:10-23 | initial state: nothing sent or applied, progress -1, all windows closed |
| `Pane.PaneAgent.MaybeSendScroll` | content.js:245-272 | with a gate closed it sends nothing and changes nothing; otherwise it records the send time and progress, bumps the sequence by exactly 1, and returns `SCROLL` with that sync id |
| `Pane.PaneAgent.ApplyScroll` | content.js:177-209 | scrolls to a position in [0, maxScroll] (the progress fallback when no element resolves); sets suppression to now+360; records a non-null sync id and the new progress |
| `Pane.PaneAgent.SignalActiveSource` | content.js:218-232 | a driver request is sent exactly when no remote apply is in progress and it is forced or 120 ms have passed |
| `Pane.PaneAgent.MarkUserIntent` | content.js:234-243 | during a remote apply nothing changes; otherwise the intent window opens for 1200 ms and a forced request is sent |
| `Pane.PaneAgent.OnMessage` | content.js:285-297 | other types and repeated sync ids are ignored with no state change; otherwise the pane is muted until now+780, later than the suppression at now+360, and the scroll is applied |
| `Coordinator.ParseRole` | background.js:46 | only "original" and "translated" are roles |
| `Coordinator.Register` | background.js:57-61 | sets the frame id of its role only; the other frame, the driver and the echo block are kept |
| `Coordinator.RequestDriver` | background.js:66-88 | no-op for an unregistered frame or one under the echo block; otherwise the frame becomes the driver; the driver is only ever set to a registered frame |
| `Coordinator.ScrollStep` | background.js:97-130 | a scroll is accepted exactly from a registered frame with a registered peer that drives (or when there is no driver); accepting makes it the driver, blocks the peer until now+650 and targets the peer only; refusal changes nothing |
| `Coordinator.AfterRegister` | background.js:45-63 | an invalid frame id or role leaves the table unchanged; a valid one creates or updates only that tab's session |
| `Coordinator.AfterDriverRequest` | background.js:66-89 | with no session for the tab nothing changes; other tabs are never touched |
| `Coordinator.AfterScroll` | background.js:91-131 | relays exactly one `APPLY_SCROLL` to the target frame, copying progress, anchor and sync id, exactly when the scroll is accepted; other tabs are untouched |
| `Coordinator.MatchesHttpScheme` | background.js:3-5 | matches exactly the strings starting with "http://" or "https://", ignoring ASCII case |
| `Coordinator.Hub.constructor` | background.js:1 | the table starts empty |
| `Coordinator.Hub.RegisterFrame` | background.js:45-64 | the table becomes `AfterRegister` of the old table |
| `Coordinator.Hub.SetActiveSource` | background.js:66-89 | the table becomes `AfterDriverRequest` of the old table |
| `Coordinator.Hub.Scroll` | background.js:91-131 | the table and the relay are `AfterScroll` of the old table |
| `Coordinator.Hub.OnMessage` | background.js:37-132 | messages from outside a tab, or of other types, change nothing; the rest act as their type says |
| `Coordinator.Hub.CleanupSession` | background.js:19-21 | removes exactly that tab's session |
| `Coordinator.Hub.OnTabRemoved` | background.js:134-136 | a closed tab's session is removed |
| `Coordinator.Hub.OnTabUpdated` | background.js:138-147 | an address change to a non-viewer URL removes the session; other updates keep it |
| `Coordinator.Hub.OnActionClicked` | background.js:23-35 | on an http(s) page the tab's session is dropped and the viewer opened; otherwise nothing happens |
| `Coordinator.RegisterIdempotent` | background.js:50-62 | repeating a registration changes nothing further |
| `Coordinator.EchoBlockHoldsBackTarget` | background.js:78-84 | after a relay, the target's driver requests are refused for 650 ms |
| `Coordinator.ReRegistrationLeavesStaleDriver` | background.js:57-62 | re-registering a role under a new frame id leaves the old id as driver, so scrolls are dropped until a driver request |
| `Protocol.RelayUserScroll` | background.js:108-130 | a user scroll in the original pane makes it the driver and is relayed to the translated frame |
| `Protocol.EchoFreeRound` | content.js:245-297 | whatever its state (its user-intent window may be open), once the translated pane applies the relayed scroll it sends no scroll and no driver request until the 780 ms window closes, and the driver stays the original pane |

## Left out

- Pane.FrameRole: the role lookup is an own-name test. content.js:6 indexes a plain object, so a frame named after an inherited property (`constructor`, `toString`, `__proto__`, ...) would get a truthy non-role value and run the agent. That agent's `REGISTER_FRAME` is refused at background.js:46, so no session changes. The `window.top !== window` test of content.js:7 (the agent runs only in subframes) is not modelled either.
- The `chrome.*` calls are foreign I/O: `runtime.sendMessage`, `tabs.sendMessage` with its swallowed `lastError`, `tabs.update`, and listener registration. A sent message is the method's return value.
- Event-listener wiring (content.js:274-283) and the delayed `REGISTER_FRAME` retries (content.js:299-301) are scheduling only. Each handler call is one atomic step, and `sendRegister` is just the `RegisterFrame(role)` message.
- `Date.now()` is the parameter `now`. Each handler reads the clock once, where the source may read it several times within one call.
- Hit-testing and geometry are inputs of `Layout.Page`. These are `elementFromPoint`, `getBoundingClientRect`, `innerHeight`, `innerWidth` and `scrollHeight`.
- Writing the scroll position is the returned value. The model assumes the browser takes it exactly. `window.scrollTo` is not modelled.
- Numbers are exact reals and integers, not IEEE doubles. `Number.isFinite` always holds in the model, so its fallback to 0 for a non-finite progress or offset ratio does not arise. `Math.round` is modelled exactly on reals.
- `getScroller` always finds a scrolling element, so the early returns of `getScrollProgress` and `applyScroll` for a missing scroller are not modelled.
- The document tree stops at the body. Elements in `head` (which `getElementsByTagName` also counts) and the `documentElement` are not modelled. Climbing out of SPANs stops at the body, whose tag is never SPAN.
- Tag names are compared exactly. HTML's case-insensitive matching and the `"*"` wildcard of `getElementsByTagName` are not modelled. Anchors carry names read from `tagName`, so both panes use the same case.
- The `break`s in `buildElementPath` for a missing parent or an index not found cannot happen in a tree, so they are not modelled. Nor are the type checks on values that the model types fix (`Array.isArray(path)`, `typeof ordinal`, `typeof blockActiveUntil`).
- A missing message is the `Unrecognised` message, which both handlers ignore.
- `buildTranslatedUrl` and `buildViewerUrl` (background.js:7-17) are string formatting over `encodeURIComponent` and `URL`. The `catch` of the toolbar handler is not modelled.
- viewer.js is not part of this model. It is UI: it sets the frame sources and shows a load-timeout notice.
- Concurrency and message ordering between panes are not modelled. Components are sequential state machines, and the protocol scenario runs its steps in one fixed order.
