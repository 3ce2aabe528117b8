/** The messages panes and the coordinator exchange. */
module Messages {
  import opened Wrappers
  import opened AnchorCodec

  /** A pane's outbound sync token, `role:seq:timestamp`. The role contains
      no colon and the other two parts are integers, so two tokens are equal
      as strings exactly when their three parts are equal. */
  datatype SyncId = SyncId(role: string, counter: int, sentAt: int)

  datatype Message =
    | RegisterFrame(role: string)
    | SetActiveSource
    | Scroll(progress: real, anchor: Option<Anchor>, syncId: Option<SyncId>)
    | ApplyScroll(progress: real, anchor: Option<Anchor>, syncId: Option<SyncId>)
      /** Any other message, including a missing one. */
    | Unrecognised
}
