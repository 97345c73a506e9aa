/**
 * The `analytics_log_interaction` tool of
 * backend/src/tools/analytics/log-interaction.ts: it records the caller's fields as
 * an inbound interaction and reports the new id, or a failure with an empty id.
 */
module LogInteractionTool {
  import opened Wrappers
  import opened Time
  import opened BackendTypes
  import opened Messaging

  datatype LogInput = LogInput(
    userId: string,
    channel: Channel,
    outcome: Outcome,
    sentiment: Option<Sentiment>,
    summary: Option<string>,
    duration: Option<int>)

  datatype LogOutput = LogOutput(success: bool, interactionId: string, message: string)

  /** The record the tool writes (the store assigns the id). */
  function Record(input: LogInput, now: Instant): Interaction {
    Interaction("", input.userId, input.channel, Inbound, input.outcome, input.sentiment, input.duration, input.summary, now)
  }

  /**
   * The tool: on a successful write, success with the new id and exactly one
   * record appended, inbound, stamped now and carrying the caller's fields as
   * given; on a failed write, no success, an empty id and nothing stored.
   */
  method LogInteraction(svc: MessagingService, input: LogInput, newId: Option<string>, now: Instant)
    returns (o: LogOutput)
    modifies svc
    ensures svc.outbox == old(svc.outbox)
    ensures newId.Some? ==>
      && o == LogOutput(true, newId.value, "Interaction logged successfully")
      && svc.log == old(svc.log) + [Record(input, now).(id := newId.value)]
    ensures newId.None? ==> !o.success && o.interactionId == "" && svc.log == old(svc.log)
    ensures o.success ==>
      var e := svc.log[|svc.log| - 1];
      && e.id == o.interactionId && e.direction == Inbound && e.timestamp == now
      && e.userId == input.userId && e.channel == input.channel && e.outcome == input.outcome
      && e.sentiment == input.sentiment && e.summary == input.summary && e.duration == input.duration
  {
    var r := svc.LogInteraction(Record(input, now), newId);
    if r.Ok? {
      o := LogOutput(true, r.value, "Interaction logged successfully");
    } else {
      o := LogOutput(false, "", "Failed to log interaction: " + r.error);
    }
  }
}
