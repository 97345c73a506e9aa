/**
 * The `flow_handle_incoming_message` flow of
 * backend/src/flows/messaging/handle-incoming-message.ts: an SMS or WhatsApp
 * message arrives; the sender is identified by phone, the last five
 * interactions logged under that phone are rendered oldest first, a system
 * prompt is picked by the sender's type, the model's reply is generated, the
 * inbound message is logged and the reply is sent back on the same channel.
 *
 * The language model is the oracle `generate` (`None` when it throws); the id
 * Firestore gives the inbound record (`None` when the write fails), Twilio's
 * answer `sid` and the id of the reply's log record are parameters.
 */
module IncomingMessageFlow {
  import opened Wrappers
  import opened Seqs
  import opened Text
  import opened Time
  import opened BackendTypes
  import opened Crm
  import opened Messaging
  import opened CallConfigFlow

  /**
   * The system prompt, with the name it interpolates. The former-student prompt
   * interpolates the name without a fallback, so an absent name stays absent.
   */
  datatype MessagePrompt =
    | NewContactPrompt
    | ActiveStudentPrompt(name: string)
    | FormerStudentPrompt(storedName: Option<string>)
    | ProspectPrompt(name: string)

  datatype IncomingOutput = IncomingOutput(response: string, userId: Option<string>, action: string)

  /** The prompt chosen by the identified sender's own type (no student profile is read here). */
  function MessagePromptFor(user: Option<User>): MessagePrompt {
    if user.None? then NewContactPrompt
    else if user.value.userType == ActiveStudent then ActiveStudentPrompt(OrElse(user.value.name, "a student"))
    else if user.value.userType == FormerStudent then FormerStudentPrompt(user.value.name)
    else ProspectPrompt(OrElse(user.value.name, "a prospect"))
  }

  /** One line of the rendered history: who spoke, then the summary (`undefined` when absent). */
  function HistoryLine(i: Interaction): string {
    (if i.direction == Inbound then "User" else "AI") + ": " + i.summary.GetOr("undefined")
  }

  /** The history's lines in reverse, that is oldest first for a newest-first history. */
  function HistoryLines(history: seq<Interaction>): (r: seq<string>)
    ensures |r| == |history|
  {
    Reverse(seq(|history|, i requires 0 <= i < |history| => HistoryLine(history[i])))
  }

  function HistoryContext(history: seq<Interaction>): string {
    Join(HistoryLines(history), "\n")
  }

  /** The record of the message that came in: inbound, logged under the sender's phone, the body as summary. */
  function InboundRecord(id: string, from: string, channel: TextChannel, body: string, now: Instant): Interaction {
    Interaction(id, from, ChannelOf(channel), Inbound, QuestionAnswered, None, None, Some(body), now)
  }

  /** What the model is asked: the system prompt, the rendered history and the message. */
  function Reply(users: seq<User>, log: seq<Interaction>, from: string, body: string,
                 generate: (MessagePrompt, string, string) -> Option<string>): Option<string>
  {
    var history := ConversationHistory(log, from, Some(5));
    generate(MessagePromptFor(IdentifyUser(users, from)), HistoryContext(history), body)
  }

  /**
   * The flow. A failed generation sends and logs nothing; a failed inbound log
   * sends nothing; otherwise the reply goes out on the message's own channel to
   * the sender, and the flow succeeds when the send and its log succeed.
   */
  method HandleIncomingMessage(users: seq<User>, messaging: MessagingService, from: string, to: string, body: string,
                               channel: TextChannel, generate: (MessagePrompt, string, string) -> Option<string>,
                               inboundId: Option<string>, sid: Option<string>, logId: Option<string>, now: Instant)
    returns (r: Result<IncomingOutput>)
    modifies messaging
    ensures var reply := Reply(users, old(messaging.log), from, body, generate);
      reply.None? || inboundId.None? ==>
        r.Err? && messaging.log == old(messaging.log) && messaging.outbox == old(messaging.outbox)
    ensures var reply := Reply(users, old(messaging.log), from, body, generate);
      reply.Some? && inboundId.Some? ==>
        && messaging.outbox == old(messaging.outbox)
             + (if sid.Some? then [TextOn(channel, messaging.fromNumber, from, reply.value)] else [])
        && messaging.log == old(messaging.log) + [InboundRecord(inboundId.value, from, channel, body, now)]
             + (if sid.Some? && logId.Some? then [OutboundRecord(logId.value, from, ChannelOf(channel), Some(reply.value), now)] else [])
        && (r.Ok? <==> sid.Some? && logId.Some?)
    ensures r.Ok? ==>
      var user := IdentifyUser(users, from);
      r.value == IncomingOutput(Reply(users, old(messaging.log), from, body, generate).value,
                                if user.Some? then Some(user.value.id) else None, "message_sent")
  {
    var user := IdentifyUser(users, from);
    var history := ConversationHistory(messaging.log, from, Some(5));
    var reply := generate(MessagePromptFor(user), HistoryContext(history), body);
    if reply.None? {
      return Err("generation failed");
    }
    var logged := messaging.LogInteraction(InboundRecord("", from, channel, body, now), inboundId);
    if logged.Err? {
      return Err(logged.error);
    }
    var sent := messaging.SendText(channel, from, reply.value, sid, logId, now);
    if sent.Err? {
      return Err(sent.error);
    }
    r := Ok(IncomingOutput(reply.value, if user.Some? then Some(user.value.id) else None, "message_sent"));
  }

  /**
   * The model sees at most five of the sender's interactions, oldest first, one
   * line each; and none of the sender's interactions it is not shown is newer
   * than one it is shown.
   */
  lemma HistoryShownOldestFirst(log: seq<Interaction>, from: string)
    ensures |Reverse(ConversationHistory(log, from, Some(5)))| <= 5
    ensures var h := ConversationHistory(log, from, Some(5));
      forall i :: 0 <= i < |h| ==> HistoryLines(h)[i] == HistoryLine(Reverse(h)[i]) && Reverse(h)[i].userId == from
    ensures var shown := Reverse(ConversationHistory(log, from, Some(5)));
      forall i, j :: 0 <= i < j < |shown| ==> shown[i].timestamp <= shown[j].timestamp
    ensures var h := ConversationHistory(log, from, Some(5));
      forall e, i :: e in log && e.userId == from && e !in h && 0 <= i < |h| ==> e.timestamp <= Reverse(h)[i].timestamp
  {
    var h := ConversationHistory(log, from, Some(5));
    HistoryWindow(log, from, Some(5));
    LinesFollowReverse(h);
    ReverseIsOldestFirst(h);
  }

  lemma LinesFollowReverse(h: seq<Interaction>)
    ensures forall i :: 0 <= i < |h| ==> HistoryLines(h)[i] == HistoryLine(Reverse(h)[i])
  {
    var lines := seq(|h|, i requires 0 <= i < |h| => HistoryLine(h[i]));
    forall i | 0 <= i < |h|
      ensures HistoryLines(h)[i] == HistoryLine(Reverse(h)[i])
    {
      assert Reverse(lines)[i] == lines[|h| - 1 - i];
    }
  }

  lemma ReverseIsOldestFirst(h: seq<Interaction>)
    requires NewestFirst(h)
    ensures forall i, j :: 0 <= i < j < |h| ==> Reverse(h)[i].timestamp <= Reverse(h)[j].timestamp
    ensures forall i :: 0 <= i < |h| ==> Reverse(h)[i] in h
  {
    forall i, j | 0 <= i < j < |h|
      ensures Reverse(h)[i].timestamp <= Reverse(h)[j].timestamp
    {
      assert Reverse(h)[i] == h[|h| - 1 - i] && Reverse(h)[j] == h[|h| - 1 - j];
    }
    forall i | 0 <= i < |h|
      ensures Reverse(h)[i] in h
    {
      assert Reverse(h)[i] == h[|h| - 1 - i];
    }
  }

  /**
   * The text persona agrees with the voice persona of a general call: an unknown
   * sender is a new contact for both; an active student is greeted by the same
   * name as the voice member prompt uses; a lead or prospect by the same name as
   * the voice sales prompt; a former student gets the member prompt by voice and
   * the former-student prompt by text, the latter with the name as stored.
   */
  lemma TextAndVoicePersonasAgree(users: seq<User>, phone: string)
    requires UniqueIds(users)
    ensures var u := IdentifyUser(users, phone);
      var text := MessagePromptFor(u);
      var voice := GenerateCallConfig(users, phone, None).systemPrompt;
      && (u.None? <==> text == NewContactPrompt)
      && (u.None? <==> voice == NewCallerPrompt)
      && (u.Some? && u.value.userType == ActiveStudent ==>
            text == ActiveStudentPrompt(OrElse(u.value.name, "a student"))
            && voice.MemberPrompt? && voice.name == OrElse(u.value.name, "a student"))
      && (u.Some? && u.value.userType == FormerStudent ==>
            text == FormerStudentPrompt(u.value.name) && voice.MemberPrompt?)
      && (u.Some? && (u.value.userType == Lead || u.value.userType == NewProspect) ==>
            text == ProspectPrompt(OrElse(u.value.name, "a prospect"))
            && voice == SalesPrompt(OrElse(u.value.name, "a prospect")))
  {
    var u := IdentifyUser(users, phone);
    if u.Some? {
      ProfileOfStoredUser(users, u.value);
    }
  }
}
