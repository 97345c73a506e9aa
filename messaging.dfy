/**
 * The messaging service of backend/src/services/messaging.service.ts: outbound SMS,
 * WhatsApp and voice calls through Twilio, each followed by one append to the
 * `interactions` collection, and the conversation-history query.
 *
 * Twilio is the `outbox` the service hands messages to; whether Twilio accepts a
 * message is the parameter `sid` (`None` when the call throws). A write to the
 * collection that fails is an absent new id. The clock is the parameter `now`.
 */
module Messaging {
  import opened Wrappers
  import opened Seqs
  import opened Text
  import opened Time
  import opened BackendTypes

  const WhatsAppPrefix: string := "whatsapp:"

  /** `to.startsWith('whatsapp:') ? to : 'whatsapp:' + to`. */
  function WhatsAppAddress(address: string): (r: string)
    ensures StartsWith(r, WhatsAppPrefix)
    ensures StartsWith(address, WhatsAppPrefix) ==> r == address
    ensures !StartsWith(address, WhatsAppPrefix) ==> r == WhatsAppPrefix + address
  {
    if StartsWith(address, WhatsAppPrefix) then address else WhatsAppPrefix + address
  }

  /** Prefixing twice is prefixing once: an address is never prefixed twice. */
  lemma WhatsAppAddressIdempotent(address: string)
    ensures WhatsAppAddress(WhatsAppAddress(address)) == WhatsAppAddress(address)
  {
  }

  /** What was handed to Twilio: a text message or a call (whose body is the call-config URL). */
  datatype Outgoing = TextMessage(from: string, to: string, body: string) | Call(from: string, to: string, url: string)

  /** The record every send appends: outbound, outcome question answered, `userId` the address as passed. */
  function OutboundRecord(id: string, to: string, channel: Channel, summary: Option<string>, now: Instant): Interaction {
    Interaction(id, to, channel, Outbound, QuestionAnswered, None, None, summary, now)
  }

  /** The two text channels a flow may choose between. */
  datatype TextChannel = ViaSms | ViaWhatsApp

  function ChannelOf(c: TextChannel): Channel {
    if c == ViaSms then Sms else WhatsApp
  }

  /** What Twilio is handed for a text on `channel`: WhatsApp prefixes both addresses. */
  function TextOn(channel: TextChannel, fromNumber: string, to: string, body: string): Outgoing {
    match channel
    case ViaSms => TextMessage(fromNumber, to, body)
    case ViaWhatsApp => TextMessage(WhatsAppAddress(fromNumber), WhatsAppAddress(to), body)
  }

  /** On WhatsApp both addresses carry the prefix exactly once; on SMS they go out as given. */
  lemma TextOnAddresses(channel: TextChannel, fromNumber: string, to: string, body: string)
    ensures var m := TextOn(channel, fromNumber, to, body);
      && m.TextMessage? && m.body == body
      && (channel == ViaSms ==> m.from == fromNumber && m.to == to)
      && (channel == ViaWhatsApp ==>
            && StartsWith(m.from, WhatsAppPrefix) && StartsWith(m.to, WhatsAppPrefix)
            && WhatsAppAddress(m.to) == m.to && WhatsAppAddress(m.from) == m.from)
  {
  }

  class MessagingService {
    /** The `interactions` collection, in insertion order. */
    var log: seq<Interaction>
    var outbox: seq<Outgoing>
    const fromNumber: string

    constructor (fromNumber: string)
      ensures log == [] && outbox == [] && this.fromNumber == fromNumber
    {
      this.fromNumber := fromNumber;
      log := [];
      outbox := [];
    }

    /**
     * `logInteraction`: appends the record under a new id and returns it; the
     * entries already stored are never changed. A failed write stores nothing.
     */
    method LogInteraction(entry: Interaction, newId: Option<string>) returns (r: Result<string>)
      modifies this
      ensures outbox == old(outbox)
      ensures newId.None? ==> r.Err? && log == old(log)
      ensures newId.Some? ==> r == Ok(newId.value) && log == old(log) + [entry.(id := newId.value)]
    {
      if newId.None? {
        return Err("write failed");
      }
      log := log + [entry.(id := newId.value)];
      r := Ok(newId.value);
    }

    /**
     * `sendSMS`: hands the message to Twilio, then logs one outbound SMS with the
     * body as summary; returns Twilio's sid. A rejected message throws before
     * anything is logged; a failed log write throws after the message went out.
     */
    method SendSms(to: string, body: string, sid: Option<string>, logId: Option<string>, now: Instant)
      returns (r: Result<string>)
      modifies this
      ensures sid.None? ==> r.Err? && log == old(log) && outbox == old(outbox)
      ensures sid.Some? ==> outbox == old(outbox) + [TextMessage(fromNumber, to, body)]
      ensures sid.Some? && logId.None? ==> r.Err? && log == old(log)
      ensures sid.Some? && logId.Some? ==>
        r == Ok(sid.value) && log == old(log) + [OutboundRecord(logId.value, to, Sms, Some(body), now)]
    {
      if sid.None? {
        return Err("twilio rejected the message");
      }
      outbox := outbox + [TextMessage(fromNumber, to, body)];
      var logged := LogInteraction(OutboundRecord("", to, Sms, Some(body), now), logId);
      if logged.Err? {
        return Err(logged.error);
      }
      r := Ok(sid.value);
    }

    /**
     * `sendWhatsApp`: as `sendSMS`, but both addresses carry the `whatsapp:`
     * prefix (added only when missing) and the log's `userId` is `to` as passed.
     */
    method SendWhatsApp(to: string, body: string, sid: Option<string>, logId: Option<string>, now: Instant)
      returns (r: Result<string>)
      modifies this
      ensures sid.None? ==> r.Err? && log == old(log) && outbox == old(outbox)
      ensures sid.Some? ==> outbox == old(outbox) + [TextMessage(WhatsAppAddress(fromNumber), WhatsAppAddress(to), body)]
      ensures sid.Some? && logId.None? ==> r.Err? && log == old(log)
      ensures sid.Some? && logId.Some? ==>
        r == Ok(sid.value) && log == old(log) + [OutboundRecord(logId.value, to, WhatsApp, Some(body), now)]
    {
      var formattedTo := if StartsWith(to, WhatsAppPrefix) then to else WhatsAppPrefix + to;
      var formattedFrom := if StartsWith(fromNumber, WhatsAppPrefix) then fromNumber else WhatsAppPrefix + fromNumber;
      if sid.None? {
        return Err("twilio rejected the message");
      }
      outbox := outbox + [TextMessage(formattedFrom, formattedTo, body)];
      var logged := LogInteraction(OutboundRecord("", to, WhatsApp, Some(body), now), logId);
      if logged.Err? {
        return Err(logged.error);
      }
      r := Ok(sid.value);
    }

    /** `sendSMS` or `sendWhatsApp`, as `channel` says. */
    method SendText(channel: TextChannel, to: string, body: string, sid: Option<string>, logId: Option<string>, now: Instant)
      returns (r: Result<string>)
      modifies this
      ensures sid.None? ==> r.Err? && log == old(log) && outbox == old(outbox)
      ensures sid.Some? ==> outbox == old(outbox) + [TextOn(channel, fromNumber, to, body)]
      ensures sid.Some? && logId.None? ==> r.Err? && log == old(log)
      ensures sid.Some? && logId.Some? ==>
        r == Ok(sid.value) && log == old(log) + [OutboundRecord(logId.value, to, ChannelOf(channel), Some(body), now)]
    {
      if channel == ViaSms {
        r := SendSms(to, body, sid, logId, now);
      } else {
        r := SendWhatsApp(to, body, sid, logId, now);
      }
    }

    /** `makeOutboundCall`: places the call, then logs one outbound voice interaction without a summary. */
    method MakeOutboundCall(to: string, callConfigUrl: string, sid: Option<string>, logId: Option<string>, now: Instant)
      returns (r: Result<string>)
      modifies this
      ensures sid.None? ==> r.Err? && log == old(log) && outbox == old(outbox)
      ensures sid.Some? ==> outbox == old(outbox) + [Call(fromNumber, to, callConfigUrl)]
      ensures sid.Some? && logId.None? ==> r.Err? && log == old(log)
      ensures sid.Some? && logId.Some? ==>
        r == Ok(sid.value) && log == old(log) + [OutboundRecord(logId.value, to, Voice, None, now)]
    {
      if sid.None? {
        return Err("twilio rejected the call");
      }
      outbox := outbox + [Call(fromNumber, to, callConfigUrl)];
      var logged := LogInteraction(OutboundRecord("", to, Voice, None, now), logId);
      if logged.Err? {
        return Err(logged.error);
      }
      r := Ok(sid.value);
    }
  }

  // ---- getConversationHistory ----

  predicate NewestFirst(s: seq<Interaction>) {
    forall i, j :: 0 <= i < j < |s| ==> s[i].timestamp >= s[j].timestamp
  }

  /** Inserts a later entry after every entry at least as recent (ties keep store order). */
  function InsertByTime(s: seq<Interaction>, x: Interaction): (r: seq<Interaction>)
    ensures multiset(r) == multiset(s) + multiset{x}
    ensures |r| == |s| + 1
    decreases |s|
  {
    if s == [] then [x]
    else if s[|s| - 1].timestamp >= x.timestamp then s + [x]
    else
      var r' := InsertByTime(s[..|s| - 1], x);
      assert s == s[..|s| - 1] + [s[|s| - 1]];
      r' + [s[|s| - 1]]
  }

  /** `orderBy('timestamp', 'desc')`. */
  function SortNewestFirst(s: seq<Interaction>): (r: seq<Interaction>)
    ensures multiset(r) == multiset(s)
    ensures |r| == |s|
    decreases |s|
  {
    if s == [] then []
    else
      assert s == s[..|s| - 1] + [s[|s| - 1]];
      InsertByTime(SortNewestFirst(s[..|s| - 1]), s[|s| - 1])
  }

  lemma {:induction false} InsertByTimeKeepsBound(s: seq<Interaction>, x: Interaction, t: Instant)
    requires forall i :: 0 <= i < |s| ==> s[i].timestamp >= t
    requires x.timestamp >= t
    ensures forall i :: 0 <= i < |InsertByTime(s, x)| ==> InsertByTime(s, x)[i].timestamp >= t
  {
    if s != [] && s[|s| - 1].timestamp < x.timestamp {
      InsertByTimeKeepsBound(s[..|s| - 1], x, t);
    }
  }

  lemma {:induction false} InsertByTimeSorted(s: seq<Interaction>, x: Interaction)
    requires NewestFirst(s)
    ensures NewestFirst(InsertByTime(s, x))
  {
    if s != [] {
      var n := |s| - 1;
      if s[n].timestamp < x.timestamp {
        InsertByTimeSorted(s[..n], x);
        InsertByTimeKeepsBound(s[..n], x, s[n].timestamp);
      }
    }
  }

  lemma {:induction false} SortNewestFirstSorted(s: seq<Interaction>)
    ensures NewestFirst(SortNewestFirst(s))
  {
    if s != [] {
      SortNewestFirstSorted(s[..|s| - 1]);
      InsertByTimeSorted(SortNewestFirst(s[..|s| - 1]), s[|s| - 1]);
    }
  }

  predicate ForUser(i: Interaction, phone: string) {
    i.userId == phone
  }

  /** `getConversationHistory`: this phone's interactions, newest first, at most `limit` (10 by default). */
  function ConversationHistory(log: seq<Interaction>, phone: string, limit: Option<nat>): seq<Interaction> {
    SliceTo(SortNewestFirst(Filter(log, i => ForUser(i, phone))), limit.GetOr(10))
  }

  /**
   * The history holds only the phone's own interactions, newest first, at most
   * `limit` of them, all of them when there are fewer; and any interaction of that
   * phone it leaves out is no newer than every one it lists.
   */
  lemma HistoryWindow(log: seq<Interaction>, phone: string, limit: Option<nat>)
    ensures var h := ConversationHistory(log, phone, limit);
      var mine := Filter(log, i => ForUser(i, phone));
      && NewestFirst(h)
      && |h| == Min(limit.GetOr(10), |mine|)
      && (forall i :: 0 <= i < |h| ==> h[i] in log && h[i].userId == phone)
      && (forall e, i :: e in log && ForUser(e, phone) && e !in h && 0 <= i < |h| ==> h[i].timestamp >= e.timestamp)
  {
    var mine := Filter(log, i => ForUser(i, phone));
    var sorted := SortNewestFirst(mine);
    SortNewestFirstSorted(mine);
    var h := ConversationHistory(log, phone, limit);
    assert h == sorted[..|h|];
    forall i | 0 <= i < |h|
      ensures h[i] in log && h[i].userId == phone
    {
      assert h[i] in multiset(sorted);
      assert h[i] in mine;
    }
    forall e | e in log && ForUser(e, phone) && e !in h
      ensures forall i :: 0 <= i < |h| ==> h[i].timestamp >= e.timestamp
    {
      assert e in mine;
      assert e in multiset(sorted);
      var k :| 0 <= k < |sorted| && sorted[k] == e;
      assert k >= |h|;
    }
  }
}
