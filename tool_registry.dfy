/**
 * The ElevenLabs webhook of backend/src/webhooks/elevenlabs.ts: `/call-config`
 * answers an inbound call with the voice configuration for the caller;
 * `/tools` runs one of the seven agent tools by name; `/tools/list` publishes
 * the catalog of those tools.
 *
 * Running a tool is the oracle `run` (`None` when the tool throws); its result
 * is passed through untouched.
 */
module ElevenLabsWebhook {
  import opened Wrappers
  import opened BackendTypes
  import opened Crm
  import opened CallConfigFlow

  datatype ToolKind =
    | IdentifyUserKind
    | CreateLeadKind
    | CheckAvailabilityKind
    | BookAppointmentKind
    | RagQueryKind
    | CheckStockKind
    | LogInteractionKind

  /** The name each tool is registered under in the dispatcher. */
  function ToolName(k: ToolKind): string {
    match k
    case IdentifyUserKind => "crm_identify_user"
    case CreateLeadKind => "crm_create_lead"
    case CheckAvailabilityKind => "calendar_check_availability"
    case BookAppointmentKind => "calendar_book_appointment"
    case RagQueryKind => "rag_query_knowledge_base"
    case CheckStockKind => "inventory_check_stock"
    case LogInteractionKind => "analytics_log_interaction"
  }

  /** The dispatcher's `switch (tool)`: the tool registered under the name, if any. */
  function Lookup(name: string): (r: Option<ToolKind>)
    ensures r.Some? ==> ToolName(r.value) == name
  {
    match name
    case "crm_identify_user" => Some(IdentifyUserKind)
    case "crm_create_lead" => Some(CreateLeadKind)
    case "calendar_check_availability" => Some(CheckAvailabilityKind)
    case "calendar_book_appointment" => Some(BookAppointmentKind)
    case "rag_query_knowledge_base" => Some(RagQueryKind)
    case "inventory_check_stock" => Some(CheckStockKind)
    case "analytics_log_interaction" => Some(LogInteractionKind)
    case _ => None
  }

  /** Every tool is found under its own name, so no two tools share a name. */
  lemma LookupInvertsToolName(k: ToolKind)
    ensures Lookup(ToolName(k)) == Some(k)
  {
  }

  lemma ToolNamesDistinct(k1: ToolKind, k2: ToolKind)
    ensures ToolName(k1) == ToolName(k2) ==> k1 == k2
  {
    LookupInvertsToolName(k1);
    LookupInvertsToolName(k2);
  }

  /** The `tool` field of the request body: absent or falsy, a string, or another truthy value and its text. */
  datatype ToolField = NoTool | ToolText(name: string) | ToolOther(text: string, truthy: bool)

  datatype Body<R> = ErrorBody(error: string) | Payload(value: R)

  datatype Reply<R> = Reply(status: int, body: Body<R>)

  /** `!tool`. */
  predicate Falsy(f: ToolField) {
    f.NoTool? || (f.ToolText? && f.name == "") || (f.ToolOther? && !f.truthy)
  }

  function FieldText(f: ToolField): string {
    match f
    case NoTool => ""
    case ToolText(name) => name
    case ToolOther(text, _) => text
  }

  /** `POST /tools`. */
  function DispatchTool<R>(tool: ToolField, run: ToolKind -> Option<R>): Reply<R> {
    if Falsy(tool) then Reply(400, ErrorBody("Tool name required"))
    else
      var kind := if tool.ToolText? then Lookup(tool.name) else None;
      if kind.None? then Reply(404, ErrorBody("Tool " + FieldText(tool) + " not found"))
      else
        var result := run(kind.value);
        if result.None? then Reply(500, ErrorBody("Tool execution failed"))
        else Reply(200, Payload(result.value))
  }

  /**
   * The dispatcher's outcomes: 400 for a missing name; 404 for a name no tool is
   * registered under; otherwise the named tool runs, and exactly that tool: a
   * throw is a 500, a result a 200 carrying it unchanged.
   */
  lemma DispatchOutcomes<R>(tool: ToolField, run: ToolKind -> Option<R>)
    ensures var reply := DispatchTool(tool, run);
      && (reply.status == 400 <==> Falsy(tool))
      && (reply.status == 404 <==> !Falsy(tool) && (forall k :: tool != ToolText(ToolName(k))))
      && (forall k :: tool == ToolText(ToolName(k)) ==>
            reply == (if run(k).None? then Reply(500, ErrorBody("Tool execution failed")) else Reply(200, Payload(run(k).value))))
  {
    if !Falsy(tool) && tool.ToolText? && Lookup(tool.name).Some? {
      assert tool == ToolText(ToolName(Lookup(tool.name).value));
    }
    forall k | tool == ToolText(ToolName(k))
      ensures Lookup(tool.name) == Some(k)
    {
      LookupInvertsToolName(k);
    }
  }

  datatype CatalogEntry = CatalogEntry(name: string, description: string, parameters: seq<string>)

  /** `GET /tools/list`. */
  const Catalog: seq<CatalogEntry> := [
    CatalogEntry("crm_identify_user", "Identifies a user by phone number", ["phone"]),
    CatalogEntry("crm_create_lead", "Creates a new lead in the CRM", ["name", "phone", "email", "interest", "source"]),
    CatalogEntry("calendar_check_availability", "Checks available appointment slots",
                 ["startDate", "endDate", "appointmentType"]),
    CatalogEntry("calendar_book_appointment", "Books an appointment",
                 ["userId", "dateTime", "appointmentType", "duration", "notes"]),
    CatalogEntry("rag_query_knowledge_base", "Searches the knowledge base", ["question", "category", "topK"]),
    CatalogEntry("inventory_check_stock", "Checks Pro Shop inventory", ["itemName", "size", "color"]),
    CatalogEntry("analytics_log_interaction", "Logs an interaction for analytics",
                 ["userId", "channel", "outcome", "sentiment", "summary", "duration"])
  ]

  /** The position of a name in the catalog, or -1. */
  function CatalogIndex(name: string): (i: int)
    ensures -1 <= i < |Catalog|
    ensures i >= 0 ==> Catalog[i].name == name
    ensures i == -1 ==> forall j :: 0 <= j < |Catalog| ==> Catalog[j].name != name
  {
    if Catalog[0].name == name then 0
    else if Catalog[1].name == name then 1
    else if Catalog[2].name == name then 2
    else if Catalog[3].name == name then 3
    else if Catalog[4].name == name then 4
    else if Catalog[5].name == name then 5
    else if Catalog[6].name == name then 6
    else -1
  }

  /** The tools in the catalog's order. */
  const CatalogOrder: seq<ToolKind> := [IdentifyUserKind, CreateLeadKind, CheckAvailabilityKind, BookAppointmentKind,
                                        RagQueryKind, CheckStockKind, LogInteractionKind]

  lemma CatalogNamesAreToolNames()
    ensures |Catalog| == |CatalogOrder| == 7
    ensures forall i :: 0 <= i < |Catalog| ==> Catalog[i].name == ToolName(CatalogOrder[i])
    ensures forall i, j :: 0 <= i < j < |CatalogOrder| ==> CatalogOrder[i] != CatalogOrder[j]
  {
  }

  lemma CatalogLookups()
    ensures |Catalog| == |CatalogOrder| == 7
    ensures forall i, j :: 0 <= i < j < |CatalogOrder| ==> CatalogOrder[i] != CatalogOrder[j]
    ensures forall i :: 0 <= i < |Catalog| ==> Lookup(Catalog[i].name) == Some(CatalogOrder[i])
  {
    CatalogNamesAreToolNames();
    forall i | 0 <= i < |Catalog|
      ensures Lookup(Catalog[i].name) == Some(CatalogOrder[i])
    {
      LookupInvertsToolName(CatalogOrder[i]);
    }
  }

  /**
   * The catalog lists exactly the names the dispatcher accepts: every listed
   * name runs a tool, every tool is listed under its dispatch name, and the
   * seven entries name seven different tools.
   */
  lemma CatalogMatchesDispatcher()
    ensures |Catalog| == 7
    ensures forall i :: 0 <= i < |Catalog| ==> Lookup(Catalog[i].name).Some?
    ensures forall k :: CatalogIndex(ToolName(k)) >= 0
    ensures forall i, j :: 0 <= i < j < |Catalog| ==> Lookup(Catalog[i].name) != Lookup(Catalog[j].name)
  {
    CatalogLookups();
    forall k: ToolKind
      ensures CatalogIndex(ToolName(k)) >= 0
    {
      ToolListed(k);
    }
  }

  lemma ToolListed(k: ToolKind)
    ensures CatalogIndex(ToolName(k)) >= 0
  {
    CatalogNamesAreToolNames();
    assert k in CatalogOrder;
    var j :| 0 <= j < |CatalogOrder| && CatalogOrder[j] == k;
    assert Catalog[j].name == ToolName(k);
  }

  /** The `from` query parameter: absent, one string, or repeated (an array). */
  datatype CallerQuery = NoCaller | CallerText(from: string) | CallerList(values: seq<string>)

  /** `GET /call-config`: the flow runs for an inbound call with no purpose. */
  function CallConfigEndpoint(users: seq<User>, query: CallerQuery): Reply<CallConfig> {
    if !query.CallerText? || query.from == "" then Reply(400, ErrorBody("Missing caller ID"))
    else Reply(200, Payload(GenerateCallConfig(users, query.from, None)))
  }

  /**
   * Since the webhook never passes a purpose, an inbound call never gets the
   * collection or retention prompt: a known student always gets the member
   * prompt and a lead or prospect the sales prompt; a missing, empty or repeated
   * caller id is refused before any lookup.
   */
  lemma InboundCallsGetMemberOrSalesPrompt(users: seq<User>, query: CallerQuery)
    requires UniqueIds(users)
    ensures var reply := CallConfigEndpoint(users, query);
      && (reply.status == 400 <==> !query.CallerText? || query.from == "")
      && (reply.status != 400 ==>
            var u := IdentifyUser(users, query.from);
            var p := reply.body.value.systemPrompt;
            && reply.status == 200
            && (u.None? ==> p == NewCallerPrompt)
            && (u.Some? && IsStudentType(u.value.userType) ==> p.MemberPrompt?)
            && (u.Some? && !IsStudentType(u.value.userType) ==> p.SalesPrompt?))
  {
    if query.CallerText? && query.from != "" {
      CallConfigTable(users, query.from, None);
    }
  }
}
