/**
 * The `crm_create_lead` tool of backend/src/tools/crm/create-lead.ts: a tagged
 * success or failure around the CRM's idempotent lead creation.
 */
module CreateLeadTool {
  import opened Wrappers
  import opened Time
  import opened BackendTypes
  import opened Crm

  datatype CreateLeadOutput = CreateLeadOutput(success: bool, userId: string, message: string)

  const SuccessPrefix: string := "Lead created successfully with ID: "

  /**
   * The tool: success with the id `createLead` returned (the existing user's id
   * when the phone is already known, which also counts as success), or failure
   * with an empty id when the write throws.
   */
  method CreateLead(store: UserStore, phone: string, name: Option<string>, email: Option<string>,
                    source: LeadSource, interest: Option<string>, newId: Option<string>, now: Instant)
    returns (o: CreateLeadOutput)
    requires store.Valid() && (newId.Some? ==> store.Fresh(newId.value))
    modifies store
    ensures store.Valid()
    ensures var existing := Crm.IdentifyUser(old(store.users), phone);
      && (existing.Some? ==> o == CreateLeadOutput(true, existing.value.id, SuccessPrefix + existing.value.id)
                             && store.users == old(store.users))
      && (existing.None? && newId.Some? ==>
            o == CreateLeadOutput(true, newId.value, SuccessPrefix + newId.value)
            && store.users == old(store.users) + [Crm.NewLead(newId.value, phone, name, email, source, interest, now)])
      && (existing.None? && newId.None? ==> !o.success && o.userId == "" && store.users == old(store.users))
    ensures o.success ==> Crm.IdentifyUser(store.users, phone).Some? && Crm.IdentifyUser(store.users, phone).value.id == o.userId
  {
    var r := store.CreateLead(phone, name, email, source, interest, newId, now);
    if r.Ok? {
      o := CreateLeadOutput(true, r.value, SuccessPrefix + r.value);
    } else {
      o := CreateLeadOutput(false, "", "Failed to create lead: " + r.error);
    }
  }
}
