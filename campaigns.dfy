/**
 * The ad campaigns screen of src/components/CampaignManager.tsx: the stored
 * campaign list with its create, status-update and delete handlers and the
 * totals shown above it; the play/pause toggle and click-through rate of each
 * row; and the three-step dialog that creates a paused campaign and its ad set
 * on Meta. The Meta API calls are oracles (`campaignId` is `None` when
 * creating the campaign throws, `adSetCreated` false when the ad set call
 * throws); the requests sent are recorded.
 */
module CampaignManagerView {
  import opened Wrappers
  import opened Seqs

  datatype CampaignStatus = Draft | Active | Paused | Completed

  datatype Platform = Facebook | Instagram | BothPlatforms

  datatype Campaign = Campaign(id: string, name: string, status: CampaignStatus, platform: Platform, budget: real,
                               createdAt: string, imageUrl: string, adCopy: string,
                               impressions: Option<int>, clicks: Option<int>, conversions: Option<int>)

  predicate IsActive(c: Campaign) {
    c.status == Active
  }

  /** The active campaigns, counted on the card. */
  function ActiveCampaigns(cs: seq<Campaign>): seq<Campaign> {
    Filter(cs, IsActive)
  }

  /** The total budget. */
  function TotalSpend(cs: seq<Campaign>): real {
    if cs == [] then 0.0 else cs[0].budget + TotalSpend(cs[1..])
  }

  /** Total impressions, a missing count being 0. */
  function TotalImpressions(cs: seq<Campaign>): int {
    if cs == [] then 0 else cs[0].impressions.GetOr(0) + TotalImpressions(cs[1..])
  }

  /** Total clicks, a missing count being 0. */
  function TotalClicks(cs: seq<Campaign>): int {
    if cs == [] then 0 else cs[0].clicks.GetOr(0) + TotalClicks(cs[1..])
  }

  /** `handleUpdateCampaignStatus`'s new list: every campaign with the id takes the status. */
  function StatusUpdated(cs: seq<Campaign>, id: string, status: CampaignStatus): seq<Campaign> {
    if cs == [] then []
    else [if cs[0].id == id then cs[0].(status := status) else cs[0]] + StatusUpdated(cs[1..], id, status)
  }

  /** `handleDeleteCampaign`'s new list: the campaigns with another id, in order. */
  function Without(cs: seq<Campaign>, id: string): seq<Campaign> {
    if cs == [] then []
    else (if cs[0].id != id then [cs[0]] else []) + Without(cs[1..], id)
  }

  /**
   * Creating appends the campaign: each total grows by its own figure and the
   * active count by one exactly when it is active.
   */
  lemma {:induction false} TotalsAfterCreate(cs: seq<Campaign>, c: Campaign)
    ensures TotalSpend(cs + [c]) == TotalSpend(cs) + c.budget
    ensures TotalImpressions(cs + [c]) == TotalImpressions(cs) + c.impressions.GetOr(0)
    ensures TotalClicks(cs + [c]) == TotalClicks(cs) + c.clicks.GetOr(0)
    ensures |ActiveCampaigns(cs + [c])| == |ActiveCampaigns(cs)| + (if c.status == Active then 1 else 0)
  {
    FilterSnoc(cs, c, IsActive);
    if cs == [] {
      assert cs + [c] == [c];
      assert [c][1..] == [];
    } else {
      assert (cs + [c])[1..] == cs[1..] + [c];
      TotalsAfterCreate(cs[1..], c);
    }
  }

  /**
   * A status update changes the status of the campaigns with that id and
   * nothing else: every other field of every campaign, and every campaign with
   * another id, stays as it was, so the budget, impression and click totals do
   * not move.
   */
  lemma {:induction false} StatusUpdateChangesOnlyStatus(cs: seq<Campaign>, id: string, status: CampaignStatus)
    ensures var r := StatusUpdated(cs, id, status);
      && |r| == |cs|
      && (forall i :: 0 <= i < |cs| ==> r[i].(status := cs[i].status) == cs[i])
      && (forall i :: 0 <= i < |cs| && cs[i].id == id ==> r[i].status == status)
      && (forall i :: 0 <= i < |cs| && cs[i].id != id ==> r[i] == cs[i])
    ensures TotalSpend(StatusUpdated(cs, id, status)) == TotalSpend(cs)
    ensures TotalImpressions(StatusUpdated(cs, id, status)) == TotalImpressions(cs)
    ensures TotalClicks(StatusUpdated(cs, id, status)) == TotalClicks(cs)
  {
    if cs != [] {
      StatusUpdateChangesOnlyStatus(cs[1..], id, status);
      var r := StatusUpdated(cs, id, status);
      assert r[1..] == StatusUpdated(cs[1..], id, status);
      forall i | 1 <= i < |cs|
        ensures r[i] == StatusUpdated(cs[1..], id, status)[i - 1] && cs[i] == cs[1..][i - 1]
      {
      }
    }
  }

  /**
   * Deleting removes exactly the campaigns with that id: a campaign is kept
   * exactly when it was listed under another id, and kept ones stay in order.
   */
  lemma {:induction false} DeleteRemovesExactly(cs: seq<Campaign>, id: string)
    ensures forall c :: c in Without(cs, id) <==> c in cs && c.id != id
    ensures |Without(cs, id)| <= |cs|
    ensures (forall c :: c in cs ==> c.id != id) ==> Without(cs, id) == cs
  {
    if cs != [] {
      DeleteRemovesExactly(cs[1..], id);
      assert cs == [cs[0]] + cs[1..];
    }
  }

  /** The row's play/pause button: offered only for active or paused campaigns, it swaps the two. */
  function ToggleTarget(status: CampaignStatus): Option<CampaignStatus> {
    match status
    case Active => Some(Paused)
    case Paused => Some(Active)
    case _ => None
  }

  lemma ToggleIsInvolution(status: CampaignStatus)
    ensures ToggleTarget(status).Some? <==> status == Active || status == Paused
    ensures ToggleTarget(status).Some? ==>
      ToggleTarget(status).value != status && ToggleTarget(ToggleTarget(status).value) == Some(status)
  {
  }

  /**
   * The click-through rate shown on a row: "0" when impressions or clicks are
   * missing or zero, otherwise the percentage in the text `fixed2` gives it.
   */
  function ClickThroughRate(c: Campaign, fixed2: real -> string): (r: string)
    ensures c.impressions.GetOr(0) == 0 || c.clicks.GetOr(0) == 0 ==> r == "0"
    ensures c.impressions.GetOr(0) != 0 && c.clicks.GetOr(0) != 0 ==>
      r == fixed2(CtrPercent(c.clicks.value, c.impressions.value))
  {
    if c.impressions.GetOr(0) != 0 && c.clicks.GetOr(0) != 0 then
      fixed2(CtrPercent(c.clicks.value, c.impressions.value))
    else "0"
  }

  /**
   * `(clicks / impressions) * 100`: the percentage p with p·impressions = 100·clicks,
   * between 0 and 100 when the clicks do not outnumber the impressions, and 100
   * exactly when every impression was clicked.
   */
  function CtrPercent(clicks: int, impressions: int): (p: real)
    requires impressions != 0
    ensures p * impressions as real == clicks as real * 100.0
    ensures 0 <= clicks <= impressions ==> 0.0 <= p <= 100.0 && (p == 100.0 <==> clicks == impressions)
  {
    clicks as real / impressions as real * 100.0
  }

  class CampaignList {
    var campaigns: seq<Campaign>

    constructor (stored: seq<Campaign>)
      ensures campaigns == stored
    {
      campaigns := stored;
    }

    /** `handleCreateCampaign`: the new campaign goes at the end. */
    method Create(c: Campaign)
      modifies this
      ensures campaigns == old(campaigns) + [c]
    {
      campaigns := campaigns + [c];
    }

    /** `handleUpdateCampaignStatus`. */
    method UpdateStatus(id: string, status: CampaignStatus)
      modifies this
      ensures campaigns == StatusUpdated(old(campaigns), id, status)
    {
      campaigns := StatusUpdated(campaigns, id, status);
    }

    /** `handleDeleteCampaign`. */
    method Delete(id: string)
      modifies this
      ensures campaigns == Without(old(campaigns), id)
    {
      campaigns := Without(campaigns, id);
    }
  }

  /** The first step's settings. */
  datatype CampaignSetup = CampaignSetup(name: string, objective: string, platform: Platform, budget: real,
                                         targetAudience: string, locations: seq<string>, ageMin: int, ageMax: int)

  /** The second and third steps' creative. */
  datatype Creative = Creative(headline: string, primaryText: string, description: string, cta: string,
                               imageUrl: string, landingPageUrl: string)

  const DefaultSetup: CampaignSetup := CampaignSetup("", "OUTCOME_LEADS", BothPlatforms, 10.0, "", [], 18, 65)

  const EmptyCreative: Creative := Creative("", "", "", "LEARN_MORE", "", "")

  const DefaultCountry: string := "US"

  const NoAdAccount: string := "Selecciona una cuenta publicitaria"

  /** The requests sent to Meta; both are created paused. */
  datatype MetaRequest =
    | CampaignRequest(account: string, name: string, objective: string)
    | AdSetRequest(account: string, name: string, campaignId: string, dailyBudget: real,
                   countries: seq<string>, ageMin: int, ageMax: int)

  /** The creative the second step demands. */
  predicate CreativeComplete(c: Creative) {
    c.headline != "" && c.primaryText != "" && c.description != "" && c.landingPageUrl != ""
  }

  /** Whether "Siguiente" is enabled on a step before the last. */
  predicate NextEnabled(step: int, setup: CampaignSetup, account: string, creative: Creative) {
    && !(step == 1 && (setup.name == "" || account == ""))
    && !(step == 2 && !CreativeComplete(creative))
  }

  /** The ad set sent for a created campaign: its budget in cents per day, and the chosen countries or the US. */
  function AdSetFor(account: string, setup: CampaignSetup, campaignId: string): (r: MetaRequest)
    ensures r.AdSetRequest? && r.account == account && r.campaignId == campaignId
    ensures r.dailyBudget == setup.budget * 100.0
    ensures |r.countries| >= 1
    ensures setup.locations != [] ==> r.countries == setup.locations
    ensures setup.locations == [] ==> r.countries == [DefaultCountry]
  {
    AdSetRequest(account, setup.name + " - Ad Set", campaignId, setup.budget * 100.0,
                 if |setup.locations| > 0 then setup.locations else [DefaultCountry], setup.ageMin, setup.ageMax)
  }

  /** The campaign added to the list: Meta's id, paused, with zero metrics. */
  function NewCampaign(id: string, setup: CampaignSetup, creative: Creative, now: string): (c: Campaign)
    ensures c.id == id && c.status == Paused
    ensures c.impressions == Some(0) && c.clicks == Some(0) && c.conversions == Some(0)
    ensures c.name == setup.name && c.budget == setup.budget && c.platform == setup.platform
    ensures c.imageUrl == creative.imageUrl && c.adCopy == creative.primaryText
  {
    Campaign(id, setup.name, Paused, setup.platform, setup.budget, now, creative.imageUrl, creative.primaryText,
             Some(0), Some(0), Some(0))
  }

  /** A new campaign adds nothing to the metrics and nothing to the active count. */
  lemma NewCampaignAddsNoMetrics(cs: seq<Campaign>, id: string, setup: CampaignSetup, creative: Creative, now: string)
    ensures var c := NewCampaign(id, setup, creative, now);
      && TotalImpressions(cs + [c]) == TotalImpressions(cs)
      && TotalClicks(cs + [c]) == TotalClicks(cs)
      && |ActiveCampaigns(cs + [c])| == |ActiveCampaigns(cs)|
      && TotalSpend(cs + [c]) == TotalSpend(cs) + setup.budget
  {
    TotalsAfterCreate(cs, NewCampaign(id, setup, creative, now));
  }

  /** The creation dialog's wizard. */
  class CreateCampaignDialog {
    var step: int
    var account: string
    var setup: CampaignSetup
    var creative: Creative
    var requests: seq<MetaRequest>

    /**
     * The step stays within 1..3; a step past the first is reached only with a
     * named campaign, the last only with complete creative.
     */
    predicate Valid()
      reads this
    {
      && 1 <= step <= 3
      && (step >= 2 ==> setup.name != "")
      && (step == 3 ==> CreativeComplete(creative))
    }

    constructor ()
      ensures Valid() && step == 1 && account == "" && setup == DefaultSetup && creative == EmptyCreative
      ensures requests == []
    {
      step := 1;
      account := "";
      setup := DefaultSetup;
      creative := EmptyCreative;
      requests := [];
    }

    /** The ad accounts arrive: the first one, if any, is selected. */
    method AccountsLoaded(first: Option<string>)
      requires Valid()
      modifies this
      ensures Valid() && account == (if first.Some? then first.value else old(account))
      ensures step == old(step) && setup == old(setup) && creative == old(creative) && requests == old(requests)
    {
      if first.Some? {
        account := first.value;
      }
    }

    /** The settings and the account are edited on the first step. */
    method EditSetup(s: CampaignSetup, a: string)
      requires Valid() && step == 1
      modifies this
      ensures Valid() && setup == s && account == a
      ensures step == old(step) && creative == old(creative) && requests == old(requests)
    {
      setup, account := s, a;
    }

    /** The copy and landing page (typed or generated) are edited on the second step. */
    method EditCopy(c: Creative)
      requires Valid() && step == 2 && c.imageUrl == creative.imageUrl
      modifies this
      ensures Valid() && creative == c
      ensures step == old(step) && setup == old(setup) && account == old(account) && requests == old(requests)
    {
      creative := c;
    }

    /** The image (typed or generated) is edited on the third step. */
    method EditImage(url: string)
      requires Valid() && step == 3
      modifies this
      ensures Valid() && creative == old(creative).(imageUrl := url)
      ensures step == old(step) && setup == old(setup) && account == old(account) && requests == old(requests)
    {
      creative := creative.(imageUrl := url);
    }

    /** "Siguiente", clickable only when enabled. */
    method Next()
      requires Valid() && step < 3 && NextEnabled(step, setup, account, creative)
      modifies this
      ensures Valid() && step == old(step) + 1
      ensures account == old(account) && setup == old(setup) && creative == old(creative) && requests == old(requests)
    {
      step := step + 1;
    }

    /** "Anterior", shown past the first step. */
    method Back()
      requires Valid() && step > 1
      modifies this
      ensures Valid() && step == old(step) - 1
      ensures account == old(account) && setup == old(setup) && creative == old(creative) && requests == old(requests)
    {
      step := step - 1;
    }

    /**
     * `handleCreateCampaign`, clickable on the last step only with an image. With
     * no account it refuses before calling Meta; otherwise it creates the
     * campaign, then its ad set, and yields the new paused campaign when both
     * calls succeed. Whatever it yields is named and carries its ad copy.
     */
    method Create(campaignId: Option<string>, adSetCreated: bool, now: string) returns (r: Result<Campaign>)
      requires Valid() && step == 3 && creative.imageUrl != ""
      modifies this
      ensures Valid() && step == old(step) && account == old(account) && setup == old(setup) && creative == old(creative)
      ensures account == "" ==> r == Err(NoAdAccount) && requests == old(requests)
      ensures account != "" ==>
        requests == old(requests) + [CampaignRequest(account, setup.name, setup.objective)]
          + (if campaignId.Some? then [AdSetFor(account, setup, campaignId.value)] else [])
      ensures r.Ok? <==> account != "" && campaignId.Some? && adSetCreated
      ensures r.Ok? ==> r.value == NewCampaign(campaignId.value, setup, creative, now)
      ensures r.Ok? ==> r.value.name != "" && r.value.adCopy != "" && r.value.imageUrl != ""
    {
      if account == "" {
        return Err(NoAdAccount);
      }
      requests := requests + [CampaignRequest(account, setup.name, setup.objective)];
      if campaignId.None? {
        return Err("Error al crear campaña");
      }
      requests := requests + [AdSetFor(account, setup, campaignId.value)];
      if !adSetCreated {
        return Err("Error al crear campaña");
      }
      r := Ok(NewCampaign(campaignId.value, setup, creative, now));
    }
  }
}
