/**
 * The state-changing logic of the crowdfunding views: publishing a campaign
 * (which arms its deadline task), accepting a donation (guard, transaction,
 * confirmation, order body), and what the public pages show (the listing
 * without drafts, the details page and its backers count).
 *
 * Campaign lookups by key are map accesses with a not-found outcome.
 */
module Views {
  import opened Common
  import opened Models
  import opened Orders

  /** A deferred call of the `finish_campaign` task for a campaign, due at `eta`. */
  datatype ScheduledTask = FinishCampaign(campaignId: nat, eta: Day)

  /** The deferred-task queue behind `apply_async`: it records what is scheduled. */
  class TaskQueue {
    var pending: seq<ScheduledTask>

    constructor ()
      ensures pending == []
    {
      pending := [];
    }

    method ApplyAsync(task: ScheduledTask)
      modifies this
      ensures pending == old(pending) + [task]
    {
      pending := pending + [task];
    }
  }

  /** The campaign after the publish branch of `campaign_edit` runs on day `now`. */
  function Published(c: CampaignState, now: Day): CampaignState {
    c.(state := Public, dateStart := Some(now), dateFinish := Some(now + c.duration))
  }

  /**
   * The publish branch of `campaign_edit`: make the campaign public, start it
   * today, finish it `duration` days later, and schedule `finish_campaign`
   * for the finish day. The current state is not checked.
   */
  method Publish(campaign: Campaign, now: Day, tasks: TaskQueue)
    modifies campaign, tasks
    ensures campaign.Snapshot() == Published(old(campaign.Snapshot()), now)
    ensures tasks.pending == old(tasks.pending) + [FinishCampaign(campaign.id, now + campaign.duration)]
    ensures campaign.dateFinish == Some(tasks.pending[|tasks.pending| - 1].eta)
  {
    campaign.state := Public;
    var start := now;
    campaign.dateStart := Some(start);
    var finish := start + campaign.duration;
    campaign.dateFinish := Some(finish);
    tasks.ApplyAsync(FinishCampaign(campaign.id, finish));
  }

  /** The campaign fields a valid edit form submits. */
  datatype CampaignEdits = CampaignEdits(descHeadline: string, sumGoal: nat, duration: nat, fundingType: FundingType)

  /** The campaign with a valid edit form's fields copied in, as form validation does. */
  function Edited(c: CampaignState, e: CampaignEdits): CampaignState {
    c.(descHeadline := e.descHeadline, sumGoal := e.sumGoal, duration := e.duration, fundingType := e.fundingType)
  }

  /** Every stored campaign is filed under its own key. */
  predicate KeyedById(campaigns: map<nat, Campaign>) {
    forall k :: k in campaigns ==> campaigns[k].id == k
  }

  /**
   * A POST to `campaign_edit` that is not a deletion. `edits` is None when
   * the form is invalid. A valid form's fields are copied into the campaign,
   * then, when asked to, the campaign is published (with the submitted
   * duration), and the campaign is saved.
   */
  method CampaignEditPost(campaigns: map<nat, Campaign>, pk: nat, edits: Option<CampaignEdits>, publish: bool,
                          now: Day, tasks: TaskQueue)
    returns (found: bool)
    requires KeyedById(campaigns)
    modifies (if pk in campaigns then {campaigns[pk]} else {}), tasks
    ensures found <==> pk in campaigns
    ensures found && edits.Some? ==>
              campaigns[pk].Snapshot() ==
                var edited := Edited(old(campaigns[pk].Snapshot()), edits.value);
                if publish then Published(edited, now) else edited
    ensures found && edits.Some? && publish ==>
              tasks.pending == old(tasks.pending) + [FinishCampaign(pk, now + edits.value.duration)]
    ensures !(found && edits.Some? && publish) ==> unchanged(tasks)
    ensures found && edits == None ==> unchanged(campaigns[pk])
  {
    if pk !in campaigns {
      return false;
    }
    found := true;
    if edits.Some? {
      var campaign, e := campaigns[pk], edits.value;
      campaign.descHeadline, campaign.sumGoal := e.descHeadline, e.sumGoal;
      campaign.duration, campaign.fundingType := e.duration, e.fundingType;
      if publish {
        Publish(campaign, now, tasks);
      }
    }
  }

  /** A publication sent together with an edited duration finishes by the submitted duration. */
  lemma PublishUsesSubmittedDuration(c: CampaignState, e: CampaignEdits, now: Day)
    ensures Published(Edited(c, e), now).dateFinish == Some(now + e.duration)
    ensures Published(Edited(c, e), now).collectedSum == c.collectedSum
  {
  }

  /** Right after publishing, the campaign runs from its start day for exactly `duration` days. */
  lemma PublishedSpansDuration(c: CampaignState, now: Day)
    ensures Published(c, now).state == Public
    ensures Published(c, now).dateFinish.value - Published(c, now).dateStart.value == c.duration
    ensures Published(c, now).DaysToFinish(now) == Some(c.duration + 1)
    ensures Published(c, now).collectedSum == c.collectedSum
  {
  }

  /**
   * A later valid edit without `publish` changes the duration but keeps the
   * dates, so the public campaign no longer spans its duration.
   */
  lemma EditAfterPublishBreaksSpan(c: CampaignState, now: Day, e: CampaignEdits)
    requires e.duration != c.duration
    ensures Edited(Published(c, now), e).state == Public
    ensures Edited(Published(c, now), e).dateFinish.value - Edited(Published(c, now), e).dateStart.value
            != Edited(Published(c, now), e).duration
  {
  }

  /** Publishing again restarts the campaign: only the last publication's dates count. */
  lemma RepublishResetsDates(c: CampaignState, first: Day, second: Day)
    ensures Published(Published(c, first), second) == Published(c, second)
  {
  }

  /** Publishing does not look at the state: a finished campaign becomes public again. */
  lemma PublishReopensFinished(c: CampaignState, now: Day)
    requires c.IsFinished()
    ensures !Published(c, now).IsFinished()
    ensures Published(c, now).collectedSum == c.collectedSum
  {
  }

  /**
   * The guard at the head of `campaign_donate`: only a finished campaign
   * refuses donations, so drafts pass as well as public campaigns.
   */
  predicate AcceptsDonations(c: CampaignState)
    ensures AcceptsDonations(c) <==> c.state == Draft || c.state == Public
  {
    !c.IsFinished()
  }

  /** The validated donation form. */
  datatype DonationForm = DonationForm(amount: nat, paymentMethod: PaymentMethod, isPublic: bool)

  datatype DonateOutcome =
    | CampaignNotFound
    | DonationRejected
    | FormShown
    | MissingSubmerchant
    | RedirectToPsp(order: OrderBody, orderUrl: string)
    | OrderFailed(order: OrderBody)

  /**
   * `campaign_donate`. `payer` is the donor's user key, or None when an
   * anonymous donor's personal data form is missing or invalid; `form` is
   * None when the donation form is missing or invalid. `pspOrderUrl` is the
   * `order_url` the PSP answers with, None when its reply has none.
   * Building the order reads the campaign's submerchant key; a campaign
   * without one stops the request there (`MissingSubmerchant`), after the
   * donation has been confirmed.
   */
  method CampaignDonate(campaigns: map<nat, Campaign>, pk: nat, payer: Option<nat>,
                        form: Option<DonationForm>, now: Timestamp, returnUrl: UrlTemplate,
                        pspOrderUrl: Option<string>)
    returns (outcome: DonateOutcome, transaction: Option<Transaction>)
    requires KeyedById(campaigns)
    modifies if pk in campaigns then {campaigns[pk]} else {}
    ensures pk !in campaigns ==> outcome == CampaignNotFound && transaction == None
    ensures pk in campaigns && !AcceptsDonations(old(campaigns[pk].Snapshot())) ==>
              outcome == DonationRejected && transaction == None && unchanged(campaigns[pk])
    ensures pk in campaigns && AcceptsDonations(old(campaigns[pk].Snapshot()))
            && (payer == None || form == None) ==>
              outcome == FormShown && transaction == None && unchanged(campaigns[pk])
    ensures transaction.Some? <==>
              pk in campaigns && AcceptsDonations(old(campaigns[pk].Snapshot()))
              && payer.Some? && form.Some?
    ensures transaction.Some? ==>
              var t, campaign, donation := transaction.value, campaigns[pk], form.value;
              && fresh(t)
              && t.campaign == campaign && t.payer == payer.value && t.amount == donation.amount
              && t.paymentMethod == donation.paymentMethod && t.isPublic == donation.isPublic
              && t.confirmed && t.dateConfirmed == Some(now)
              && t.Row() == TransactionRow(pk, donation.amount, true)
              && campaign.Snapshot() == Confirmed(old(campaign.Snapshot()), donation.amount)
              && outcome == (
                   if campaign.pspSubmerchantId == None then MissingSubmerchant
                   else
                     var order := CreateOrderBody(donation.amount * MinorUnitsPerUnit,
                                                  PaymentDescription(campaign.descHeadline), returnUrl, pk,
                                                  campaign.pspSubmerchantId.value);
                     if pspOrderUrl.Some? then RedirectToPsp(order, pspOrderUrl.value) else OrderFailed(order))
  {
    if pk !in campaigns {
      return CampaignNotFound, None;
    }
    var campaign := campaigns[pk];
    if !AcceptsDonations(campaign.Snapshot()) {
      return DonationRejected, None;
    }
    if payer == None || form == None {
      return FormShown, None;
    }
    var donation := form.value;
    var t := new Transaction(campaign, payer.value, donation.amount, donation.paymentMethod,
                             donation.isPublic, now);
    // For now every transaction is confirmed at once, before the order exists.
    t.Confirm(now);
    transaction := Some(t);
    if campaign.pspSubmerchantId == None {
      return MissingSubmerchant, transaction;
    }
    var description := PaymentDescription(campaign.descHeadline);
    var order := CreateOrderBody(t.amount * MinorUnitsPerUnit, description, returnUrl, pk,
                                 campaign.pspSubmerchantId.value);
    if pspOrderUrl.Some? {
      outcome := RedirectToPsp(order, pspOrderUrl.value);
    } else {
      outcome := OrderFailed(order);
    }
  }

  /** `campaigns_public`: every campaign that is not a draft. */
  function PublicCampaigns(campaigns: map<nat, CampaignState>): (listed: map<nat, CampaignState>)
    ensures listed.Keys <= campaigns.Keys
    ensures forall pk :: pk in listed ==> listed[pk] == campaigns[pk] && listed[pk].state != Draft
    ensures forall pk :: pk in campaigns && campaigns[pk].state != Draft ==> pk in listed
  {
    map pk | pk in campaigns && campaigns[pk].state != Draft :: campaigns[pk]
  }

  /** The confirmed transactions of a campaign, in table order. */
  function ConfirmedRows(rows: seq<TransactionRow>, campaignId: nat): (r: seq<TransactionRow>)
    ensures |r| <= |rows|
    ensures forall x :: x in r <==> x in rows && x.campaignId == campaignId && x.confirmed
    ensures forall x :: multiset(r)[x] == if x.campaignId == campaignId && x.confirmed then multiset(rows)[x] else 0
    decreases |rows|
  {
    if rows == [] then []
    else
      var last := rows[|rows| - 1];
      assert rows == rows[..|rows| - 1] + [last];
      ConfirmedRows(rows[..|rows| - 1], campaignId)
        + (if last.campaignId == campaignId && last.confirmed then [last] else [])
  }

  /** The backers count of `campaign_details`: how many confirmed transactions the campaign has. */
  function BackersCount(rows: seq<TransactionRow>, campaignId: nat): (n: nat)
    ensures n <= |rows|
    ensures n == 0 <==> forall i :: 0 <= i < |rows| ==> !(rows[i].campaignId == campaignId && rows[i].confirmed)
  {
    |ConfirmedRows(rows, campaignId)|
  }

  /**
   * A confirmed transaction of the campaign raises its backers count by one,
   * even when the same payer gave before; any other row leaves it alone.
   */
  lemma BackersCountAfterRow(rows: seq<TransactionRow>, row: TransactionRow, campaignId: nat)
    ensures BackersCount(rows + [row], campaignId) ==
              BackersCount(rows, campaignId) + (if row.campaignId == campaignId && row.confirmed then 1 else 0)
  {
    var all := rows + [row];
    assert all[..|all| - 1] == rows;
  }

  datatype DetailsError = NoSuchCampaign | Unpublished

  /** What the details page shows. */
  datatype Details = Details(campaign: CampaignState, backersCount: nat)

  /** `campaign_details`: unknown keys and drafts are not found; otherwise the campaign and its backers count. */
  function CampaignDetails(campaigns: map<nat, CampaignState>, rows: seq<TransactionRow>, pk: nat)
    : (r: Result<Details, DetailsError>)
    ensures r == Failure(NoSuchCampaign) <==> pk !in campaigns
    ensures r == Failure(Unpublished) <==> pk in campaigns && campaigns[pk].state == Draft
    ensures r.Success? ==> r.value.campaign == campaigns[pk] && r.value.backersCount == BackersCount(rows, pk)
  {
    if pk !in campaigns then Failure(NoSuchCampaign)
    else if campaigns[pk].state == Draft then Failure(Unpublished)
    else Success(Details(campaigns[pk], BackersCount(rows, pk)))
  }

  /**
   * Drafts are hidden from both pages alike: a campaign is listed exactly
   * when its details page opens, and that page shows the campaign as stored.
   */
  lemma ListedIffDetailsShown(campaigns: map<nat, CampaignState>, rows: seq<TransactionRow>, pk: nat)
    ensures pk in PublicCampaigns(campaigns) <==> CampaignDetails(campaigns, rows, pk).Success?
    ensures pk in PublicCampaigns(campaigns) ==> PublicCampaigns(campaigns)[pk] == campaigns[pk]
    ensures pk in campaigns && campaigns[pk].state == Draft ==>
              CampaignDetails(campaigns, rows, pk) == Failure(Unpublished)
  {
  }

  /** Publishing a stored campaign puts it on the public listing. */
  lemma PublishingLists(campaigns: map<nat, CampaignState>, pk: nat, now: Day)
    requires pk in campaigns
    ensures pk in PublicCampaigns(campaigns[pk := Published(campaigns[pk], now)])
  {
  }
}
