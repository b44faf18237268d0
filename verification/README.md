# Crowdfunding campaigns and donation confirmation, in Dafny

This project models the core of a crowdfunding platform. A **campaign** collects donations toward a funding goal (`sum_goal`) over a fixed number of days (`duration`). It moves from `draft` to `public` when a logged-in user posts the edit form with `publish` (the view does not check that this user owns the campaign), and it reaches a finished state (`STATE_FINISHED_SUCCESSFULLY` or `STATE_FINISHED_NON_SUCCESSFULLY`). A **transaction** records one donation. Confirming a transaction credits its campaign and runs the campaign's goal check. When the collected sum reaches the goal, the campaign is finished successfully. Publishing a campaign also schedules a deadline task for its finish day. Donations go to an external payment service provider (PSP) as an order whose body the views build.

Modules:

- `Common` (`common.dfy`): optional values, results, and day and timestamp numbers.
- `Models` (`models.dfy`): the `Campaign` and `Transaction` classes of the app's models, with their in-place methods. There is also a value view of a campaign (`CampaignState`). Functions on that value specify the methods: `Credit`, `CheckGoal` and `Confirmed`. `ConfirmAll` applies `Confirmed` to a run of amounts, for the lemma about repeated confirmations. The lemmas about these functions state the properties.
- `Orders` (`orders.dfy`): the PSP order body (amount in minor units, currency `EUR`) and the return URL. The return URL is the configured template with the campaign key filled in, and a round-trip lemma shows that the key can be read back from it.
- `Views` (`views.py` logic, `views.dfy`):
  - the publish branch of campaign editing;
  - the deadline-task queue (as a record of what was scheduled);
  - the donation view, which covers the guard, the new transaction, its confirmation and the order body;
  - the edit form's fields, which are copied into the campaign before a publish reads its duration;
  - the public listing without drafts, the details page and its backers count.
- `Scenarios` (`scenarios.dfy`): client methods verified against the class contracts alone. One confirms 400, 400 and 300 against a goal of 1000. Others confirm a transaction twice and donate to a finished campaign. The rest donate to a campaign with no submerchant key, to one that has a key, and with a PSP reply that has no order URL.

"Now" and "today" are parameters: a `Day` number for the day-granular date fields, and a `Timestamp` for `date_confirmed`. The PSP's answer to the order request is a parameter of the donation view: the order URL, or none.

The code does not enforce the intended lifecycle (draft, then public, then one finished state for good; each confirmation credited once). The model follows the code, and these lemmas show each gap:

- `ConfirmTwiceCreditsTwice` and `Scenarios.ConfirmTwice`: `confirm` does not check `confirmed`.
- `CheckGoalFinishesDrafts` and `CheckGoalOverturnsUnsuccessfulFinish`: the goal check ignores the state.
- `PublishReopensFinished` and `RepublishResetsDates`: publishing ignores the state.
- `Views.EditAfterPublishBreaksSpan`: a later edit changes the duration of a public campaign without moving its finish date.
- `Views.CampaignEditPost`: the edit view requires a login but never compares the user with the campaign's owner, so any logged-in user can edit or publish any campaign.
- `Views.AcceptsDonations`: the donation guard rejects only finished campaigns.
- `Scenarios.DonationFailsAfterCredit`: the donation view credits the campaign and then fails while building the order (see "## Findings").

## Model

| member | source | states |
|---|---|---|
| `Models.Campaign.constructor` | apps/crowdfunding/models.py:31-49 | A new campaign is a draft with collected sum 0, unconditional funding, no start or finish date and no submerchant key. Headline, goal and duration are as given. |
| `Models.Campaign.IncomeTransaction` | apps/crowdfunding/models.py:51-53 | The collected sum grows by the transaction's amount. The new state is `Credit` of the old one, so no other field changes. |
| `Models.CreditChangesOnlyTheSum` | apps/crowdfunding/models.py:51-53 | Crediting raises the collected sum by exactly the amount and leaves every other field as it was. |
| `Models.CollectedSumNeverDecreases` | apps/crowdfunding/models.py:51-69 | Crediting and confirming never lower the collected sum. The goal check never touches it. |
| `Models.CampaignState.DaysToFinish` | apps/crowdfunding/models.py:55-59 | There is no result exactly when no finish date is set. Otherwise the result is at least 1 exactly when today is on or before the finish day. |
| `Models.DaysToFinishCountsDown` | apps/crowdfunding/models.py:55-59 | The count is 1 on the finish day itself and drops by one with each day that passes. |
| `Models.CampaignState.IsFinished` | apps/crowdfunding/models.py:61-62 | `is_finished` holds exactly when the campaign is neither a draft nor public, that is, in the two finished states. |
| `Models.Campaign.CheckFinalizationGoal` | apps/crowdfunding/models.py:64-72 | The new state is `CheckGoal` of the old one: finished successfully when the goal is reached, otherwise nothing changes. The side-effect hook runs only in the finishing branch. |
| `Models.Campaign.FinishSideEffects` | apps/crowdfunding/models.py:71-72 | The hook may change the campaign, but by default it leaves every field as it was. |
| `Models.CheckGoalOutcome` | apps/crowdfunding/models.py:64-69 | When the collected sum reaches the goal, the state becomes finished successfully. Otherwise the campaign is unchanged. Only the state is ever written, and never to the unsuccessful state. |
| `Models.CheckGoalIdempotent` | apps/crowdfunding/models.py:64-69 | A second goal check with no credit in between changes nothing. |
| `Models.CheckGoalFinishesDrafts` | apps/crowdfunding/models.py:64-69 | A draft that has reached its goal is finished successfully without ever being public. |
| `Models.CheckGoalOverturnsUnsuccessfulFinish` | apps/crowdfunding/models.py:64-69 | A campaign finished unsuccessfully becomes finished successfully if its goal is reached. |
| `Models.Transaction.constructor` | apps/crowdfunding/models.py:85-93 | A new transaction is unconfirmed, has no confirmation date and no external id. It is bound to the given campaign, payer, amount, method and visibility. |
| `Models.Transaction.Confirm` | apps/crowdfunding/models.py:95-104 | The campaign becomes `CheckGoal(Credit(old, amount))`: credit first, goal check second. Then the transaction is confirmed with confirmation date `now`. Its other fields stay as they were. |
| `Models.ConfirmTwiceCreditsTwice` | apps/crowdfunding/models.py:95-104 | Confirming the same amount twice adds twice the amount. For a positive amount the result differs from a single confirmation. |
| `Models.ConfirmAllAccumulates` | apps/crowdfunding/models.py:95-104 | A run of confirmations adds the total of the amounts. The campaign ends finished successfully exactly when the run is non-empty and the final total reaches the goal; otherwise it keeps its state. No other field changes. |
| `Scenarios.GoalReachedOnThirdDonation` | apps/crowdfunding/models.py:95-104 | Take a campaign with goal 1000 and duration 10, published on day 0. After confirmations of 400 and 400 it is public. After a further 300 it is finished successfully with 1100 collected. |
| `Scenarios.ConfirmTwice` | apps/crowdfunding/models.py:95-104 | Calling `Confirm` twice on one transaction credits the campaign with twice its amount. |
| `Views.TaskQueue.ApplyAsync` | apps/crowdfunding/views.py:86 | Scheduling appends exactly the given task to the pending tasks. |
| `Views.Publish` | apps/crowdfunding/views.py:80-86 | The campaign becomes public, starting on day `now` and finishing `duration` days later. One `finish_campaign` task is scheduled for this campaign, due on its finish day. No state is required first. |
| `Views.CampaignEditPost` | apps/crowdfunding/views.py:63-87 | An unknown key is reported as not found. An invalid form changes neither the campaign nor the task queue. A valid form's fields are copied into the campaign. When the form also asks to publish, the edited campaign is published and the task is due `now` plus the submitted duration. Without publish, the task queue is unchanged. |
| `Views.PublishUsesSubmittedDuration` | apps/crowdfunding/views.py:76-85 | A publish sent with an edited duration finishes `now` plus the submitted duration, not the stored one. The collected sum is kept. |
| `Views.PublishedSpansDuration` | apps/crowdfunding/views.py:80-85 | Right after publishing, the finish date minus the start date equals the duration. On the start day, `days_to_finish` is the duration plus one. The collected sum is untouched. |
| `Views.EditAfterPublishBreaksSpan` | apps/crowdfunding/views.py:76-87 | A valid edit without `publish` that changes the duration of a published campaign leaves it public, with a finish date minus start date that no longer equals the duration. |
| `Views.RepublishResetsDates` | apps/crowdfunding/views.py:80-85 | Publishing twice is the same as publishing once, on the day of the second call: the dates restart. |
| `Views.PublishReopensFinished` | apps/crowdfunding/views.py:80-85 | Publishing a finished campaign makes it unfinished (public) again and keeps its collected sum. |
| `Views.AcceptsDonations` | apps/crowdfunding/views.py:112-113 | The donation guard admits a campaign exactly when it is a draft or public. |
| `Views.CampaignDonate` | apps/crowdfunding/views.py:109-147 | A missing campaign is not found. A finished campaign is rejected, with no transaction and no change. Missing forms re-show the page with no change. Otherwise a new transaction is created for this campaign, payer and amount, and it is confirmed before anything else. Its row is a confirmed row of this campaign. A campaign without a submerchant key then stops the request (`MissingSubmerchant`) with the credit kept. With a key, the order is for the amount times 100, in EUR, returning to this campaign and routed to that submerchant. The donor is redirected when the PSP gives an order URL; when it gives none, the order fails and the credit is still kept. |
| `Orders.CreateOrderBody` | apps/crowdfunding/views.py:179-195 | The order body has currency EUR and exactly the given minor-unit amount, description and submerchant key. Its return URL is exactly the template filled with this campaign's key, and it reads back to that key. |
| `Orders.PaymentDescription` | apps/crowdfunding/views.py:141 | The description is the fixed text "Payment for " followed by the whole headline. |
| `Orders.Decimal` | apps/crowdfunding/views.py:185 | The key is written as a non-empty string of decimal digits with no leading zero; zero is written as "0". |
| `Orders.DecimalRoundTrip` | apps/crowdfunding/views.py:185 | Reading those digits back gives the key that was written. |
| `Orders.ReturnUrl` | apps/crowdfunding/views.py:185 | The URL is the template's text before the placeholder, then the key's digits, then the text after it. |
| `Orders.ReturnUrlRoundTrip` | apps/crowdfunding/views.py:185 | Reading the campaign key back from a formatted return URL gives the key it was formatted with. |
| `Orders.ReturnUrlInjective` | apps/crowdfunding/views.py:185 | Two campaigns with equal return URLs have the same key. |
| `Orders.DevReturnUrlExample` | comeo_project/settings/dev.py:21 | The development template sends campaign 42 back to `...ginger_return_redirect/?campaign_pk=42`. |
| `Views.PublicCampaigns` | apps/crowdfunding/views.py:92-93 | The listing holds only stored campaigns, each as stored and none a draft. Every stored campaign that is not a draft is on it. |
| `Views.ConfirmedRows` | apps/crowdfunding/views.py:104 | The rows counted are the table's confirmed transactions of this campaign, each as often as it occurs in the table, and no other rows. |
| `Views.BackersCount` | apps/crowdfunding/views.py:104 | The count is at most the number of rows. It is 0 exactly when the campaign has no confirmed transaction. |
| `Views.BackersCountAfterRow` | apps/crowdfunding/views.py:104 | A new confirmed transaction of the campaign raises its backers count by one, even from a payer who gave before. Any other new row leaves the count alone. |
| `Views.CampaignDetails` | apps/crowdfunding/views.py:98-106 | An unknown key fails as not found, and a draft fails as unpublished. Any other campaign is shown as stored, with its backers count. |
| `Views.ListedIffDetailsShown` | apps/crowdfunding/views.py:92-106 | A campaign is on the public listing exactly when its details page opens. Drafts fail there as unpublished. The listing shows the stored campaign. |
| `Views.PublishingLists` | apps/crowdfunding/views.py:81-93 | A stored campaign is on the public listing once it has been published. |
| `Scenarios.DonateAfterGoal` | apps/crowdfunding/views.py:112-113 | A donation to a campaign that has reached its goal is rejected. The collected sum stays as it was. |
| `Scenarios.DonationFailsAfterCredit` | apps/crowdfunding/views.py:129-143 | A valid donation to a campaign without a submerchant key (as every campaign loaded by key is) credits the campaign and confirms the transaction. The request then stops with `MissingSubmerchant`, and no order is built. |
| `Scenarios.DonationReachesPsp` | apps/crowdfunding/views.py:129-147 | When the campaign carries a submerchant key, the order is built for 100 times the amount, in EUR, routed to that submerchant and returning to this campaign. The donor is redirected to the PSP's order URL. |
| `Scenarios.OrderFailsAfterCredit` | apps/crowdfunding/views.py:129-147 | With a submerchant key but no order URL from the PSP, the order is still built for 100 times the amount and fails. The campaign has been credited and the transaction stays confirmed. |

## Findings

| source | as written | input that shows it | evidently intended | confidence | as-written member | corrected member |
|---|---|---|---|---|---|---|
| apps/crowdfunding/views.py:193 | The order body reads `campaign.psp_submerchant_id`. That key is no column of Campaign (models.py:31-49); only the unsaved object in `campaign_create` gets it (views.py:50). So the campaign loaded at views.py:110 lacks it, and the request raises after `confirm()` has already credited the campaign (views.py:137). | any valid donation (payer and form present) to a stored campaign that is not finished | the submerchant key is stored with the campaign, so the order is built and the donor redirected to the PSP | medium, not executed | `Scenarios.DonationFailsAfterCredit` | `Scenarios.DonationReachesPsp` |

## Left out

- Every HTTP exchange with the PSP is left out. That covers the submerchant account request in `campaign_create` and the order `POST` in `create_ginger_transaction`, along with parsing their replies. The order URL that the reply would carry is a parameter of `CampaignDonate` instead.
- The order-creation endpoint string is not modelled; it belongs to the HTTP request.
- The campaign's submerchant key is modelled as an optional field of the campaign. Campaigns made by the constructor have none, as campaigns loaded by key have none. Setting it in `campaign_create` is not modelled; the scenario with a key assigns it directly.
- The body of the scheduled `finish_campaign` task is not part of this model. Scheduling it only records a pending entry, so the deadline finish is not modelled.
- `Views.Publish`: the task's `eta` is the finish day, whereas the code passes a full timestamp. Likewise, the start and finish dates are the day numbers that a date field stores.
- Request plumbing is left out: authentication, rendering, redirects, messages and logging. So are the GET and delete branches of `campaign_edit`, `campaign_create`, `donate_instruction` and `ginger_return_redirect`.
- `Views.CampaignEditPost`: the campaign form's definition is not part of this model. The fields it submits are taken to be the headline, the goal, the duration and the funding type. The validity check is a parameter: the edits are present or absent.
- Anonymous donors are left out: creating their account and unusable password is outside the model. The payer is a user key, or none when the anonymous donor's form is invalid. The donation form and its validity are parameters too.
- `Models.Campaign.constructor`: the 1–30 choice range of `duration` is enforced by form validation, so the constructor accepts any duration.
- Integers are unbounded. The column widths of the database are not modelled: a positive small integer for `amount`, and a positive 32-bit integer for `sum_goal` and `collected_sum`.
- The campaign key in a URL is text in the code. The model uses the number and its decimal digits. The campaign map files every campaign under its own key (`KeyedById`).
- Concurrency is left out. The model is sequential; this leaves out both simultaneous confirmations and the deadline task running beside a confirmation.
- Persistence (`save`, `delete`) is not modelled as such. The transactions table is a sequence of rows, and campaign lookups are map accesses.
- Tags, editors, owner, images, descriptions other than the headline, the view count and the campaign's creation date are not modelled.
