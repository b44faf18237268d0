/**
 * Client code that relies on the classes' contracts alone: the goal-reaching
 * sequence of confirmations, a confirmation repeated, a donation to a
 * finished campaign, and donations that stop at the submerchant key or at
 * the PSP's reply.
 */
module Scenarios {
  import opened Common
  import opened Models
  import opened Orders
  import opened Views

  /**
   * A campaign with goal 1000 and duration 10, published on day 0, receives
   * confirmed donations of 400, 400 and 300: it is still public at 800 and
   * finished successfully at 1100.
   */
  method GoalReachedOnThirdDonation() returns (afterSecond: State, afterThird: State, collected: nat)
    ensures afterSecond == Public
    ensures afterThird == FinishedSuccessfully
    ensures collected == 1100
  {
    var campaign := new Campaign(1, "Goal", 1000, 10);
    var tasks := new TaskQueue();
    Publish(campaign, 0, tasks);
    var first := new Transaction(campaign, 7, 400, Card, true, 1);
    first.Confirm(1);
    var second := new Transaction(campaign, 8, 400, Card, true, 2);
    second.Confirm(2);
    afterSecond := campaign.state;
    var third := new Transaction(campaign, 9, 300, Terminal, false, 3);
    third.Confirm(3);
    afterThird := campaign.state;
    collected := campaign.collectedSum;
  }

  /** Confirming one transaction twice credits its campaign with twice its amount. */
  method ConfirmTwice(amount: nat) returns (collected: nat, confirmed: bool)
    ensures collected == 2 * amount
    ensures confirmed
  {
    var campaign := new Campaign(2, "Twice", 1000000, 30);
    var tasks := new TaskQueue();
    Publish(campaign, 0, tasks);
    var t := new Transaction(campaign, 5, amount, Card, true, 1);
    t.Confirm(1);
    t.Confirm(2);
    collected := campaign.collectedSum;
    confirmed := t.confirmed;
  }

  /**
   * A campaign that reached its goal refuses the next donation: no
   * transaction is made and its collected sum stays where it was.
   */
  method DonateAfterGoal(amount: nat) returns (outcome: DonateOutcome, collected: nat)
    requires amount >= 50
    ensures outcome == DonationRejected
    ensures collected == amount
  {
    var campaign := new Campaign(3, "Small", 50, 5);
    var tasks := new TaskQueue();
    Publish(campaign, 0, tasks);
    var t := new Transaction(campaign, 5, amount, Card, true, 1);
    t.Confirm(1);
    var campaigns := map[3 := campaign];
    var transaction;
    outcome, transaction := CampaignDonate(campaigns, 3, Some(6), Some(DonationForm(10, Card, true)),
                                           2, DevReturnUrl, Some("order"));
    collected := campaign.collectedSum;
  }

  /**
   * A donation to a campaign without a submerchant key, as every campaign
   * loaded by its key is: the campaign is credited and the transaction
   * confirmed, and then the request stops before any order is built.
   */
  method DonationFailsAfterCredit(amount: nat) returns (outcome: DonateOutcome, collected: nat, confirmed: bool)
    ensures outcome == MissingSubmerchant
    ensures collected == amount && confirmed
  {
    var campaign := new Campaign(4, "Loaded", amount + 1, 5);
    var tasks := new TaskQueue();
    Publish(campaign, 0, tasks);
    var transaction;
    outcome, transaction := CampaignDonate(map[4 := campaign], 4, Some(6), Some(DonationForm(amount, Card, true)),
                                           1, DevReturnUrl, Some("https://psp/order"));
    collected := campaign.collectedSum;
    confirmed := transaction.value.confirmed;
  }

  /**
   * A donation to a campaign that does carry its submerchant key: the order
   * for 100 times the amount, in euros, returning to this campaign and routed
   * to that submerchant, is built and the donor is sent to the PSP.
   */
  method DonationReachesPsp(amount: nat) returns (outcome: DonateOutcome, collected: nat)
    ensures outcome.RedirectToPsp? && outcome.orderUrl == "https://psp/order"
    ensures outcome.order.amount == 100 * amount && outcome.order.currency == "EUR"
    ensures outcome.order.submerchantId == "sub-5"
    ensures CampaignPkOf(DevReturnUrl, outcome.order.returnUrl) == Some(5)
    ensures collected == amount
  {
    var campaign := new Campaign(5, "Routed", amount + 1, 5);
    campaign.pspSubmerchantId := Some("sub-5");
    var tasks := new TaskQueue();
    Publish(campaign, 0, tasks);
    var transaction;
    outcome, transaction := CampaignDonate(map[5 := campaign], 5, Some(6), Some(DonationForm(amount, Card, true)),
                                           1, DevReturnUrl, Some("https://psp/order"));
    collected := campaign.collectedSum;
  }

  /**
   * When the PSP answers without an order URL, the donation has already been
   * confirmed: the campaign keeps the credit and the transaction stays confirmed.
   */
  method OrderFailsAfterCredit(amount: nat) returns (outcome: DonateOutcome, collected: nat, confirmed: bool)
    ensures outcome.OrderFailed? && outcome.order.amount == 100 * amount
    ensures collected == amount && confirmed
  {
    var campaign := new Campaign(7, "Late", amount + 1, 5);
    campaign.pspSubmerchantId := Some("sub-7");
    var tasks := new TaskQueue();
    Publish(campaign, 0, tasks);
    var transaction;
    outcome, transaction := CampaignDonate(map[7 := campaign], 7, Some(6), Some(DonationForm(amount, Card, true)),
                                           1, DevReturnUrl, None);
    collected := campaign.collectedSum;
    confirmed := transaction.value.confirmed;
  }
}
