/**
 * The domain objects of the crowdfunding app: a Campaign, which collects
 * confirmed donations toward a goal and moves through its lifecycle states,
 * and a Transaction, whose confirmation credits its campaign.
 *
 * Each class has a value-level twin (`CampaignState`) and the mutating
 * methods are specified by functions on that value (`Credit`, `CheckGoal`,
 * `Confirmed`); the lemmas below state what those functions promise.
 */
module Models {
  import opened Common

  /** The four values of `Campaign.state`. */
  datatype State = Draft | Public | FinishedSuccessfully | FinishedNonSuccessfully

  datatype FundingType = Conditional | Unconditional

  datatype PaymentMethod = Card | Terminal

  /**
   * Every field of a campaign that this model tracks, as one value. The
   * submerchant key is not a column of the table: it is an attribute only an
   * object that had it assigned carries, and a campaign loaded by key has none.
   */
  datatype CampaignState = CampaignState(
    descHeadline: string,
    sumGoal: nat,
    duration: nat,
    collectedSum: nat,
    state: State,
    fundingType: FundingType,
    dateStart: Option<Day>,
    dateFinish: Option<Day>,
    pspSubmerchantId: Option<string>)
  {
    /** `Campaign.is_finished`: the campaign is in one of the two finished states. */
    predicate IsFinished()
      ensures IsFinished() <==> state != Draft && state != Public
    {
      state == FinishedSuccessfully || state == FinishedNonSuccessfully
    }

    /** `Campaign.days_to_finish`: the days left, today included; nothing while no finish date is set. */
    function DaysToFinish(today: Day): (r: Option<int>)
      ensures r.None? <==> dateFinish.None?
      ensures r.Some? ==> (r.value >= 1 <==> today <= dateFinish.value)
    {
      match dateFinish
      case None => None
      case Some(finish) => Some(finish - today + 1)
    }
  }

  /** A campaign as `Campaign()` creates it: the field defaults of the model. */
  function NewCampaign(descHeadline: string, sumGoal: nat, duration: nat): CampaignState {
    CampaignState(descHeadline, sumGoal, duration, 0, Draft, Unconditional, None, None, None)
  }

  /** The campaign after `income_transaction` credits a donation of `amount`. */
  function Credit(c: CampaignState, amount: nat): CampaignState {
    c.(collectedSum := c.collectedSum + amount)
  }

  /** The campaign after `check_finalization_goal`. */
  function CheckGoal(c: CampaignState): CampaignState {
    if c.collectedSum >= c.sumGoal then c.(state := FinishedSuccessfully) else c
  }

  /** The campaign after `Transaction.confirm` of a donation of `amount`: credit, then goal check. */
  function Confirmed(c: CampaignState, amount: nat): CampaignState {
    CheckGoal(Credit(c, amount))
  }

  /** The campaign after confirming donations of the given amounts, one after the other. */
  function ConfirmAll(c: CampaignState, amounts: seq<nat>): CampaignState
    decreases |amounts|
  {
    if amounts == [] then c else ConfirmAll(Confirmed(c, amounts[0]), amounts[1..])
  }

  function Sum(amounts: seq<nat>): nat {
    if amounts == [] then 0 else amounts[0] + Sum(amounts[1..])
  }

  /** One row of the transactions table, as the campaign pages query it. */
  datatype TransactionRow = TransactionRow(campaignId: nat, amount: nat, confirmed: bool)

  class Campaign {
    const id: nat
    var descHeadline: string
    var sumGoal: nat
    var duration: nat
    var collectedSum: nat
    var state: State
    var fundingType: FundingType
    var dateStart: Option<Day>
    var dateFinish: Option<Day>
    var pspSubmerchantId: Option<string>

    /** The current values of all mutable fields. */
    function Snapshot(): CampaignState
      reads this
    {
      CampaignState(descHeadline, sumGoal, duration, collectedSum, state, fundingType, dateStart, dateFinish,
                    pspSubmerchantId)
    }

    constructor (id: nat, descHeadline: string, sumGoal: nat, duration: nat)
      ensures this.id == id
      ensures Snapshot() == NewCampaign(descHeadline, sumGoal, duration)
    {
      this.id := id;
      this.descHeadline := descHeadline;
      this.sumGoal := sumGoal;
      this.duration := duration;
      collectedSum := 0;
      state := Draft;
      fundingType := Unconditional;
      dateStart := None;
      dateFinish := None;
      pspSubmerchantId := None;
    }

    /** `income_transaction`: add the transaction's amount to the collected sum. */
    method IncomeTransaction(transaction: Transaction)
      modifies this
      ensures Snapshot() == Credit(old(Snapshot()), transaction.amount)
    {
      collectedSum := collectedSum + transaction.amount;
    }

    /** `check_finalization_goal`: finish successfully once the goal is reached, whatever the state. */
    method CheckFinalizationGoal()
      modifies this
      ensures Snapshot() == CheckGoal(old(Snapshot()))
    {
      if collectedSum >= sumGoal {
        state := FinishedSuccessfully;
        FinishSideEffects();
      }
    }

    /** `finish_side_effects`: an extension hook that may change the campaign; by default it does nothing. */
    method FinishSideEffects()
      modifies this
      ensures unchanged(this)
    {
    }
  }

  class Transaction {
    const amount: nat
    const campaign: Campaign
    const payer: nat
    var paymentMethod: PaymentMethod
    var externalId: Option<string>
    var dateCreated: Timestamp
    var confirmed: bool
    var dateConfirmed: Option<Timestamp>
    var isPublic: bool

    /** The row this transaction is stored as. */
    function Row(): TransactionRow
      reads this
    {
      TransactionRow(campaign.id, amount, confirmed)
    }

    /** A new, unconfirmed transaction with the model's field defaults. */
    constructor (campaign: Campaign, payer: nat, amount: nat, paymentMethod: PaymentMethod,
                 isPublic: bool, now: Timestamp)
      ensures this.campaign == campaign && this.payer == payer && this.amount == amount
      ensures this.paymentMethod == paymentMethod && this.isPublic == isPublic
      ensures dateCreated == now && externalId == None
      ensures !confirmed && dateConfirmed == None
    {
      this.campaign := campaign;
      this.payer := payer;
      this.amount := amount;
      this.paymentMethod := paymentMethod;
      this.isPublic := isPublic;
      dateCreated := now;
      externalId := None;
      confirmed := false;
      dateConfirmed := None;
    }

    /**
     * `Transaction.confirm`: credit the campaign, run its goal check, then mark
     * this transaction confirmed at `now`. Nothing checks `confirmed` first.
     */
    method Confirm(now: Timestamp)
      modifies this, campaign
      ensures campaign.Snapshot() == Confirmed(old(campaign.Snapshot()), amount)
      ensures confirmed && dateConfirmed == Some(now)
      ensures paymentMethod == old(paymentMethod) && externalId == old(externalId)
      ensures dateCreated == old(dateCreated) && isPublic == old(isPublic)
    {
      campaign.IncomeTransaction(this);
      campaign.CheckFinalizationGoal();
      dateConfirmed := Some(now);
      confirmed := true;
    }
  }

  /** `days_to_finish` is 1 on the finish day itself and drops by one each day. */
  lemma DaysToFinishCountsDown(c: CampaignState, today: Day)
    requires c.dateFinish.Some?
    ensures c.DaysToFinish(c.dateFinish.value) == Some(1)
    ensures c.DaysToFinish(today + 1).value == c.DaysToFinish(today).value - 1
  {
  }

  /** Crediting raises the collected sum by exactly the amount and changes nothing else. */
  lemma CreditChangesOnlyTheSum(c: CampaignState, amount: nat)
    ensures Credit(c, amount).collectedSum - c.collectedSum == amount
    ensures Credit(c, amount).(collectedSum := c.collectedSum) == c
  {
  }

  /** No step of confirmation lowers the collected sum; the goal check leaves it alone. */
  lemma CollectedSumNeverDecreases(c: CampaignState, amount: nat)
    ensures Credit(c, amount).collectedSum >= c.collectedSum
    ensures CheckGoal(c).collectedSum == c.collectedSum
    ensures Confirmed(c, amount).collectedSum >= c.collectedSum
  {
  }

  /**
   * The goal check finishes the campaign successfully exactly when the goal is
   * reached; otherwise it changes nothing. It only ever writes the successful
   * state, and only the state.
   */
  lemma CheckGoalOutcome(c: CampaignState)
    ensures c.collectedSum >= c.sumGoal ==> CheckGoal(c).state == FinishedSuccessfully
    ensures c.collectedSum < c.sumGoal ==> CheckGoal(c) == c
    ensures CheckGoal(c).state == c.state || CheckGoal(c).state == FinishedSuccessfully
    ensures CheckGoal(c).(state := c.state) == c
  {
  }

  /** Running the goal check again, with no credit in between, changes nothing. */
  lemma CheckGoalIdempotent(c: CampaignState)
    ensures CheckGoal(CheckGoal(c)) == CheckGoal(c)
  {
  }

  /** The goal check does not look at the state: a draft that reaches its goal skips `public`. */
  lemma CheckGoalFinishesDrafts(c: CampaignState)
    requires c.state == Draft && c.collectedSum >= c.sumGoal
    ensures CheckGoal(c).state == FinishedSuccessfully
  {
  }

  /** The goal check does not look at the state: an unsuccessful finish is overturned. */
  lemma CheckGoalOverturnsUnsuccessfulFinish(c: CampaignState)
    requires c.state == FinishedNonSuccessfully && c.collectedSum >= c.sumGoal
    ensures CheckGoal(c).state == FinishedSuccessfully
  {
  }

  /** Confirming the same donation twice credits it twice. */
  lemma ConfirmTwiceCreditsTwice(c: CampaignState, amount: nat)
    ensures Confirmed(Confirmed(c, amount), amount).collectedSum == c.collectedSum + 2 * amount
    ensures amount > 0 ==> Confirmed(Confirmed(c, amount), amount) != Confirmed(c, amount)
  {
  }

  /**
   * Confirming a run of donations adds their total to the collected sum; the
   * campaign ends up finished successfully exactly when at least one donation
   * was confirmed and the final total reaches the goal, and otherwise keeps
   * its state. No other field changes.
   */
  lemma {:induction false} ConfirmAllAccumulates(c: CampaignState, amounts: seq<nat>)
    ensures ConfirmAll(c, amounts).collectedSum == c.collectedSum + Sum(amounts)
    ensures ConfirmAll(c, amounts).state ==
              if amounts != [] && c.collectedSum + Sum(amounts) >= c.sumGoal
              then FinishedSuccessfully else c.state
    ensures ConfirmAll(c, amounts).(state := c.state, collectedSum := c.collectedSum) == c
    decreases |amounts|
  {
    if amounts != [] {
      var next := Confirmed(c, amounts[0]);
      ConfirmAllAccumulates(next, amounts[1..]);
    }
  }
}
