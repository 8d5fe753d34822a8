/** The `scheduled` handler (src/index.js:17-183): the cron string picks a
    profile, the profile's pages are fetched, its order numbers selected and
    posted in chunks. The clock is replaced by the window bounds
    `startOfDay` and `endOfDay` of the processing profile. */
module Scheduled {

  import opened Wrappers
  import opened Seqs
  import opened Orders
  import opened Pagination
  import opened Notify
  import Chunking

  /** The two query profiles. */
  datatype Profile = ProcessingOrders | HoldedOrders

  const ProcessingCron: string := "0 4 * * *"
  const HoldedCron: string := "0 5 * * *"

  /** The cron string selects at most one profile: "0 4 * * *" the processing
      profile, "0 5 * * *" the holded profile, anything else none. */
  function ProfileFor(cron: string): (p: Option<Profile>)
    ensures p == Some(ProcessingOrders) <==> cron == ProcessingCron
    ensures p == Some(HoldedOrders) <==> cron == HoldedCron
    ensures p == None <==> cron != ProcessingCron && cron != HoldedCron
  {
    if cron == ProcessingCron then Some(ProcessingOrders)
    else if cron == HoldedCron then Some(HoldedOrders)
    else None
  }

  const ProcessingHeading: string := "\U{1F4B0} Processing orders > $500 from yesterday"
  const HoldedHeading: string := "\U{1F4E6} Holded orders within last 30 days"

  /** What one invocation did: pages requested, orders fetched, order
      numbers selected, texts posted and the error that ended it. */
  datatype Run = Run(pagesRequested: nat, fetched: seq<Order>, orderNumbers: seq<string>,
                     posted: seq<string>, error: Option<string>)

  /** The run a profile produces from the page responses and the webhook. */
  function ProfileRun(profile: Profile, startOfDay: int, endOfDay: int,
                      pages: seq<PageResponse>, webhook: nat -> WebhookResponse): (run: Run)
    ensures run.pagesRequested == FetchCount(pages) && run.fetched == Accumulated(pages)
    ensures |run.orderNumbers| <= |run.fetched|
    ensures run.error.None? ==> |run.posted| == (|run.orderNumbers| + 9) / 10
  {
    var fetched := Accumulated(pages);
    var numbers := match profile
      case ProcessingOrders => ProcessingOrderNumbers(fetched, startOfDay, endOfDay)
      case HoldedOrders => IncrementIds(fetched);
    var heading := if profile == ProcessingOrders then ProcessingHeading else HoldedHeading;
    var (posted, error) := Notification(numbers, heading, webhook);
    Run(FetchCount(pages), fetched, numbers, posted, error)
  }

  /** The handler: dispatch on the cron string, then fetch, select and post. */
  method HandleScheduled(cron: string, startOfDay: int, endOfDay: int,
                         pages: seq<PageResponse>, webhook: nat -> WebhookResponse)
    returns (run: Run)
    ensures ProfileFor(cron) == None ==> run == Run(0, [], [], [], None)
    ensures ProfileFor(cron).Some? ==>
      run == ProfileRun(ProfileFor(cron).value, startOfDay, endOfDay, pages, webhook)
  {
    if cron == ProcessingCron {
      var allOrders, requested := FetchAll(pages);
      var orderNumbers := ProcessingOrderNumbers(allOrders, startOfDay, endOfDay);
      var posted, error := NotifyAll(orderNumbers, ProcessingHeading, webhook);
      run := Run(requested, allOrders, orderNumbers, posted, error);
    } else if cron == HoldedCron {
      var allOrders, requested := FetchAll(pages);
      var orderNumbers := IncrementIds(allOrders);
      var posted, error := NotifyAll(orderNumbers, HoldedHeading, webhook);
      run := Run(requested, allOrders, orderNumbers, posted, error);
    } else {
      run := Run(0, [], [], [], None);
    }
  }

  /** The processing run reports exactly the qualifying fetched orders and,
      when every post succeeds, posts one message per chunk of ten. */
  lemma ProcessingRunReports(startOfDay: int, endOfDay: int,
                             pages: seq<PageResponse>, webhook: nat -> WebhookResponse)
    ensures var run := ProfileRun(ProcessingOrders, startOfDay, endOfDay, pages, webhook);
      && run.pagesRequested == FetchCount(pages)
      && run.orderNumbers == IncrementIds(Filter(Accumulated(pages), o => Qualifies(o, startOfDay, endOfDay)))
      && |run.orderNumbers| <= |Accumulated(pages)|
      && (forall id :: id in run.orderNumbers <==>
            exists o :: o in Accumulated(pages) && Qualifies(o, startOfDay, endOfDay) && o.incrementId == id)
      && (run.error.None? ==> |run.posted| == (|run.orderNumbers| + 9) / 10)
      && (run.orderNumbers == [] ==> run.posted == [] && run.error == None)
  {
    var run := ProfileRun(ProcessingOrders, startOfDay, endOfDay, pages, webhook);
    Chunking.MessagesCover(run.orderNumbers, ProcessingHeading);
    if run.orderNumbers == [] {
      NothingToReport(ProcessingHeading, webhook);
    }
  }

  /** The holded run reports the number of every fetched order, in fetch
      order, and when every post succeeds posts one message per chunk of
      ten. */
  lemma HoldedRunReports(startOfDay: int, endOfDay: int,
                         pages: seq<PageResponse>, webhook: nat -> WebhookResponse)
    ensures var run := ProfileRun(HoldedOrders, startOfDay, endOfDay, pages, webhook);
      && run.pagesRequested == FetchCount(pages)
      && |run.orderNumbers| == |Accumulated(pages)|
      && (forall i :: 0 <= i < |run.orderNumbers| ==> run.orderNumbers[i] == Accumulated(pages)[i].incrementId)
      && (run.error.None? ==> |run.posted| == (|run.orderNumbers| + 9) / 10)
      && (run.orderNumbers == [] ==> run.posted == [] && run.error == None)
  {
    var run := ProfileRun(HoldedOrders, startOfDay, endOfDay, pages, webhook);
    Chunking.MessagesCover(run.orderNumbers, HoldedHeading);
    if run.orderNumbers == [] {
      NothingToReport(HoldedHeading, webhook);
    }
  }
}
