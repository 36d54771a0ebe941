/** The reporting service's payment-event handler: every `payment.completed`
    message is folded into the daily sales report of the day it was paid,
    found by ("daily", day, day) or started empty.

    Days are day numbers; parsing the `paid_at` text into a day is an input
    (it may fail), and so is today's day for a payment without `paid_at`. */
module SalesConsumer {

  import opened Common
  import opened Tallies
  import Broker

  /** How the handler reads `paid_at`. */
  datatype PaidAt = Absent | Parsed(day: int) | Unparseable

  /** The decoded message: `amount ?? 0`, `payment_method_id ?? 'unknown'`,
      `items_count ?? 0`. */
  datatype PaymentPayload = PaymentPayload(orderId: Option<int>, amount: Option<real>, methodId: Option<string>,
                                           paidAt: PaidAt, itemsCount: Option<int>)

  const EmptyPayload: PaymentPayload := PaymentPayload(None, None, None, Absent, None)

  datatype ReportKey = ReportKey(kind: string, startDay: int, endDay: int)

  datatype Report = Report(transactions: int, revenue: real, itemsSold: int,
                           byMethod: map<string, Tally>, daily: map<int, Tally>, average: real)

  /** `firstOrNew` of a report that does not exist yet: every field reads as
      0 or `[]`. */
  const NewReport: Report := Report(0, 0.0, 0, map[], map[], 0.0)

  function DailyKey(day: int): ReportKey
  {
    ReportKey("daily", day, day)
  }

  /** The day a payment is booked on: that of `paid_at`, or today. */
  function BookingDay(p: PaymentPayload, today: int): int
    requires !p.paidAt.Unparseable?
  {
    if p.paidAt.Parsed? then p.paidAt.day else today
  }

  /** `total_revenue / total_transactions`, or 0 with no transactions. */
  function Average(revenue: real, transactions: int): real
  {
    if transactions > 0 then revenue / transactions as real else 0.0
  }

  /** One payment folded into a report. */
  function Add(r: Report, amount: real, paymentMethod: string, day: int, items: int): (n: Report)
    ensures n.transactions == r.transactions + 1
    ensures n.revenue == r.revenue + amount
    ensures n.itemsSold == r.itemsSold + items
    ensures n.byMethod == Bump(r.byMethod, paymentMethod, amount)
    ensures n.daily == Bump(r.daily, day, amount)
    ensures r.transactions >= 0 ==> n.transactions >= 1 && n.average * n.transactions as real == n.revenue
  {
    var transactions := r.transactions + 1;
    var revenue := r.revenue + amount;
    Report(transactions, revenue, r.itemsSold + items, Bump(r.byMethod, paymentMethod, amount),
           Bump(r.daily, day, amount), Average(revenue, transactions))
  }

  /** The handler: an unparseable `paid_at` throws and nothing is saved. */
  function Handle(reports: map<ReportKey, Report>, p: PaymentPayload, today: int): (r: Broker.Handled<map<ReportKey, Report>>)
    ensures r.Threw? <==> p.paidAt.Unparseable?
    // only the report of the booking day changes
    ensures r.Returned? ==>
      var key := DailyKey(BookingDay(p, today));
      && r.state.Keys == reports.Keys + {key}
      && (forall k :: k in reports && k != key ==> r.state[k] == reports[k])
      && r.state[key] == Add(if key in reports then reports[key] else NewReport,
                             p.amount.GetOr(0.0), p.methodId.GetOr("unknown"),
                             BookingDay(p, today), p.itemsCount.GetOr(0))
  {
    if p.paidAt.Unparseable? then Broker.Threw("Could not parse paid_at")
    else
      var day := BookingDay(p, today);
      var key := DailyKey(day);
      var report := if key in reports then reports[key] else NewReport;
      Broker.Returned(reports[key := Add(report, p.amount.GetOr(0.0), p.methodId.GetOr("unknown"), day,
                                         p.itemsCount.GetOr(0))])
  }

  /** The per-method and per-day tallies add up to the report's totals. */
  ghost predicate Balanced(r: Report)
  {
    && Sum(r.byMethod) == Tally(r.transactions, r.revenue)
    && Sum(r.daily) == Tally(r.transactions, r.revenue)
    && r.transactions >= 0
  }

  /** Every payment keeps a report balanced. */
  lemma AddKeepsBalance(r: Report, amount: real, paymentMethod: string, day: int, items: int)
    requires Balanced(r)
    ensures Balanced(Add(r, amount, paymentMethod, day, items))
  {
    BumpSum(r.byMethod, paymentMethod, amount);
    BumpSum(r.daily, day, amount);
  }

  /** A report store built only by this handler has only balanced reports. */
  lemma HandleKeepsBalance(reports: map<ReportKey, Report>, p: PaymentPayload, today: int)
    requires forall k :: k in reports ==> Balanced(reports[k])
    ensures Handle(reports, p, today).Returned? ==>
      forall k :: k in Handle(reports, p, today).state ==> Balanced(Handle(reports, p, today).state[k])
  {
    if !p.paidAt.Unparseable? {
      var day := BookingDay(p, today);
      var key := DailyKey(day);
      var report := if key in reports then reports[key] else NewReport;
      assert Balanced(report) by {
        if key !in reports {
          assert NewReport.byMethod == map[] && NewReport.daily == map[];
        }
      }
      AddKeepsBalance(report, p.amount.GetOr(0.0), p.methodId.GetOr("unknown"), day, p.itemsCount.GetOr(0));
    }
  }

  /** Two payments of 150 and 250 on the same day: two transactions, revenue
      400, average 200. */
  lemma TwoPaymentsExample(today: int)
    ensures var first := PaymentPayload(Some(1), Some(150.0), Some("1"), Parsed(today), Some(2));
            var second := PaymentPayload(Some(2), Some(250.0), Some("2"), Parsed(today), None);
            var after := Handle(Handle(map[], first, today).state, second, today).state;
            && after[DailyKey(today)].transactions == 2
            && after[DailyKey(today)].revenue == 400.0
            && after[DailyKey(today)].average == 200.0
            && after[DailyKey(today)].itemsSold == 2
  {
  }

  /** The handler's updates of one report, in order: the counters, the
      method's tally, the day's tally and the average. */
  method AddPayment(report: Report, amount: real, paymentMethod: string, day: int, items: int) returns (updated: Report)
    ensures updated == Add(report, amount, paymentMethod, day, items)
  {
    var transactions := report.transactions + 1;
    var revenue := report.revenue + amount;
    var byMethod := BumpEntry(report.byMethod, paymentMethod, amount);
    var daily := BumpEntry(report.daily, day, amount);
    var average := if transactions > 0 then revenue / transactions as real else 0.0;
    updated := Report(transactions, revenue, report.itemsSold + items, byMethod, daily, average);
  }

  /** The report store as the handler mutates it. */
  class ReportStore {
    var reports: map<ReportKey, Report>

    constructor ()
      ensures reports == map[]
    {
      reports := map[];
    }

    /** The handler in place; it returns whether the message is acked. */
    method Consume(p: PaymentPayload, today: int) returns (acked: bool)
      modifies this
      ensures acked <==> Handle(old(reports), p, today).Returned?
      ensures acked ==> reports == Handle(old(reports), p, today).state
      ensures !acked ==> reports == old(reports)
    {
      var day: int;
      match p.paidAt {
        case Unparseable => return false;
        case Parsed(d) => day := d;
        case Absent => day := today;
      }
      var amount := if p.amount.Some? then p.amount.value else 0.0;
      var paymentMethod := if p.methodId.Some? then p.methodId.value else "unknown";
      var items := if p.itemsCount.Some? then p.itemsCount.value else 0;
      var key := ReportKey("daily", day, day);
      var report := if key in reports then reports[key] else Report(0, 0.0, 0, map[], map[], 0.0);
      var updated := AddPayment(report, amount, paymentMethod, day, items);
      assert day == BookingDay(p, today) && key == DailyKey(day);
      assert amount == p.amount.GetOr(0.0) && paymentMethod == p.methodId.GetOr("unknown") && items == p.itemsCount.GetOr(0);
      ghost var handled := Handle(reports, p, today);
      assert handled == Broker.Returned(reports[key := updated]);
      reports := reports[key := updated];
      assert handled.Returned? && reports == handled.state;
      return true;
    }
  }
}
