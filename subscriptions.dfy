/** The `subscriptions` edge function: the plan table, creating a
    subscription (price = monthly price x months, end date = start date moved
    on by that many calendar months, at most one active subscription per
    user), updating one, and cancelling one by status. The table is passed in
    and handed back; the clock and new row ids are parameters. */
module Subscriptions {
  import opened Opt
  import opened Http
  import opened Tables

  /** A plan's monthly price and its features. */
  datatype Plan = Plan(monthly: int, features: seq<string>)

  /** `subscriptionPrices` */
  const Plans: map<string, Plan> := map[
    "basic" := Plan(2500, ["Basic ride booking", "Standard support", "Up to 10 rides/month"]),
    "premium" := Plan(5000, ["Unlimited rides", "Priority support", "Airport lounge access", "Premium vehicles"]),
    "enterprise" := Plan(15000, ["All premium features", "Dedicated account manager", "Custom branding", "Analytics dashboard"])
  ]

  /** The three plan types, with their monthly prices. */
  lemma PlanPrices()
    ensures Plans.Keys == {"basic", "premium", "enterprise"}
    ensures Plans["basic"].monthly == 2500
    ensures Plans["premium"].monthly == 5000
    ensures Plans["enterprise"].monthly == 15000
  {
  }

  // ---------------------------------------------------------------------
  // Calendar months

  /** A calendar date as a JavaScript `Date` holds it: month 0..11, day of
      the month from 1, and the time of day in milliseconds. */
  datatype CalDate = CalDate(year: int, month: int, day: int, msOfDay: int)

  predicate LeapYear(y: int) {
    (y % 4 == 0 && y % 100 != 0) || y % 400 == 0
  }

  function DaysIn(year: int, month: int): (n: int)
    requires 0 <= month < 12
    ensures 28 <= n <= 31
  {
    if month == 1 then (if LeapYear(year) then 29 else 28)
    else if month == 3 || month == 5 || month == 8 || month == 10 then 30
    else 31
  }

  predicate ValidDate(d: CalDate) {
    && 0 <= d.month < 12
    && 1 <= d.day <= DaysIn(d.year, d.month)
    && 0 <= d.msOfDay < 24 * 60 * 60 * 1000
  }

  /** Months since the start of year 0: the date's position on a month line. */
  function MonthNumber(d: CalDate): int {
    d.year * 12 + d.month
  }

  /** The length of the month `n` months after `d`'s month. */
  function TargetDays(d: CalDate, n: int): int {
    var k := MonthNumber(d) + n;
    DaysIn(k / 12, k % 12)
  }

  /** `date.setMonth(date.getMonth() + n)`: the same day and time `n` months
      on; a day the target month does not have rolls over into the following
      month, as `Date` does. */
  function AddMonths(d: CalDate, n: int): (r: CalDate)
    requires ValidDate(d)
    ensures ValidDate(r)
    ensures r.msOfDay == d.msOfDay
    ensures d.day <= TargetDays(d, n) ==> MonthNumber(r) == MonthNumber(d) + n && r.day == d.day
    ensures d.day > TargetDays(d, n) ==>
      MonthNumber(r) == MonthNumber(d) + n + 1 && r.day == d.day - TargetDays(d, n)
  {
    var k := MonthNumber(d) + n;
    if d.day <= DaysIn(k / 12, k % 12) then
      CalDate(k / 12, k % 12, d.day, d.msOfDay)
    else
      CalDate((k + 1) / 12, (k + 1) % 12, d.day - DaysIn(k / 12, k % 12), d.msOfDay)
  }

  /** A date is fixed by its month number, day and time. */
  lemma SameMonthNumber(a: CalDate, b: CalDate)
    requires 0 <= a.month < 12 && 0 <= b.month < 12
    requires MonthNumber(a) == MonthNumber(b) && a.day == b.day && a.msOfDay == b.msOfDay
    ensures a == b
  {
  }

  /** Advancing by `a` months and then by `b` is advancing by `a + b`, for a
      day every month has. */
  lemma {:induction false} AddMonthsCompose(d: CalDate, a: int, b: int)
    requires ValidDate(d) && d.day <= 28
    ensures AddMonths(AddMonths(d, a), b) == AddMonths(d, a + b)
  {
    var once := AddMonths(d, a);
    assert MonthNumber(once) == MonthNumber(d) + a && once.day == d.day;
    SameMonthNumber(AddMonths(once, b), AddMonths(d, a + b));
  }

  /** Advancing by zero months changes nothing, and a subscription of a
      positive number of months ends in a later month. */
  lemma AddMonthsForward(d: CalDate, n: int)
    requires ValidDate(d)
    ensures AddMonths(d, 0) == d
    ensures MonthNumber(AddMonths(d, n)) >= MonthNumber(d) + n
  {
    SameMonthNumber(AddMonths(d, 0), d);
  }

  // ---------------------------------------------------------------------
  // The subscriptions table

  /** A row of the `subscriptions` table; times of creation in milliseconds. */
  datatype Subscription = Subscription(
    id: string,
    userId: string,
    planType: string,
    status: string,
    startDate: CalDate,
    endDate: CalDate,
    price: int,
    features: seq<string>,
    createdAt: int)

  /** A PUT body: the columns it sets. */
  datatype Patch = Patch(
    planType: Option<string>,
    status: Option<string>,
    startDate: Option<CalDate>,
    endDate: Option<CalDate>,
    price: Option<int>,
    features: Option<seq<string>>)

  function Apply(p: Patch, s: Subscription): (r: Subscription)
    ensures r.id == s.id && r.userId == s.userId && r.createdAt == s.createdAt
    ensures p.status.Some? ==> r.status == p.status.value
    ensures p.status.None? ==> r.status == s.status
    ensures p == Patch(None, None, None, None, None, None) ==> r == s
  {
    s.(planType := if p.planType.Some? then p.planType.value else s.planType,
       status := if p.status.Some? then p.status.value else s.status,
       startDate := if p.startDate.Some? then p.startDate.value else s.startDate,
       endDate := if p.endDate.Some? then p.endDate.value else s.endDate,
       price := if p.price.Some? then p.price.value else s.price,
       features := if p.features.Some? then p.features.value else s.features)
  }

  /** `.eq('user_id', user).eq('status', 'active')` */
  function ActiveOf(userId: string): Subscription -> bool {
    (s: Subscription) => s.userId == userId && s.status == "active"
  }

  /** `.eq('id', id).eq('user_id', user)` */
  function OwnedBy(id: string, userId: string): Subscription -> bool {
    (s: Subscription) => s.id == id && s.userId == userId
  }

  function MineOnly(userId: string): Subscription -> bool {
    (s: Subscription) => s.userId == userId
  }

  function CreatedAt(s: Subscription): real {
    s.createdAt as real
  }

  /** How many active subscriptions a user holds. */
  function ActiveCount(table: seq<Subscription>, userId: string): (n: nat)
    ensures n <= |table|
    ensures n == 0 <==> forall i :: 0 <= i < |table| ==> !ActiveOf(userId)(table[i])
  {
    if table == [] then 0
    else
      var rest := ActiveCount(table[1..], userId);
      assert forall i :: 1 <= i < |table| ==> table[i] == table[1..][i - 1];
      (if ActiveOf(userId)(table[0]) then 1 else 0) + rest
  }

  lemma {:induction false} ActiveCountAppend(table: seq<Subscription>, s: Subscription, userId: string)
    ensures ActiveCount(table + [s], userId) ==
      ActiveCount(table, userId) + (if ActiveOf(userId)(s) then 1 else 0)
  {
    if table != [] {
      assert (table + [s])[1..] == table[1..] + [s];
      ActiveCountAppend(table[1..], s, userId);
    }
  }

  /** POST: the table afterwards and the reply. */
  datatype Created = Created(table: seq<Subscription>, reply: Reply<Subscription>)

  /** The row a successful POST inserts. */
  function NewSubscription(id: string, userId: string, planType: string, months: int,
                           now: CalDate, createdAt: int): (s: Subscription)
    requires planType in Plans && ValidDate(now)
    ensures s.userId == userId && s.planType == planType && s.status == "active"
    ensures s.price == Plans[planType].monthly * months
    ensures s.features == Plans[planType].features
    ensures s.startDate == now && s.endDate == AddMonths(now, months)
  {
    var plan := Plans[planType];
    Subscription(id, userId, planType, "active", now, AddMonths(now, months),
                 plan.monthly * months, plan.features, createdAt)
  }

  /** POST: validate the type, refuse a second active subscription, insert. */
  function Create(table: seq<Subscription>, userId: string, planType: string, months: int,
                  now: CalDate, createdAt: int, newId: string): (o: Created)
    requires ValidDate(now)
    ensures planType !in Plans ==>
      o == Created(table, Error(400, "Invalid subscription type"))
    ensures planType in Plans && Single(table, ActiveOf(userId)).One? ==>
      o == Created(table, Error(409, "User already has an active subscription"))
    ensures planType in Plans && !Single(table, ActiveOf(userId)).One? ==>
      var s := NewSubscription(newId, userId, planType, months, now, createdAt);
      o == Created(table + [s], Ok(201, s))
  {
    if planType !in Plans then
      Created(table, Error(400, "Invalid subscription type"))
    else if Single(table, ActiveOf(userId)).One? then
      Created(table, Error(409, "User already has an active subscription"))
    else
      var s := NewSubscription(newId, userId, planType, months, now, createdAt);
      Created(table + [s], Ok(201, s))
  }

  /** The one-active-subscription rule: a user with at most one active
      subscription still has at most one after a POST, exactly one when the
      POST succeeded, and a refused POST leaves the table as it was. The rule
      rests on `.single()`: a user who already holds two active rows is not
      refused, and gains a third. */
  lemma {:induction false} CreateKeepsOneActive(table: seq<Subscription>, userId: string, planType: string,
                                                months: int, now: CalDate, createdAt: int, newId: string)
    requires ValidDate(now)
    ensures var o := Create(table, userId, planType, months, now, createdAt, newId);
      && (ActiveCount(table, userId) <= 1 ==> ActiveCount(o.table, userId) <= 1)
      && (o.reply.Ok? ==> ActiveCount(o.table, userId) == ActiveCount(table, userId) + 1)
      && (o.reply.Fail? ==> o.table == table)
      && (ActiveCount(table, userId) >= 2 && planType in Plans ==> o.reply.Ok?)
  {
    var o := Create(table, userId, planType, months, now, createdAt, newId);
    var found := Single(table, ActiveOf(userId));
    if found.One? {
      ActiveCountUnique(table, userId, found.index);
    }
    if o.reply.Ok? {
      var s := NewSubscription(newId, userId, planType, months, now, createdAt);
      ActiveCountAppend(table, s, userId);
      if ActiveCount(table, userId) == 1 {
        assert !Single(table, ActiveOf(userId)).NoRow?;
        var i, j :| 0 <= i < j < |table| && ActiveOf(userId)(table[i]) && ActiveOf(userId)(table[j]);
        ActiveCountAtLeastTwo(table, userId, i, j);
      }
    }
  }

  lemma {:induction false} ActiveCountUnique(table: seq<Subscription>, userId: string, k: int)
    requires 0 <= k < |table| && ActiveOf(userId)(table[k])
    requires forall j :: 0 <= j < |table| && j != k ==> !ActiveOf(userId)(table[j])
    ensures ActiveCount(table, userId) == 1
  {
    if k > 0 {
      assert forall j :: 0 <= j < |table[1..]| && j != k - 1 ==> table[1..][j] == table[j + 1];
      ActiveCountUnique(table[1..], userId, k - 1);
    } else {
      assert forall j :: 0 <= j < |table[1..]| ==> table[1..][j] == table[j + 1];
    }
  }

  lemma {:induction false} ActiveCountAtLeastTwo(table: seq<Subscription>, userId: string, i: int, j: int)
    requires 0 <= i < j < |table| && ActiveOf(userId)(table[i]) && ActiveOf(userId)(table[j])
    ensures ActiveCount(table, userId) >= 2
  {
    if i > 0 {
      ActiveCountAtLeastTwo(table[1..], userId, i - 1, j - 1);
    } else {
      assert table[1..][j - 1] == table[j];
    }
  }

  /** PUT and DELETE: the table afterwards and the reply. */
  datatype Updated = Updated(table: seq<Subscription>, reply: Reply<Subscription>)

  /** `.update(f).eq('id', id).eq('user_id', user).select().single()` */
  function UpdateOwned(table: seq<Subscription>, id: string, userId: string,
                       f: Subscription -> Subscription): (o: Updated)
    ensures o.table == UpdateWhere(table, OwnedBy(id, userId), f)
    ensures Single(table, OwnedBy(id, userId)).One? ==>
      o.reply == Ok(200, f(table[Single(table, OwnedBy(id, userId)).index]))
    ensures !Single(table, OwnedBy(id, userId)).One? ==> o.reply == Error(400, NotSingle)
  {
    var found := Single(table, OwnedBy(id, userId));
    Updated(UpdateWhere(table, OwnedBy(id, userId), f),
            if found.One? then Ok(200, f(table[found.index])) else Error(400, NotSingle))
  }

  function ApplyPatch(p: Patch): Subscription -> Subscription {
    (s: Subscription) => Apply(p, s)
  }

  function MarkCancelled(s: Subscription): Subscription {
    s.(status := "cancelled")
  }

  /** PUT `/subscriptions/<id>` with a patch. */
  function Update(table: seq<Subscription>, userId: string, id: string, p: Patch): (o: Updated)
    ensures MissingId(id, "subscriptions") ==>
      o == Updated(table, Error(400, "Subscription ID is required"))
    ensures !MissingId(id, "subscriptions") ==> o == UpdateOwned(table, id, userId, ApplyPatch(p))
  {
    if MissingId(id, "subscriptions") then Updated(table, Error(400, "Subscription ID is required"))
    else UpdateOwned(table, id, userId, ApplyPatch(p))
  }

  /** DELETE `/subscriptions/<id>`: cancel by status. */
  function Cancel(table: seq<Subscription>, userId: string, id: string): (o: Updated)
    ensures MissingId(id, "subscriptions") ==>
      o == Updated(table, Error(400, "Subscription ID is required"))
    ensures !MissingId(id, "subscriptions") ==> o == UpdateOwned(table, id, userId, MarkCancelled)
  {
    if MissingId(id, "subscriptions") then Updated(table, Error(400, "Subscription ID is required"))
    else UpdateOwned(table, id, userId, MarkCancelled)
  }

  /** Cancelling never removes a row: the table keeps its length, every row
      keeps its id, owner, price and dates, only the caller's row with that id
      changes and only its status, to 'cancelled'; and no user gains an
      active subscription. */
  lemma {:induction false} CancelOnlyChangesStatus(table: seq<Subscription>, userId: string, id: string, other: string)
    ensures var o := Cancel(table, userId, id);
      && |o.table| == |table|
      && (forall i :: 0 <= i < |table| ==>
            o.table[i] == (if !MissingId(id, "subscriptions") && OwnedBy(id, userId)(table[i])
                           then table[i].(status := "cancelled") else table[i]))
      && ActiveCount(o.table, other) <= ActiveCount(table, other)
  {
    var o := Cancel(table, userId, id);
    if !MissingId(id, "subscriptions") {
      CancelCount(table, OwnedBy(id, userId), other);
    }
  }

  lemma {:induction false} CancelCount(table: seq<Subscription>, p: Subscription -> bool, userId: string)
    ensures ActiveCount(UpdateWhere(table, p, MarkCancelled), userId) <= ActiveCount(table, userId)
  {
    if table != [] {
      var r := UpdateWhere(table, p, MarkCancelled);
      assert r[1..] == UpdateWhere(table[1..], p, MarkCancelled);
      CancelCount(table[1..], p, userId);
    }
  }

  /** The reply to a DELETE. */
  datatype Cancellation = Cancellation(message: string, subscription: Subscription)

  function CancelReply(o: Updated): (r: Reply<Cancellation>)
    ensures o.reply.Ok? ==> r == Ok(200, Cancellation("Subscription cancelled successfully", o.reply.body))
    ensures o.reply.Fail? ==> r == Fail(o.reply.status, o.reply.error, [])
  {
    match o.reply
    case Ok(_, s) => Ok(200, Cancellation("Subscription cancelled successfully", s))
    case Fail(status, error, _) => Fail(status, error, [])
  }

  /** What a GET answers with. */
  datatype Listing =
    | PlanTable(plans: map<string, Plan>)
    | OneSubscription(subscription: Subscription)
    | Mine(subscriptions: seq<Subscription>)

  /** GET: `?action=plans` gives the plan table as it stands; a path id gives
      the caller's subscription with that id; otherwise all the caller's
      subscriptions, newest first. */
  function Get(table: seq<Subscription>, userId: string, id: string, action: Option<string>): (r: Reply<Listing>)
    ensures action == Some("plans") ==> r == Ok(200, PlanTable(Plans))
    ensures action != Some("plans") && !MissingId(id, "subscriptions") ==>
      if Single(table, OwnedBy(id, userId)).One?
      then r == Ok(200, OneSubscription(table[Single(table, OwnedBy(id, userId)).index]))
      else r == Error(404, NotSingle)
    ensures action != Some("plans") && MissingId(id, "subscriptions") ==>
      r.Ok? && r.body.Mine?
      && SortedDesc(r.body.subscriptions, CreatedAt)
      && multiset(r.body.subscriptions) == multiset(Filter(table, MineOnly(userId)))
  {
    if action == Some("plans") then Ok(200, PlanTable(Plans))
    else if !MissingId(id, "subscriptions") then
      var found := Single(table, OwnedBy(id, userId));
      if found.One? then Ok(200, OneSubscription(table[found.index])) else Error(404, NotSingle)
    else Ok(200, Mine(SortDesc(Filter(table, MineOnly(userId)), CreatedAt)))
  }
}
