/**
 * Subscriptions of one organisation against a clock that never goes back: trial, grace, paid
 * activation, cancellation and expiry. Times are seconds; rows are in insertion order.
 */
module Subscription {
  import opened Common

  const DAY: int := 86400
  const TRIAL_DAYS: int := 14
  const GRACE_DAYS: int := 7

  datatype Sub = Sub(active: bool, start: int, end: Option<int>, graceEnd: Option<int>, isTrial: bool)

  datatype Phase = ACTIVE | GRACE | LOCKED | NONE

  /** The organisation's rows and whether it has used its trial. */
  datatype Account = Account(subs: seq<Sub>, trialConsumed: bool)

  datatype Answer = Answer(account: Account, error: Option<Error>)

  function GraceEndFor(s: Sub): Option<int> {
    if s.graceEnd.Some? then s.graceEnd
    else if s.end.None? then None
    else if s.isTrial then Some(s.end.value + GRACE_DAYS * DAY)
    else s.end
  }

  function AccessPhase(s: Sub, now: int): Phase {
    if !s.active then NONE
    else if s.end.None? || now < s.end.value then ACTIVE
    else if GraceEndFor(s).Some? && now < GraceEndFor(s).value then GRACE
    else LOCKED
  }

  predicate Grants(s: Sub, now: int) {
    AccessPhase(s, now) == ACTIVE || AccessPhase(s, now) == GRACE
  }

  // ---------- the queries ----------

  /** An answer of the query for active rows, latest start first; ties may come in any order. */
  ghost predicate NewestFirst(subs: seq<Sub>, order: seq<nat>) {
    && (forall k :: 0 <= k < |order| ==> order[k] < |subs| && subs[order[k]].active)
    && (forall i :: 0 <= i < |subs| && subs[i].active ==> i in order)
    && (forall k, m :: 0 <= k < m < |order| ==> order[k] != order[m] && subs[order[k]].start >= subs[order[m]].start)
  }

  /** Index of the active row inserted last, or -1. */
  function LastActive(subs: seq<Sub>): (k: int)
    ensures -1 <= k < |subs|
    ensures k >= 0 ==> subs[k].active
    ensures forall i :: k < i < |subs| ==> !subs[i].active
  {
    if |subs| == 0 then -1
    else if subs[|subs| - 1].active then |subs| - 1
    else LastActive(subs[..|subs| - 1])
  }

  ghost predicate HasAccess(subs: seq<Sub>, now: int) {
    exists i :: 0 <= i < |subs| && Grants(subs[i], now)
  }

  predicate HasTrialRow(subs: seq<Sub>) {
    exists i :: 0 <= i < |subs| && subs[i].isTrial
  }

  /** Scan the active rows, newest first, for one that grants access. */
  method GetActiveSubscription(subs: seq<Sub>, order: seq<nat>, now: int) returns (found: Option<nat>)
    requires NewestFirst(subs, order)
    ensures found.Some? <==> HasAccess(subs, now)
    ensures found.Some? ==> exists k :: 0 <= k < |order| && order[k] == found.value && Grants(subs[order[k]], now)
                                        && forall m :: 0 <= m < k ==> !Grants(subs[order[m]], now)
  {
    for k := 0 to |order|
      invariant forall m :: 0 <= m < k ==> !Grants(subs[order[m]], now)
    {
      var phase := AccessPhase(subs[order[k]], now);
      if phase == ACTIVE || phase == GRACE {
        return Some(order[k]);
      }
    }
    return None;
  }

  method GetLatestSubscription(subs: seq<Sub>, order: seq<nat>) returns (found: Option<nat>)
    requires NewestFirst(subs, order)
    ensures found == Newest(subs, order)
    ensures found.None? <==> forall i :: 0 <= i < |subs| ==> !subs[i].active
    ensures found.Some? ==> found.value < |subs| && subs[found.value].active
                            && forall i :: 0 <= i < |subs| && subs[i].active ==>
                                             subs[i].start <= subs[found.value].start
  {
    if |order| == 0 {
      return None;
    }
    forall i | 0 <= i < |subs| && subs[i].active ensures subs[i].start <= subs[order[0]].start {
      var k :| 0 <= k < |order| && order[k] == i;
    }
    return Some(order[0]);
  }

  // ---------- the operations ----------

  function TrialRow(now: int, planDays: int): Sub {
    var days := if planDays > 0 then planDays else TRIAL_DAYS;
    Sub(true, now, Some(now + days * DAY), Some(now + days * DAY + GRACE_DAYS * DAY), true)
  }

  /** `planDays` is None when the plan is not available. */
  ghost function TrialStarted(a: Account, now: int, eligible: bool, planDays: Option<int>): Answer {
    if !eligible then Answer(a, Some(BadRequest))
    else if a.trialConsumed || HasTrialRow(a.subs) then Answer(a, Some(BadRequest))
    else if planDays.None? then Answer(a, Some(NotFound))
    else if HasAccess(a.subs, now) then Answer(a, None)
    else Answer(Account(a.subs + [TrialRow(now, planDays.value)], true), None)
  }

  /**
   * The row with its grace extended by `days` from the later of now and its current grace end.
   * The end date is never the fallback: a row that has one has a grace end.
   */
  function Extension(s: Sub, now: int, days: int): Sub {
    var base := if GraceEndFor(s).Some? then GraceEndFor(s).value else now;
    s.(graceEnd := Some(Max(base, now) + days * DAY), active := true)
  }

  /** `latest` is the active row with the latest start, if there is an active row. */
  function GraceExtended(a: Account, now: int, days: int, latest: Option<nat>): Answer
    requires latest.Some? ==> latest.value < |a.subs|
  {
    if days < 1 || days > 30 then Answer(a, Some(BadRequest))
    else if latest.None? then Answer(a, Some(NotFound))
    else
      var k := latest.value;
      Answer(a.(subs := a.subs[k := Extension(a.subs[k], now, days)]), None)
  }

  /** The first row of an answer of the query. */
  function Newest(subs: seq<Sub>, order: seq<nat>): (k: Option<nat>)
    requires forall i :: 0 <= i < |order| ==> order[i] < |subs|
    ensures k.Some? ==> k.value < |subs|
  {
    if |order| == 0 then None else Some(order[0])
  }

  /** The active row inserted last, if there is an active row. */
  function LatestRow(subs: seq<Sub>): (k: Option<nat>)
    ensures k.Some? ==> k.value < |subs| && subs[k.value].active
  {
    if LastActive(subs) < 0 then None else Some(LastActive(subs))
  }

  function AllInactive(subs: seq<Sub>): (r: seq<Sub>)
    ensures |r| == |subs|
  {
    seq(|subs|, i requires 0 <= i < |subs| => subs[i].(active := false))
  }

  function PaidRow(now: int, days: int): Sub {
    Sub(true, now, Some(now + Max(1, days) * DAY), None, false)
  }

  function Activated(a: Account, now: int, days: int): Answer {
    Answer(a.(subs := AllInactive(a.subs) + [PaidRow(now, days)]), None)
  }

  function Closed(s: Sub, now: int): Sub {
    if s.active then s.(active := false, end := if s.end.None? then Some(now) else s.end) else s
  }

  function Deactivated(a: Account, now: int): Answer {
    Answer(a.(subs := seq(|a.subs|, i requires 0 <= i < |a.subs| => Closed(a.subs[i], now))), None)
  }

  function Expired(s: Sub, now: int): Sub {
    if s.active && s.end.Some? && s.end.value < now then s.(active := false) else s
  }

  function MarkedExpired(a: Account, now: int): Answer {
    Answer(a.(subs := seq(|a.subs|, i requires 0 <= i < |a.subs| => Expired(a.subs[i], now))), None)
  }

  /** How many rows were switched off. */
  function SwitchedOff(before: seq<Sub>, after: seq<Sub>): nat
    requires |before| == |after|
  {
    if |before| == 0 then 0
    else
      var n := |before| - 1;
      SwitchedOff(before[..n], after[..n]) + if before[n].active && !after[n].active then 1 else 0
  }

  lemma {:induction false} NoneSwitchedOff(subs: seq<Sub>)
    ensures SwitchedOff(subs, subs) == 0
  {
    if |subs| != 0 {
      NoneSwitchedOff(subs[..|subs| - 1]);
    }
  }

  lemma {:induction false} SwitchedOffUpdate(before: seq<Sub>, after: seq<Sub>, i: nat, s: Sub)
    requires |before| == |after| && i < |after| && after[i] == before[i] && before[i].active && !s.active
    ensures SwitchedOff(before, after[i := s]) == SwitchedOff(before, after) + 1
  {
    var n := |before| - 1;
    if i < n {
      SwitchedOffUpdate(before[..n], after[..n], i, s);
      assert after[i := s][..n] == after[..n][i := s];
    } else {
      assert after[i := s][..n] == after[..n];
    }
  }

  class Organization {
    var subs: seq<Sub>
    var trialConsumed: bool

    constructor ()
      ensures Now() == Account([], false)
    {
      subs, trialConsumed := [], false;
    }

    function Now(): Account
      reads this
    {
      Account(subs, trialConsumed)
    }

    /** Start the one trial an organisation may have. */
    method StartPlanTrial(
      order: seq<nat>, now: int, eligible: bool, planDays: Option<int>) returns (error: Option<Error>)
      requires NewestFirst(subs, order)
      modifies this
      ensures Answer(Now(), error) == TrialStarted(old(Now()), now, eligible, planDays)
    {
      if !eligible {
        return Some(BadRequest);
      }
      if trialConsumed || HasTrialRow(subs) {
        return Some(BadRequest);
      }
      if planDays.None? {
        return Some(NotFound);
      }
      var existing := GetActiveSubscription(subs, order, now);
      if existing.Some? {
        return None;
      }
      var days := TRIAL_DAYS;
      if planDays.value > 0 {
        days := planDays.value;
      }
      var end := now + days * DAY;
      subs := subs + [Sub(true, now, Some(end), Some(end + GRACE_DAYS * DAY), true)];
      trialConsumed := true;
      return None;
    }

    /** Extend the grace of the latest active row. */
    method ExtendGracePeriod(order: seq<nat>, now: int, days: int) returns (error: Option<Error>)
      requires NewestFirst(subs, order)
      modifies this
      ensures Answer(Now(), error) == GraceExtended(old(Now()), now, days, Newest(old(subs), order))
    {
      if days < 1 || days > 30 {
        return Some(BadRequest);
      }
      var latest := GetLatestSubscription(subs, order);
      if latest.None? {
        return Some(NotFound);
      }
      var k := latest.value;
      var base := now;
      var grace := GraceEndFor(subs[k]);
      if grace.Some? {
        base := grace.value;
      }
      if base < now {
        base := now;
      }
      subs := subs[k := subs[k].(graceEnd := Some(base + days * DAY), active := true)];
      return None;
    }

    /** Paid activation: every other row is switched off, a new one covers the next days. */
    method ActivateOrExtend(now: int, days: int)
      modifies this
      ensures Answer(Now(), None) == Activated(old(Now()), now, days)
    {
      ghost var before := subs;
      for i := 0 to |subs|
        invariant |subs| == |before| && trialConsumed == old(trialConsumed)
        invariant forall j :: 0 <= j < i ==> subs[j] == before[j].(active := false)
        invariant forall j :: i <= j < |subs| ==> subs[j] == before[j]
      {
        if subs[i].active {
          subs := subs[i := subs[i].(active := false)];
        }
      }
      assert subs == AllInactive(before);
      subs := subs + [Sub(true, now, Some(now + Max(1, days) * DAY), None, false)];
    }

    method Deactivate(now: int)
      modifies this
      ensures Answer(Now(), None) == Deactivated(old(Now()), now)
    {
      ghost var before := subs;
      for i := 0 to |subs|
        invariant |subs| == |before| && trialConsumed == old(trialConsumed)
        invariant forall j :: 0 <= j < i ==> subs[j] == Closed(before[j], now)
        invariant forall j :: i <= j < |subs| ==> subs[j] == before[j]
      {
        if subs[i].active {
          var s := subs[i].(active := false);
          if s.end.None? {
            s := s.(end := Some(now));
          }
          subs := subs[i := s];
        }
      }
      assert subs == Deactivated(old(Now()), now).account.subs;
    }

    /** Switch off the active rows past their end date; answers how many. */
    method MarkExpired(now: int) returns (count: nat)
      modifies this
      ensures Answer(Now(), None) == MarkedExpired(old(Now()), now)
      ensures count == SwitchedOff(old(subs), subs)
    {
      ghost var before := subs;
      count := 0;
      NoneSwitchedOff(subs);
      for i := 0 to |subs|
        invariant |subs| == |before| && trialConsumed == old(trialConsumed)
        invariant forall j :: 0 <= j < i ==> subs[j] == Expired(before[j], now)
        invariant forall j :: i <= j < |subs| ==> subs[j] == before[j]
        invariant count == SwitchedOff(before, subs)
      {
        var end := subs[i].end;
        if subs[i].active && end.Some? && end.value < now {
          SwitchedOffUpdate(before, subs, i, subs[i].(active := false));
          subs := subs[i := subs[i].(active := false)];
          count := count + 1;
        }
      }
      assert subs == MarkedExpired(old(Now()), now).account.subs;
    }
  }

  // ---------- runs ----------

  datatype Op =
    | StartTrial(eligible: bool, planDays: Option<int>)
    | ExtendGrace(extra: int)
    | Activate(paid: int)
    | Cancel
    | Expire

  ghost function Step(a: Account, op: Op, now: int): Account {
    match op
    case StartTrial(eligible, planDays) => TrialStarted(a, now, eligible, planDays).account
    case ExtendGrace(days) => GraceExtended(a, now, days, LatestRow(a.subs)).account
    case Activate(days) => Activated(a, now, days).account
    case Cancel => Deactivated(a, now).account
    case Expire => MarkedExpired(a, now).account
  }

  /** Each step is the operation its method is proved against. */
  lemma StepsMethods(a: Account, now: int, days: int, eligible: bool, planDays: Option<int>)
    ensures Step(a, StartTrial(eligible, planDays), now) == TrialStarted(a, now, eligible, planDays).account
    ensures Step(a, ExtendGrace(days), now) == GraceExtended(a, now, days, LatestRow(a.subs)).account
    ensures Step(a, Activate(days), now) == Activated(a, now, days).account
    ensures Step(a, Cancel, now) == Deactivated(a, now).account
    ensures Step(a, Expire, now) == MarkedExpired(a, now).account
  {
  }

  /** An operation and the moment it happens. */
  datatype Event = Event(at: int, op: Op)

  ghost predicate ClockOk(from: int, events: seq<Event>)
    decreases |events|
  {
    |events| == 0 || (from <= events[0].at && ClockOk(events[0].at, events[1..]))
  }

  ghost function Run(a: Account, events: seq<Event>): Account
    decreases |events|
  {
    if |events| == 0 then a else Run(Step(a, events[0].op, events[0].at), events[1..])
  }

  function EndOf(from: int, events: seq<Event>): int {
    if |events| == 0 then from else events[|events| - 1].at
  }

  // ---------- the invariant ----------

  ghost predicate Chronological(subs: seq<Sub>) {
    forall i, j :: 0 <= i < j < |subs| && subs[i].active && subs[j].active ==> subs[i].start < subs[j].start
  }

  /** Of the active rows all but the last are locked, starts rise, and there is one trial at most. */
  ghost predicate AccountOk(a: Account, now: int) {
    && Chronological(a.subs)
    && (forall i :: 0 <= i < |a.subs| ==> a.subs[i].start <= now)
    && (forall i :: 0 <= i < |a.subs| && a.subs[i].active && a.subs[i].end.Some? ==>
                      a.subs[i].start < a.subs[i].end.value)
    && (forall i, j :: 0 <= i < j < |a.subs| && a.subs[i].active && a.subs[j].active ==>
                         AccessPhase(a.subs[i], now) == LOCKED)
    && (forall i, j :: 0 <= i < j < |a.subs| ==> !(a.subs[i].isTrial && a.subs[j].isTrial))
  }

  /** Without a write the phase only moves from active to grace to locked. */
  function Rank(p: Phase): nat {
    match p case ACTIVE => 0 case GRACE => 1 case LOCKED => 2 case NONE => 3
  }

  lemma PhaseOnlyAdvances(s: Sub, now: int, later: int)
    requires now <= later
    ensures Rank(AccessPhase(s, now)) <= Rank(AccessPhase(s, later))
    ensures AccessPhase(s, now) == NONE <==> AccessPhase(s, later) == NONE
  {
  }

  lemma TimeKeeps(a: Account, now: int, later: int)
    requires AccountOk(a, now) && now <= later
    ensures AccountOk(a, later)
  {
    forall i, j | 0 <= i < j < |a.subs| && a.subs[i].active && a.subs[j].active
      ensures AccessPhase(a.subs[i], later) == LOCKED {
      PhaseOnlyAdvances(a.subs[i], now, later);
    }
  }

  lemma TrialKeeps(a: Account, now: int, eligible: bool, planDays: Option<int>)
    requires AccountOk(a, now)
    ensures AccountOk(TrialStarted(a, now, eligible, planDays).account, now)
  {
    var b := TrialStarted(a, now, eligible, planDays).account;
    if b != a {
      forall i | 0 <= i < |a.subs| && a.subs[i].active
        ensures AccessPhase(a.subs[i], now) == LOCKED && a.subs[i].start < now {
        assert !Grants(a.subs[i], now);
      }
    }
  }

  lemma ExtendKeeps(a: Account, now: int, days: int)
    requires AccountOk(a, now)
    ensures AccountOk(GraceExtended(a, now, days, LatestRow(a.subs)).account, now)
  {
  }

  lemma ActivateKeeps(a: Account, now: int, days: int)
    requires AccountOk(a, now)
    ensures AccountOk(Activated(a, now, days).account, now)
  {
  }

  lemma SwitchOffKeeps(a: Account, b: Account, now: int)
    requires AccountOk(a, now) && |a.subs| == |b.subs|
    requires forall i :: 0 <= i < |a.subs| ==>
               b.subs[i].start == a.subs[i].start && b.subs[i].isTrial == a.subs[i].isTrial
               && (b.subs[i].active ==> b.subs[i] == a.subs[i])
    ensures AccountOk(b, now)
  {
  }

  lemma StepKeeps(a: Account, op: Op, now: int)
    requires AccountOk(a, now)
    ensures AccountOk(Step(a, op, now), now)
  {
    hide AccountOk;
    match op
    case StartTrial(eligible, planDays) => TrialKeeps(a, now, eligible, planDays);
    case ExtendGrace(days) => ExtendKeeps(a, now, days);
    case Activate(days) => ActivateKeeps(a, now, days);
    case Cancel => SwitchOffKeeps(a, Step(a, op, now), now);
    case Expire => SwitchOffKeeps(a, Step(a, op, now), now);
  }

  /** Every run with a clock that does not go back keeps the invariant. */
  lemma {:induction false} RunKeeps(a: Account, from: int, events: seq<Event>)
    requires AccountOk(a, from) && ClockOk(from, events)
    ensures AccountOk(Run(a, events), EndOf(from, events))
    decreases |events|
  {
    if |events| != 0 {
      TimeKeeps(a, from, events[0].at);
      StepKeeps(a, events[0].op, events[0].at);
      RunKeeps(Step(a, events[0].op, events[0].at), events[0].at, events[1..]);
    }
  }

  // ---------- results ----------

  /** In a reachable account the query's first row is the active row inserted last, ties or not. */
  lemma NewestIsLatestRow(a: Account, now: int, order: seq<nat>)
    requires AccountOk(a, now) && NewestFirst(a.subs, order)
    ensures Newest(a.subs, order) == LatestRow(a.subs)
  {
    var k := LastActive(a.subs);
    if |order| == 0 {
      forall i | 0 <= i < |a.subs| ensures !a.subs[i].active {
        assert i !in order;
      }
    } else {
      assert a.subs[order[0]].active;
      assert k in order;
      var m :| 0 <= m < |order| && order[m] == k;
      forall i | 0 <= i < |a.subs| && a.subs[i].active ensures a.subs[i].start <= a.subs[order[0]].start {
        assert i in order;
      }
      LatestIsLastActive(a.subs, order[0]);
    }
  }

  lemma LatestIsLastActive(subs: seq<Sub>, k: nat)
    requires Chronological(subs) && k < |subs| && subs[k].active
    requires forall i :: 0 <= i < |subs| && subs[i].active ==> subs[i].start <= subs[k].start
    ensures k == LastActive(subs)
  {
    assert k <= LastActive(subs);
  }

  /**
   * At every moment of every run from an empty account, at most one row grants access, it is
   * the newest active one, and the organisation has at most one trial row.
   */
  lemma OneRowGrantsAccess(from: int, events: seq<Event>, now: int, i: nat)
    requires ClockOk(from, events) && EndOf(from, events) <= now
    requires i < |Run(Account([], false), events).subs|
    ensures var subs := Run(Account([], false), events).subs;
            && (Grants(subs[i], now) ==> i == LastActive(subs))
            && (forall j :: 0 <= j < |subs| && j != i ==> !(subs[i].isTrial && subs[j].isTrial))
  {
    var a := Run(Account([], false), events);
    RunKeeps(Account([], false), from, events);
    TimeKeeps(a, EndOf(from, events), now);
    if Grants(a.subs[i], now) {
      OnlyLastGrants(a, now, i);
    }
  }

  lemma OnlyLastGrants(a: Account, now: int, i: nat)
    requires AccountOk(a, now) && i < |a.subs| && Grants(a.subs[i], now)
    ensures i == LastActive(a.subs)
  {
    var k := LastActive(a.subs);
    var phase := AccessPhase(a.subs[i], now);
    assert i < k ==> phase == LOCKED;
  }

  /**
   * In a reachable state the scan over all active rows finds a row exactly when the newest one
   * grants access, and then finds that one: looking at the latest row alone is enough.
   */
  lemma ScanEqualsLatest(a: Account, now: int, order: seq<nat>, k: nat)
    requires AccountOk(a, now) && NewestFirst(a.subs, order) && k < |order|
    ensures order[0] == LastActive(a.subs)
    ensures Grants(a.subs[order[k]], now) ==> k == 0
    ensures HasAccess(a.subs, now) <==> Grants(a.subs[order[0]], now)
  {
    var last := LastActive(a.subs);
    assert a.subs[order[0]].active;
    assert last in order;
    var m :| 0 <= m < |order| && order[m] == last;
    var first, newest := a.subs[order[0]].start, a.subs[last].start;
    assert m > 0 ==> first >= newest;
    assert order[0] < last ==> first < newest;
    forall i | 0 <= i < |a.subs| && Grants(a.subs[i], now) ensures i == last {
      OnlyLastGrants(a, now, i);
    }
  }

  /** An extension adds at least the requested days to the grace end and opens access at once. */
  lemma ExtensionExtends(a: Account, now: int, days: int, k: nat)
    requires k < |a.subs| && GraceExtended(a, now, days, Some(k)).error == None
    ensures var old_, new_ := a.subs[k], GraceExtended(a, now, days, Some(k)).account.subs[k];
            && GraceEndFor(new_).Some?
            && (GraceEndFor(old_).Some? ==> GraceEndFor(new_).value >= GraceEndFor(old_).value + days * DAY)
            && GraceEndFor(new_).value >= now + days * DAY
            && Grants(new_, now)
            && forall t :: now <= t < now + days * DAY ==> Grants(new_, t)
  {
  }

  /** The moment a row's access ends; rows without an end date never lose it. */
  function AccessUntil(s: Sub): int
    requires s.end.Some?
  {
    Max(s.end.value, GraceEndFor(s).value)
  }

  lemma GrantsUntil(s: Sub, t: int)
    ensures Grants(s, t) <==> s.active && (s.end.None? || t < AccessUntil(s))
  {
  }

  /**
   * Paid activation replaces the running window by a new one from now, so it never takes
   * access away exactly when no active row reaches past the new end: paying early for fewer
   * days than are left shortens the access already paid for.
   */
  lemma ActivationNeverShortensIff(a: Account, now: int, days: int)
    ensures (forall t :: now <= t && HasAccess(a.subs, t) ==> HasAccess(Activated(a, now, days).account.subs, t))
            <==>
            (forall i :: 0 <= i < |a.subs| && a.subs[i].active ==>
                           a.subs[i].end.Some? && AccessUntil(a.subs[i]) <= now + Max(1, days) * DAY)
  {
    var b := Activated(a, now, days).account.subs;
    var end := now + Max(1, days) * DAY;
    forall t ensures HasAccess(b, t) <==> t < end {
      GrantsUntil(b[|a.subs|], t);
      if HasAccess(b, t) {
        var i :| 0 <= i < |b| && Grants(b[i], t);
        assert b[i].active;
      } else {
        assert !Grants(b[|a.subs|], t);
      }
    }
    if forall t :: now <= t && HasAccess(a.subs, t) ==> HasAccess(b, t) {
      forall i | 0 <= i < |a.subs| && a.subs[i].active
        ensures a.subs[i].end.Some? && AccessUntil(a.subs[i]) <= end {
        GrantsUntil(a.subs[i], end);
        assert Grants(a.subs[i], end) ==> HasAccess(a.subs, end);
      }
    }
    if forall i :: 0 <= i < |a.subs| && a.subs[i].active ==> a.subs[i].end.Some? && AccessUntil(a.subs[i]) <= end {
      forall t | now <= t && HasAccess(a.subs, t) ensures HasAccess(b, t) {
        var i :| 0 <= i < |a.subs| && Grants(a.subs[i], t);
        GrantsUntil(a.subs[i], t);
      }
    }
  }

  /**
   * Expiry marking looks at the end date, not at the grace: access survives it exactly when a
   * granting row has no end date or one that is not past. A row in grace strictly after its
   * end is switched off with its grace unused.
   */
  lemma ExpiryKeepsAccessIff(a: Account, now: int)
    ensures HasAccess(MarkedExpired(a, now).account.subs, now) <==>
            exists i :: 0 <= i < |a.subs| && Grants(a.subs[i], now)
                        && (a.subs[i].end.None? || now <= a.subs[i].end.value)
  {
    var b := MarkedExpired(a, now).account.subs;
    if HasAccess(b, now) {
      var i :| 0 <= i < |b| && Grants(b[i], now);
      assert b[i] == Expired(a.subs[i], now);
      assert Grants(a.subs[i], now);
    }
    if exists i :: 0 <= i < |a.subs| && Grants(a.subs[i], now) && (a.subs[i].end.None? || now <= a.subs[i].end.value) {
      var i :| 0 <= i < |a.subs| && Grants(a.subs[i], now) && (a.subs[i].end.None? || now <= a.subs[i].end.value);
      assert b[i] == a.subs[i];
    }
  }

  // ---------- what the operations leave ----------

  /** The phases of a row in time: active to its end, in grace to its grace end, then locked. */
  lemma PhaseTable(s: Sub, now: int)
    ensures !s.active ==> AccessPhase(s, now) == NONE
    ensures s.active && s.end == None ==> AccessPhase(s, now) == ACTIVE
    ensures s.active && s.end.Some? ==>
              var grace := if s.graceEnd.Some? then s.graceEnd.value
                           else if s.isTrial then s.end.value + 7 * 86400 else s.end.value;
              && (now < s.end.value ==> AccessPhase(s, now) == ACTIVE)
              && (s.end.value <= now < grace ==> AccessPhase(s, now) == GRACE)
              && (s.end.value <= now && grace <= now ==> AccessPhase(s, now) == LOCKED)
  {
  }

  /**
   * A trial starts exactly when the plan allows it and exists, no trial was used, and there is no
   * access. It adds one row: active for the plan's own positive number of days, else fourteen,
   * then in grace for seven, then locked; and the trial is used up. Otherwise nothing changes.
   */
  lemma TrialAnswers(a: Account, now: int, eligible: bool, planDays: Option<int>)
    ensures var r := TrialStarted(a, now, eligible, planDays);
            var used := a.trialConsumed || exists i :: 0 <= i < |a.subs| && a.subs[i].isTrial;
            && (!eligible || used ==> r == Answer(a, Some(BadRequest)))
            && (eligible && !used && planDays == None ==> r == Answer(a, Some(NotFound)))
            && (eligible && !used && planDays.Some? && HasAccess(a.subs, now) ==> r == Answer(a, None))
            && (eligible && !used && planDays.Some? && !HasAccess(a.subs, now) ==>
                  && r.error == None && r.account.trialConsumed && |r.account.subs| == |a.subs| + 1
                  && r.account.subs[..|a.subs|] == a.subs
                  && IsTrialFor(r.account.subs[|a.subs|], now, if planDays.value > 0 then planDays.value else 14))
  {
  }

  /** A trial from `now`: so many days active, then seven in grace, then locked. */
  ghost predicate IsTrialFor(s: Sub, now: int, days: int) {
    && s.isTrial && s.start == now
    && forall t :: t >= now ==>
         AccessPhase(s, t) == (if t < now + days * 86400 then ACTIVE
                               else if t < now + (days + 7) * 86400 then GRACE else LOCKED)
  }

  /**
   * Paid activation leaves the account with one active row, not a trial: active from now for the
   * days paid, at least one, and locked after them. The earlier rows are kept, switched off.
   */
  lemma ActivationAnswers(a: Account, now: int, days: int, t: int)
    ensures var r := Activated(a, now, days).account;
            && r.trialConsumed == a.trialConsumed && |r.subs| == |a.subs| + 1
            && (forall i :: 0 <= i < |a.subs| ==> r.subs[i] == a.subs[i].(active := false))
            && r.subs[|a.subs|].start == now && !r.subs[|a.subs|].isTrial
            && AccessPhase(r.subs[|a.subs|], t) ==
               (if t < now + (if days < 1 then 1 else days) * 86400 then ACTIVE else LOCKED)
  {
  }

  /**
   * A cancel ends access at once and for good: every row is inactive, its dates kept, but an
   * open-ended active row ends now. Rows that were inactive stay as they were.
   */
  lemma CancelAnswers(a: Account, now: int, t: int)
    ensures var r := Deactivated(a, now);
            && r.error == None && r.account.trialConsumed == a.trialConsumed && |r.account.subs| == |a.subs|
            && !HasAccess(r.account.subs, t)
            && (forall i :: 0 <= i < |a.subs| ==>
                  r.account.subs[i] ==
                  if !a.subs[i].active then a.subs[i]
                  else if a.subs[i].end == None then a.subs[i].(active := false, end := Some(now))
                  else a.subs[i].(active := false))
  {
    var subs := Deactivated(a, now).account.subs;
    forall i | 0 <= i < |subs| ensures !Grants(subs[i], t) {
      assert !subs[i].active;
    }
  }

  /** Expiry marking switches off exactly the active rows whose end date is past, and changes nothing else. */
  lemma ExpiryAnswers(a: Account, now: int, i: nat)
    requires i < |a.subs|
    ensures var r := MarkedExpired(a, now).account;
            && r.trialConsumed == a.trialConsumed && |r.subs| == |a.subs|
            && r.subs[i] == (if a.subs[i].active && a.subs[i].end.Some? && a.subs[i].end.value < now
                             then a.subs[i].(active := false) else a.subs[i])
  {
  }

  /**
   * A grace extension of one to thirty days moves the grace end of the given row to that many
   * days after the later of now and its present grace end, and changes nothing else.
   */
  lemma ExtensionAnswers(a: Account, now: int, days: int, k: nat)
    requires k < |a.subs| && a.subs[k].active
    ensures var r := GraceExtended(a, now, days, Some(k));
            && (days < 1 || days > 30 ==> r == Answer(a, Some(BadRequest)))
            && (1 <= days <= 30 ==>
                  && r.error == None
                  && r.account == a.(subs := a.subs[k := a.subs[k].(graceEnd := r.account.subs[k].graceEnd)])
                  && (forall g :: GraceEndFor(a.subs[k]) == Some(g) ==>
                        r.account.subs[k].graceEnd == Some((if g < now then now else g) + days * 86400))
                  && (GraceEndFor(a.subs[k]) == None ==> r.account.subs[k].graceEnd == Some(now + days * 86400)))
            && (1 <= days <= 30 ==> GraceExtended(a, now, days, None) == Answer(a, Some(NotFound)))
  {
  }

  // ---------- the failing accounts are reachable ----------

  const EMPTY: Account := Account([], false)

  /** Thirty paid days, then one more paid day a second later: from that day on access is gone. */
  lemma PayingAgainShortensAccess(t: int)
    requires 1 + DAY <= t < 30 * DAY
    ensures HasAccess(Run(EMPTY, [Event(0, Activate(30))]).subs, t)
    ensures !HasAccess(Run(EMPTY, [Event(0, Activate(30)), Event(1, Activate(1))]).subs, t)
  {
    var first, second := Event(0, Activate(30)), Event(1, Activate(1));
    OneEvent(EMPTY, first);
    TwoEvents(EMPTY, first, second);
    var a := Activated(EMPTY, 0, 30).account;
    assert Grants(a.subs[0], t);
    var b := Activated(a, 1, 1).account;
    assert |b.subs| == 2 && !b.subs[0].active && !Grants(b.subs[1], t);
  }

  /** A trial in its grace, marked expired: the grace is lost. */
  lemma ExpiryEndsGrace(t: int)
    requires TRIAL_DAYS * DAY < t < (TRIAL_DAYS + GRACE_DAYS) * DAY
    ensures HasAccess(Run(EMPTY, [Event(0, StartTrial(true, Some(0)))]).subs, t)
    ensures !HasAccess(Run(EMPTY, [Event(0, StartTrial(true, Some(0))), Event(t, Expire)]).subs, t)
  {
    var first, second := Event(0, StartTrial(true, Some(0))), Event(t, Expire);
    OneEvent(EMPTY, first);
    TwoEvents(EMPTY, first, second);
    var a := TrialStarted(EMPTY, 0, true, Some(0)).account;
    assert a.subs == [TrialRow(0, 0)];
    assert Grants(a.subs[0], t);
    var b := MarkedExpired(a, t).account;
    assert |b.subs| == 1 && !b.subs[0].active;
  }

  lemma OneEvent(a: Account, e: Event)
    ensures Run(a, [e]) == Step(a, e.op, e.at)
  {
    assert [e][1..] == [];
  }

  lemma TwoEvents(a: Account, e: Event, f: Event)
    ensures Run(a, [e, f]) == Step(Step(a, e.op, e.at), f.op, f.at)
  {
    assert [e, f][1..] == [f];
    OneEvent(Step(a, e.op, e.at), f);
  }
}
