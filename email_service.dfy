/**
 * The send pipeline of the mail service: address validation, admission
 * against an hourly counter kept in the cache, a bounded retry loop around
 * the mail transport, and the counter update and event that follow a
 * successful hand-over; plus the statistics snapshot of the counter.
 *
 * `Send` below is the imperative algorithm; `SendSpec` is the same
 * behaviour as a pure state transformer, and the lemmas about `SendSpec`
 * state what the pipeline promises.
 */
module Services {
  import opened Wrappers
  import opened Runtime

  const MaxRetries: nat := 3
  const RetryDelay: nat := 5
  const RateLimitKey: string := "email_rate_limit"
  const RateLimitMax: int := 100
  const RateLimitExpiration: nat := 3600

  /** The transport's answer to the attempt with the given 0-based index: true when it accepts the message. */
  type Transport = nat -> bool

  /** Raw HTML content, or a template name with the data it is rendered with. */
  datatype Body = Html(content: string) | Template(view: string, data: map<string, string>)

  /** What is handed to the transport on one attempt; attachments are those that exist. */
  datatype Message = Message(to: string, subject: string, body: Body, attachments: seq<string>)

  /** A dispatched success event: `email.sent` or `email.template.sent` with its payload. */
  datatype Event = Event(name: string, to: string, subject: string, template: Option<string>, attempt: nat)

  /** Observable side effects of a send, in the order they happen. */
  datatype Effect =
    | Attempted(message: Message)
    | Slept(seconds: nat)
    | CounterIncremented
    | Dispatched(event: Event)

  datatype Rejection = InvalidAddress | RateLimited

  /** How a send ends: rejected before any attempt, accepted after `failures` failed attempts, or all attempts failed. */
  datatype Outcome = Rejected(reason: Rejection) | Delivered(failures: nat) | Exhausted

  /** The `rate_limit` part of the statistics. */
  datatype Stats = Stats(current: int, max: int, resetIn: int)

  /** The counter as `Cache::get(key, 0)` sees it at time `now`. */
  function RateLimitCount(entries: map<string, CacheEntry>, now: int): int {
    Lookup(entries, RateLimitKey, now).GetOr(0)
  }

  /** The cache after `incrementRateLimit` at time `now`: the visible count plus one, for a full new window. */
  function Incremented(entries: map<string, CacheEntry>, now: int): map<string, CacheEntry> {
    entries[RateLimitKey := CacheEntry(RateLimitCount(entries, now) + 1, now + RateLimitExpiration)]
  }

  /** The stored counter does not exceed the hourly maximum. */
  predicate WithinLimit(entries: map<string, CacheEntry>) {
    RateLimitKey in entries ==> entries[RateLimitKey].value <= RateLimitMax
  }

  /** The stored counter expires no later than one full window from `now`. */
  predicate TtlBounded(entries: map<string, CacheEntry>, now: int) {
    RateLimitKey in entries ==> entries[RateLimitKey].expiresAt <= now + RateLimitExpiration
  }

  // ---------------------------------------------------------------------
  // Validation

  /** The characters PHP's `trim` removes. */
  predicate IsBlank(c: char) {
    c == ' ' || c == '\t' || c == '\n' || c == '\r' || c == 0 as char || c == 11 as char
  }

  /** The `required` rule: the string is not empty once trimmed. */
  predicate Required(s: string) {
    exists i :: 0 <= i < |s| && !IsBlank(s[i])
  }

  // ---------------------------------------------------------------------
  // Attachments

  /** The attachment paths that exist, in their original order. */
  function FilterExisting(paths: seq<string>, onDisk: string -> bool): seq<string>
    decreases |paths|
  {
    if paths == [] then []
    else FilterExisting(paths[..|paths| - 1], onDisk)
         + (if onDisk(paths[|paths| - 1]) then [paths[|paths| - 1]] else [])
  }

  lemma {:induction false} FilterExistingMembership(paths: seq<string>, onDisk: string -> bool, p: string)
    ensures p in FilterExisting(paths, onDisk) <==> p in paths && onDisk(p)
    decreases |paths|
  {
    if paths != [] {
      var init := paths[..|paths| - 1];
      FilterExistingMembership(init, onDisk, p);
      assert paths == init + [paths[|paths| - 1]];
    }
  }

  lemma {:induction false} FilterExistingAppend(a: seq<string>, b: seq<string>, onDisk: string -> bool)
    ensures FilterExisting(a + b, onDisk) == FilterExisting(a, onDisk) + FilterExisting(b, onDisk)
    decreases |b|
  {
    if b == [] {
      assert a + b == a;
    } else {
      var init := b[..|b| - 1];
      assert (a + b)[..|a + b| - 1] == a + init;
      FilterExistingAppend(a, init, onDisk);
    }
  }

  /** The attachment loop of the message builder: attach each path for which the file exists. */
  method AttachExisting(paths: seq<string>, onDisk: string -> bool) returns (attached: seq<string>)
    ensures attached == FilterExisting(paths, onDisk)
  {
    attached := [];
    var i := 0;
    while i < |paths|
      invariant i <= |paths|
      invariant attached == FilterExisting(paths[..i], onDisk)
    {
      assert paths[..i + 1][..i] == paths[..i];
      if onDisk(paths[i]) {
        attached := attached + [paths[i]];
      }
      i := i + 1;
    }
    assert paths[..|paths|] == paths;
  }

  // ---------------------------------------------------------------------
  // The retry loop as a specification

  /** Index of the first accepted attempt at or after `from`, or MaxRetries when none of them is accepted. */
  function FirstSuccess(transport: Transport, from: nat): nat
    decreases MaxRetries - from
  {
    if from >= MaxRetries then MaxRetries
    else if transport(from) then from
    else FirstSuccess(transport, from + 1)
  }

  lemma {:induction false} FirstSuccessSpec(transport: Transport, from: nat)
    requires from <= MaxRetries
    ensures var k := FirstSuccess(transport, from);
            && from <= k <= MaxRetries
            && (forall i :: from <= i < k ==> !transport(i))
            && (k < MaxRetries ==> transport(k))
    decreases MaxRetries - from
  {
    if from < MaxRetries && !transport(from) {
      FirstSuccessSpec(transport, from + 1);
    }
  }

  /** The outcome of a send given the address verdict, the counter seen at admission and the transport. */
  function Plan(valid: bool, count: int, transport: Transport): Outcome {
    if !valid then Rejected(InvalidAddress)
    else if count >= RateLimitMax then Rejected(RateLimited)
    else
      var k := FirstSuccess(transport, 0);
      if k < MaxRetries then Delivered(k) else Exhausted
  }

  /** Sleeps taken after `n` failed attempts: one after each failure except the last allowed one. */
  function FailureDelays(n: nat): nat {
    if n < MaxRetries then n else MaxRetries - 1
  }

  /** Effects of the failed attempt with 0-based index `i`. */
  function FailedAttempt(i: nat, message: Message): seq<Effect> {
    [Attempted(message)] + (if i + 1 < MaxRetries then [Slept(RetryDelay)] else [])
  }

  /** Effects of the first `n` attempts, all failed. */
  function Failures(n: nat, message: Message): seq<Effect> {
    if n == 0 then [] else Failures(n - 1, message) + FailedAttempt(n - 1, message)
  }

  /** The event dispatched when `message` is accepted on the given 1-based attempt. */
  function SentEvent(message: Message, attempt: nat): Event {
    match message.body
    case Html(_) => Event("email.sent", message.to, message.subject, None, attempt)
    case Template(view, _) => Event("email.template.sent", message.to, message.subject, Some(view), attempt)
  }

  function Trace(o: Outcome, message: Message): seq<Effect> {
    match o
    case Rejected(_) => []
    case Delivered(k) =>
      Failures(k, message) + [Attempted(message), CounterIncremented, Dispatched(SentEvent(message, k + 1))]
    case Exhausted => Failures(MaxRetries, message)
  }

  function Delays(o: Outcome): nat {
    match o
    case Rejected(_) => 0
    case Delivered(k) => FailureDelays(k)
    case Exhausted => FailureDelays(MaxRetries)
  }

  /** Result of one send: the returned flag, the cache and clock afterwards, and the effects in order. */
  datatype SendResult = SendResult(success: bool, entries: map<string, CacheEntry>, now: int, effects: seq<Effect>)

  /** One send as a state transformer; the limit is read once, at admission. */
  function SendSpec(entries: map<string, CacheEntry>, now: int, valid: bool, message: Message,
                    transport: Transport): SendResult
  {
    var o := Plan(valid, RateLimitCount(entries, now), transport);
    var later := now + RetryDelay * Delays(o);
    SendResult(o.Delivered?, if o.Delivered? then Incremented(entries, later) else entries, later, Trace(o, message))
  }

  /** The trace after one more failed attempt, as the loop appends it. */
  lemma FailedStep(before: seq<Effect>, n: nat, message: Message)
    ensures before + Failures(n, message) + [Attempted(message)]
              + (if n + 1 < MaxRetries then [Slept(RetryDelay)] else [])
            == before + Failures(n + 1, message)
  {
  }

  /** The trace after the accepted attempt, as the loop appends it. */
  lemma DeliveredStep(before: seq<Effect>, n: nat, message: Message)
    ensures before + Failures(n, message) + [Attempted(message)]
              + [CounterIncremented, Dispatched(SentEvent(message, n + 1))]
            == before + Trace(Delivered(n), message)
  {
  }

  /** An admitted send, by where the first accepted attempt falls. */
  lemma SendSpecAdmitted(entries: map<string, CacheEntry>, now: int, message: Message, transport: Transport)
    requires RateLimitCount(entries, now) < RateLimitMax
    ensures var k := FirstSuccess(transport, 0);
            SendSpec(entries, now, true, message, transport)
            == if k < MaxRetries
               then SendResult(true, Incremented(entries, now + RetryDelay * k), now + RetryDelay * k,
                               Trace(Delivered(k), message))
               else SendResult(false, entries, now + RetryDelay * (MaxRetries - 1), Failures(MaxRetries, message))
  {
  }

  // ---------------------------------------------------------------------
  // Counting effects

  datatype Kind = AttemptKind | SleepKind | IncrementKind | DispatchKind

  function KindOf(e: Effect): Kind {
    match e
    case Attempted(_) => AttemptKind
    case Slept(_) => SleepKind
    case CounterIncremented => IncrementKind
    case Dispatched(_) => DispatchKind
  }

  function Kinds(effects: seq<Effect>): seq<Kind> {
    seq(|effects|, i requires 0 <= i < |effects| => KindOf(effects[i]))
  }

  lemma KindsAppend(a: seq<Effect>, b: seq<Effect>)
    ensures Kinds(a + b) == Kinds(a) + Kinds(b)
  {
    assert forall i :: 0 <= i < |a + b| ==> Kinds(a + b)[i] == (Kinds(a) + Kinds(b))[i];
  }

  datatype Tally = Tally(attempts: nat, sleeps: nat, increments: nat, dispatches: nat)

  function Plus(a: Tally, b: Tally): Tally {
    Tally(a.attempts + b.attempts, a.sleeps + b.sleeps, a.increments + b.increments, a.dispatches + b.dispatches)
  }

  /** How many transport attempts, sleeps, counter increments and events an effect sequence holds. */
  function TallyOf(effects: seq<Effect>): Tally {
    var m := multiset(Kinds(effects));
    Tally(m[AttemptKind], m[SleepKind], m[IncrementKind], m[DispatchKind])
  }

  lemma TallyAppend(a: seq<Effect>, b: seq<Effect>)
    ensures TallyOf(a + b) == Plus(TallyOf(a), TallyOf(b))
  {
    KindsAppend(a, b);
  }

  lemma TallyOfConcat(a: seq<Effect>, b: seq<Effect>, ta: Tally, tb: Tally)
    requires TallyOf(a) == ta && TallyOf(b) == tb
    ensures TallyOf(a + b) == Plus(ta, tb)
  {
    TallyAppend(a, b);
  }

  lemma TallySingle(e: Effect)
    ensures TallyOf([e]) == match e
                            case Attempted(_) => Tally(1, 0, 0, 0)
                            case Slept(_) => Tally(0, 1, 0, 0)
                            case CounterIncremented => Tally(0, 0, 1, 0)
                            case Dispatched(_) => Tally(0, 0, 0, 1)
  {
    assert Kinds([e]) == [KindOf(e)];
  }

  lemma {:induction false} FailedAttemptTally(i: nat, message: Message)
    ensures TallyOf(FailedAttempt(i, message)) == Tally(1, if i + 1 < MaxRetries then 1 else 0, 0, 0)
  {
    TallySingle(Attempted(message));
    if i + 1 < MaxRetries {
      TallySingle(Slept(RetryDelay));
      TallyAppend([Attempted(message)], [Slept(RetryDelay)]);
    } else {
      assert FailedAttempt(i, message) == [Attempted(message)];
    }
  }

  lemma {:induction false} FailuresTally(n: nat, message: Message)
    requires n <= MaxRetries
    ensures TallyOf(Failures(n, message)) == Tally(n, FailureDelays(n), 0, 0)
  {
    if n > 0 {
      var before, step := Failures(n - 1, message), FailedAttempt(n - 1, message);
      FailuresTally(n - 1, message);
      FailedAttemptTally(n - 1, message);
      TallyOfConcat(before, step, Tally(n - 1, FailureDelays(n - 1), 0, 0),
                    Tally(1, if n < MaxRetries then 1 else 0, 0, 0));
    }
  }

  /** Transport attempts an outcome takes. */
  function Attempts(o: Outcome): nat {
    match o
    case Rejected(_) => 0
    case Delivered(k) => k + 1
    case Exhausted => MaxRetries
  }

  lemma DeliveryTail(failed: seq<Effect>, message: Message, event: Event)
    ensures TallyOf(failed + [Attempted(message), CounterIncremented, Dispatched(event)])
            == Plus(TallyOf(failed), Tally(1, 0, 1, 1))
  {
    var tail := [Attempted(message), CounterIncremented, Dispatched(event)];
    assert Kinds(tail) == [AttemptKind, IncrementKind, DispatchKind];
    TallyAppend(failed, tail);
  }

  lemma {:induction false} DeliveredTally(k: nat, message: Message)
    requires k < MaxRetries
    ensures TallyOf(Trace(Delivered(k), message)) == Tally(k + 1, k, 1, 1)
  {
    FailuresTally(k, message);
    DeliveryTail(Failures(k, message), message, SentEvent(message, k + 1));
  }

  /** Each trace holds one attempt per try, one sleep per delay, and an increment and an event only on delivery. */
  lemma TraceTally(o: Outcome, message: Message)
    requires o.Delivered? ==> o.failures < MaxRetries
    ensures TallyOf(Trace(o, message))
            == Tally(Attempts(o), Delays(o), if o.Delivered? then 1 else 0, if o.Delivered? then 1 else 0)
  {
    match o
    case Rejected(_) =>
      assert Kinds([]) == [];
    case Delivered(k) =>
      DeliveredTally(k, message);
    case Exhausted =>
      FailuresTally(MaxRetries, message);
  }

  // ---------------------------------------------------------------------
  // Properties of one send

  /** An invalid address is refused before the limit check or any attempt; nothing changes. */
  lemma SendRejectsInvalidAddress(entries: map<string, CacheEntry>, now: int, message: Message, transport: Transport)
    ensures SendSpec(entries, now, false, message, transport) == SendResult(false, entries, now, [])
  {
  }

  /** With the counter at the maximum the send is refused with no attempt; nothing changes. */
  lemma SendRejectsAtLimit(entries: map<string, CacheEntry>, now: int, message: Message, transport: Transport)
    requires RateLimitCount(entries, now) >= RateLimitMax
    ensures SendSpec(entries, now, true, message, transport) == SendResult(false, entries, now, [])
  {
  }

  /**
   * k failures followed by an accepted attempt: success, k sleeps of RetryDelay, the counter
   * written once (incremented by one unless the window lapsed meanwhile), and exactly one
   * event, carrying attempt k + 1, as the last effect right after the increment.
   */
  lemma SendSucceedsAfterFailures(entries: map<string, CacheEntry>, now: int, message: Message,
                                  transport: Transport, k: nat)
    requires RateLimitCount(entries, now) < RateLimitMax
    requires k < MaxRetries
    requires forall i :: 0 <= i < k ==> !transport(i)
    requires transport(k)
    ensures var r := SendSpec(entries, now, true, message, transport);
            && r.success
            && r.now == now + RetryDelay * k
            && r.entries == Incremented(entries, r.now)
            && TallyOf(r.effects) == Tally(k + 1, k, 1, 1)
            && r.effects[|r.effects| - 2..] == [CounterIncremented, Dispatched(SentEvent(message, k + 1))]
  {
    FirstSuccessSpec(transport, 0);
    assert FirstSuccess(transport, 0) == k;
    TraceTally(Delivered(k), message);
  }

  /** All attempts fail: failure, MaxRetries attempts, MaxRetries - 1 sleeps, no increment, no event. */
  lemma SendFailsAfterAllAttempts(entries: map<string, CacheEntry>, now: int, message: Message, transport: Transport)
    requires RateLimitCount(entries, now) < RateLimitMax
    requires forall i :: 0 <= i < MaxRetries ==> !transport(i)
    ensures var r := SendSpec(entries, now, true, message, transport);
            && !r.success
            && r.entries == entries
            && r.now == now + RetryDelay * (MaxRetries - 1)
            && TallyOf(r.effects) == Tally(MaxRetries, MaxRetries - 1, 0, 0)
  {
    FirstSuccessSpec(transport, 0);
    TraceTally(Exhausted, message);
  }

  /**
   * Any send: it succeeds exactly when the address is valid, the counter is below the maximum
   * and one of the first MaxRetries attempts is accepted; it makes at most MaxRetries attempts,
   * and it increments the counter and dispatches an event once on success and never otherwise.
   */
  lemma SendBounded(entries: map<string, CacheEntry>, now: int, valid: bool, message: Message, transport: Transport)
    ensures var r := SendSpec(entries, now, valid, message, transport);
            && (r.success <==> valid && RateLimitCount(entries, now) < RateLimitMax
                               && exists i :: 0 <= i < MaxRetries && transport(i))
            && TallyOf(r.effects).attempts <= MaxRetries
            && TallyOf(r.effects).increments == TallyOf(r.effects).dispatches == (if r.success then 1 else 0)
            && (!r.success ==> r.entries == entries)
  {
    FirstSuccessSpec(transport, 0);
    var o := Plan(valid, RateLimitCount(entries, now), transport);
    TraceTally(o, message);
  }

  /** Reading the counter later sees either the same value or, once it expired, 0. */
  lemma CountLater(entries: map<string, CacheEntry>, now: int, later: int)
    requires now <= later
    ensures RateLimitCount(entries, later) == RateLimitCount(entries, now) || RateLimitCount(entries, later) == 0
  {
  }

  /**
   * The counter never exceeds the maximum after a successful send, because the increment only
   * follows a passed `count < max` check; so a send preserves WithinLimit, and the expiry stays
   * within one window of the clock.
   */
  lemma SendKeepsLimit(entries: map<string, CacheEntry>, now: int, valid: bool, message: Message, transport: Transport)
    ensures var r := SendSpec(entries, now, valid, message, transport);
            && (r.success ==> WithinLimit(r.entries))
            && (WithinLimit(entries) ==> WithinLimit(r.entries))
            && r.now >= now
            && (TtlBounded(entries, now) ==> TtlBounded(r.entries, r.now))
  {
    var r := SendSpec(entries, now, valid, message, transport);
    if r.success {
      CountLater(entries, now, r.now);
    }
  }

  /** Two failed attempts, then an accepted one: success on attempt 3, ten seconds of delay, one increment. */
  lemma TwoFailuresThenSuccess(entries: map<string, CacheEntry>, now: int, message: Message)
    requires RateLimitCount(entries, now) < RateLimitMax
    ensures var r := SendSpec(entries, now, true, message, (i: nat) => i == 2);
            && r.success
            && r.now == now + 10
            && r.entries == Incremented(entries, now + 10)
            && TallyOf(r.effects) == Tally(3, 2, 1, 1)
            && r.effects[|r.effects| - 1] == Dispatched(SentEvent(message, 3))
  {
    SendSucceedsAfterFailures(entries, now, message, (i: nat) => i == 2, 2);
  }

  /**
   * The send that lifts the counter to the maximum closes the window: whichever attempt is
   * accepted, if the counter it increments (read at that attempt's time) stands at
   * RateLimitMax - 1, any send less than one window later is refused without an attempt.
   */
  lemma LastAdmittedSendClosesWindow(entries: map<string, CacheEntry>, now: int, first: Message, t1: Transport,
                                     valid: bool, second: Message, t2: Transport, wait: nat)
    requires FirstSuccess(t1, 0) < MaxRetries
    requires RateLimitCount(entries, now + RetryDelay * FirstSuccess(t1, 0)) == RateLimitMax - 1
    requires wait < RateLimitExpiration
    ensures var r1 := SendSpec(entries, now, true, first, t1);
            && r1.success
            && r1.now == now + RetryDelay * FirstSuccess(t1, 0)
            && RateLimitCount(r1.entries, r1.now + wait) == RateLimitMax
            && SendSpec(r1.entries, r1.now + wait, valid, second, t2) == SendResult(false, r1.entries, r1.now + wait, [])
  {
    CountLater(entries, now, now + RetryDelay * FirstSuccess(t1, 0));
    SendSpecAdmitted(entries, now, first, t1);
  }

  // ---------------------------------------------------------------------
  // The counter over several increments and several sends

  /** One increment: the visible count plus one (1 if the window had lapsed), expiring a full window from now. */
  lemma IncrementRestartsWindow(entries: map<string, CacheEntry>, now: int)
    ensures var e := Incremented(entries, now)[RateLimitKey];
            && e.expiresAt == now + RateLimitExpiration
            && e.value == (if RateLimitKey in entries && now < entries[RateLimitKey].expiresAt
                           then entries[RateLimitKey].value + 1 else 1)
            && RateLimitCount(Incremented(entries, now), now) == RateLimitCount(entries, now) + 1
  {
  }

  /** Increments at the given instants, in order. */
  function IncrementAll(entries: map<string, CacheEntry>, times: seq<int>): map<string, CacheEntry>
    decreases |times|
  {
    if times == [] then entries else IncrementAll(Incremented(entries, times[0]), times[1..])
  }

  /** Each increment comes less than one window after the previous one. */
  predicate Chained(times: seq<int>) {
    forall i :: 0 < i < |times| ==> times[i] < times[i - 1] + RateLimitExpiration
  }

  /**
   * Increments each less than a window after the previous one accumulate: n of them add n,
   * however long they span in total, because every write restarts the window.
   */
  lemma {:induction false} ChainedIncrementsAccumulate(entries: map<string, CacheEntry>, times: seq<int>)
    requires |times| > 0 && Chained(times)
    ensures RateLimitKey in IncrementAll(entries, times)
    ensures IncrementAll(entries, times)[RateLimitKey]
            == CacheEntry(RateLimitCount(entries, times[0]) + |times|, times[|times| - 1] + RateLimitExpiration)
    decreases |times|
  {
    var next := Incremented(entries, times[0]);
    if |times| > 1 {
      assert times[1] < times[0] + RateLimitExpiration;
      assert RateLimitCount(next, times[1]) == RateLimitCount(entries, times[0]) + 1;
      assert Chained(times[1..]) by {
        forall i | 0 < i < |times[1..]| ensures times[1..][i] < times[1..][i - 1] + RateLimitExpiration {
          assert times[1..][i] == times[i + 1] && times[1..][i - 1] == times[i];
        }
      }
      ChainedIncrementsAccumulate(next, times[1..]);
    }
  }

  /** One call of the service: the address verdict, the message, the transport, and the idle time before it. */
  datatype Request = Request(valid: bool, message: Message, transport: Transport, idle: nat)

  /** Cache and clock after a run of sends, with the number of messages delivered. */
  datatype History = History(entries: map<string, CacheEntry>, now: int, delivered: nat)

  /** Sequential sends, each after its idle time. */
  function RunSends(entries: map<string, CacheEntry>, now: int, requests: seq<Request>): History
    decreases |requests|
  {
    if requests == [] then History(entries, now, 0)
    else
      var q := requests[0];
      var r := SendSpec(entries, now + q.idle, q.valid, q.message, q.transport);
      var rest := RunSends(r.entries, r.now, requests[1..]);
      History(rest.entries, rest.now, rest.delivered + (if r.success then 1 else 0))
  }

  /**
   * Under sequential sends the stored counter stays within the maximum and its expiry within
   * one window of the clock, and the clock only moves forward.
   */
  lemma {:induction false} SequentialSendsKeepLimit(entries: map<string, CacheEntry>, now: int, requests: seq<Request>)
    requires WithinLimit(entries)
    requires TtlBounded(entries, now)
    ensures var h := RunSends(entries, now, requests);
            && WithinLimit(h.entries)
            && TtlBounded(h.entries, h.now)
            && h.now >= now
    decreases |requests|
  {
    if requests != [] {
      var q := requests[0];
      var r := SendSpec(entries, now + q.idle, q.valid, q.message, q.transport);
      assert TtlBounded(entries, now + q.idle);
      SendKeepsLimit(entries, now + q.idle, q.valid, q.message, q.transport);
      SequentialSendsKeepLimit(r.entries, r.now, requests[1..]);
    }
  }

  /** A run of sends never moves the clock back. */
  lemma {:induction false} ClockMonotone(entries: map<string, CacheEntry>, now: int, requests: seq<Request>)
    ensures RunSends(entries, now, requests).now >= now
    decreases |requests|
  {
    if requests != [] {
      var q := requests[0];
      var r := SendSpec(entries, now + q.idle, q.valid, q.message, q.transport);
      ClockMonotone(r.entries, r.now, requests[1..]);
    }
  }

  /**
   * One send while a live counter entry exists that lasts at least until `until`, which is
   * within one window of the send's start: if the send ends before `until`, the entry is
   * still live and lasts until `until`, and it has grown by one exactly when the send delivered.
   */
  lemma SendInWindow(entries: map<string, CacheEntry>, now: int, valid: bool, message: Message,
                     transport: Transport, until: int)
    requires RateLimitKey in entries && entries[RateLimitKey].expiresAt >= until
    requires until <= now + RateLimitExpiration
    ensures var r := SendSpec(entries, now, valid, message, transport);
            && r.now >= now
            && (r.now < until ==>
                  && RateLimitKey in r.entries
                  && r.entries[RateLimitKey].expiresAt >= until
                  && r.entries[RateLimitKey].value
                     == entries[RateLimitKey].value + (if r.success then 1 else 0))
  {
  }

  /**
   * The window bounds deliveries: while the counter entry present at the start stays live,
   * every delivered message adds one to it, so a run that ends before that entry would have
   * expired delivers at most RateLimitMax minus the starting count.
   */
  lemma {:induction false} DeliveriesWithinWindow(entries: map<string, CacheEntry>, now: int,
                                                 requests: seq<Request>, until: int)
    requires RateLimitKey in entries && entries[RateLimitKey].expiresAt >= until
    requires until <= now + RateLimitExpiration
    ensures var h := RunSends(entries, now, requests);
            h.now < until ==>
              && RateLimitKey in h.entries
              && h.entries[RateLimitKey].expiresAt >= until
              && h.entries[RateLimitKey].value == entries[RateLimitKey].value + h.delivered
    decreases |requests|
  {
    if requests != [] {
      var q := requests[0];
      var r := SendSpec(entries, now + q.idle, q.valid, q.message, q.transport);
      SendInWindow(entries, now + q.idle, q.valid, q.message, q.transport, until);
      var h := RunSends(entries, now, requests);
      var rest := RunSends(r.entries, r.now, requests[1..]);
      assert h.now == rest.now;
      ClockMonotone(r.entries, r.now, requests[1..]);
      if h.now < until {
        DeliveriesWithinWindow(r.entries, r.now, requests[1..], until);
      }
    }
  }

  /** Corollary: a run inside the live window of a counter at `count` delivers at most RateLimitMax - count messages. */
  lemma DeliveriesBoundedByLimit(entries: map<string, CacheEntry>, now: int, requests: seq<Request>)
    requires WithinLimit(entries) && TtlBounded(entries, now)
    requires RateLimitKey in entries
    ensures var h := RunSends(entries, now, requests);
            h.now < entries[RateLimitKey].expiresAt ==>
              h.delivered <= RateLimitMax - entries[RateLimitKey].value
  {
    DeliveriesWithinWindow(entries, now, requests, entries[RateLimitKey].expiresAt);
    SequentialSendsKeepLimit(entries, now, requests);
  }

  // ---------------------------------------------------------------------
  // The service object

  class EmailService {
    const cache: Cache
    const clock: Clock
    /** Laravel's `email` validation rule, left abstract. */
    const emailRule: string -> bool
    /** `file_exists` on attachment paths, left abstract. */
    const fileExists: string -> bool
    /** Every side effect of the service so far, in order. */
    ghost var trace: seq<Effect>

    constructor (cache: Cache, clock: Clock, emailRule: string -> bool, fileExists: string -> bool)
      ensures this.cache == cache && this.clock == clock
      ensures this.emailRule == emailRule && this.fileExists == fileExists
      ensures trace == []
    {
      this.cache := cache;
      this.clock := clock;
      this.emailRule := emailRule;
      this.fileExists := fileExists;
      trace := [];
    }

    /** `validateEmail`: the rules `required|email`. */
    predicate ValidateEmail(email: string)
      ensures ValidateEmail(email) ==> |email| > 0 && emailRule(email)
      ensures (forall i :: 0 <= i < |email| ==> IsBlank(email[i])) ==> !ValidateEmail(email)
    {
      Required(email) && emailRule(email)
    }

    /** `checkRateLimit`: admission while the visible counter is below the maximum. */
    function CheckRateLimit(): (admitted: bool)
      reads cache, clock
      ensures admitted <==> (RateLimitKey in cache.entries && clock.now < cache.entries[RateLimitKey].expiresAt
                             ==> cache.entries[RateLimitKey].value < RateLimitMax)
    {
      cache.Get(RateLimitKey, clock.now, 0) < RateLimitMax
    }

    /** `incrementRateLimit`: read the counter (0 if absent), write it back plus one for a full window. */
    method IncrementRateLimit()
      modifies cache
      ensures cache.entries == Incremented(old(cache.entries), clock.now)
    {
      var count := cache.Get(RateLimitKey, clock.now, 0);
      cache.Put(RateLimitKey, count + 1, RateLimitExpiration, clock.now);
    }

    /** The algorithm `sendEmail` and `sendTemplateEmail` share; they differ only in the body. */
    method Send(to: string, subject: string, body: Body, attachments: seq<string>, transport: Transport)
      returns (success: bool)
      modifies this, cache, clock
      ensures var r := SendSpec(old(cache.entries), old(clock.now), ValidateEmail(to),
                                Message(to, subject, body, FilterExisting(attachments, fileExists)), transport);
              && success == r.success
              && cache.entries == r.entries
              && clock.now == r.now
              && trace == old(trace) + r.effects
    {
      if !ValidateEmail(to) {
        return false;
      }
      if !CheckRateLimit() {
        return false;
      }
      ghost var entries0, now0, trace0 := cache.entries, clock.now, trace;
      ghost var message := Message(to, subject, body, FilterExisting(attachments, fileExists));
      var attempt: nat := 0;
      success := false;
      while attempt < MaxRetries && !success
        invariant attempt <= MaxRetries
        invariant success ==> attempt < MaxRetries && FirstSuccess(transport, 0) == attempt
        invariant !success ==> FirstSuccess(transport, 0) == FirstSuccess(transport, attempt)
        invariant !success ==> trace == trace0 + Failures(attempt, message)
        invariant !success ==> clock.now == now0 + RetryDelay * FailureDelays(attempt)
        invariant !success ==> cache.entries == entries0
        invariant success ==> trace == trace0 + Trace(Delivered(attempt), message)
        invariant success ==> clock.now == now0 + RetryDelay * attempt
        invariant success ==> cache.entries == Incremented(entries0, clock.now)
        decreases MaxRetries - attempt, if success then 0 else 1
      {
        var attached := AttachExisting(attachments, fileExists);
        trace := trace + [Attempted(Message(to, subject, body, attached))];
        if transport(attempt) {
          IncrementRateLimit();
          trace := trace + [CounterIncremented, Dispatched(SentEvent(message, attempt + 1))];
          DeliveredStep(trace0, attempt, message);
          success := true;
        } else {
          FailedStep(trace0, attempt, message);
          attempt := attempt + 1;
          if attempt < MaxRetries {
            clock.Advance(RetryDelay);
            trace := trace + [Slept(RetryDelay)];
          }
        }
      }
      SendSpecAdmitted(entries0, now0, message, transport);
    }

    /** `sendEmail`: a raw HTML message. */
    method SendEmail(to: string, subject: string, content: string, attachments: seq<string>, transport: Transport)
      returns (success: bool)
      modifies this, cache, clock
      ensures var r := SendSpec(old(cache.entries), old(clock.now), ValidateEmail(to),
                                Message(to, subject, Html(content), FilterExisting(attachments, fileExists)), transport);
              && success == r.success
              && cache.entries == r.entries
              && clock.now == r.now
              && trace == old(trace) + r.effects
    {
      success := Send(to, subject, Html(content), attachments, transport);
    }

    /** `sendTemplateEmail`: a message rendered from a template and its data. */
    method SendTemplateEmail(to: string, subject: string, view: string, data: map<string, string>,
                             attachments: seq<string>, transport: Transport)
      returns (success: bool)
      modifies this, cache, clock
      ensures var r := SendSpec(old(cache.entries), old(clock.now), ValidateEmail(to),
                                Message(to, subject, Template(view, data), FilterExisting(attachments, fileExists)),
                                transport);
              && success == r.success
              && cache.entries == r.entries
              && clock.now == r.now
              && trace == old(trace) + r.effects
    {
      success := Send(to, subject, Template(view, data), attachments, transport);
    }

    /**
     * `getStats`: a read of the counter. `reset_in` is the remaining lifetime when a live,
     * non-zero counter is stored (PHP truthiness of the cached value), and 0 otherwise.
     */
    function GetStats(): (s: Stats)
      reads cache, clock
      ensures s.max == RateLimitMax
      ensures s.current == RateLimitCount(cache.entries, clock.now)
      ensures s.resetIn >= 0
      ensures s.resetIn > 0 <==> s.current != 0
      ensures RateLimitKey !in cache.entries ==> s == Stats(0, RateLimitMax, 0)
      ensures s.resetIn == (if s.current != 0 then cache.entries[RateLimitKey].expiresAt - clock.now else 0)
      ensures TtlBounded(cache.entries, clock.now) ==> s.resetIn <= RateLimitExpiration
      ensures WithinLimit(cache.entries) ==> s.current <= s.max
    {
      var present := Lookup(cache.entries, RateLimitKey, clock.now);
      Stats(cache.Get(RateLimitKey, clock.now, 0), RateLimitMax,
            if present.Some? && present.value != 0 then cache.Ttl(RateLimitKey, clock.now) else 0)
    }
  }
}
