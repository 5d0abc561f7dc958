/** What `Wait.for` promises, proved about the model in module Wait.

    `Explains` is a reference description written without recursion: a
    session calls the block with 1, 2, ..., k, sleeps delay·2^(i-1) after
    call i < k, every attempt before k was rescued, and attempt k settles
    the result. `WaitedCharacterized` shows that this description holds of
    `Waited` and of nothing else. */
module WaitProperties {
  import opened Wait
  import Decimal

  /** Event `i` of a session whose first call is `first` and whose first sleep is `delay`. */
  function ScheduleEvent(first: nat, delay: nat, i: nat): Event
  {
    if i % 2 == 0 then Called(first + i / 2) else Slept(delay * Pow2(i / 2))
  }

  predicate IsSchedule(t: seq<Event>, first: nat, delay: nat)
  {
    |t| % 2 == 1 && forall i :: 0 <= i < |t| ==> t[i] == ScheduleEvent(first, delay, i)
  }

  /** How the attempt that ends the session settles its result. */
  ghost predicate Settles<V>(c: Config, last: nat, j: Verdict<V>, r: Result<V>)
    requires c.Valid()
  {
    match j
    case Accept(v) => r == Returned(v)
    case Propagate(e) => r == Raised(e)
    case Rescued(_) => last == c.Budget() && r == Raised(Exhausted(last, last))
  }

  /** `s` is a session that starts at attempt `first` with the delay at `delay`. */
  ghost predicate Explains<V>(c: Config, block: Block<V>, first: nat, delay: nat, s: Session<V>)
    requires c.Valid()
  {
    var last := first + |s.trace| / 2;
    && IsSchedule(s.trace, first, delay)
    && 1 <= first <= last <= c.Budget()
    && (forall a :: first <= a < last ==> Judged(c, block, a).Rescued?)
    && Settles(c, last, Judged(c, block, last), s.result)
  }

  lemma {:induction false} Pow2Succ(n: nat, d: nat)
    ensures d * 2 * Pow2(n) == d * Pow2(n + 1)
  {
    assert Pow2(n + 1) == 2 * Pow2(n);
  }

  lemma {:induction false} Pow2Monotone(m: nat, n: nat)
    requires m <= n
    ensures Pow2(m) <= Pow2(n)
  {
    if m < n {
      Pow2Monotone(m, n - 1);
    }
  }

  /** A call and a sleep in front of the schedule from the next attempt. */
  lemma ScheduleCons(t: seq<Event>, first: nat, delay: nat)
    requires IsSchedule(t, first + 1, delay * 2)
    ensures IsSchedule([Called(first), Slept(delay)] + t, first, delay)
  {
    var s := [Called(first), Slept(delay)] + t;
    forall i | 0 <= i < |s|
      ensures s[i] == ScheduleEvent(first, delay, i)
    {
      if i >= 2 {
        assert s[i] == t[i - 2];
        Pow2Succ(i / 2 - 1, delay);
      }
    }
  }

  lemma {:induction false} RetryingExplained<V>(c: Config, block: Block<V>, first: nat, delay: nat)
    requires c.Valid() && 1 <= first <= c.Budget()
    ensures Explains(c, block, first, delay, Retrying(c, block, first, delay))
    decreases c.Budget() - first
  {
    if Judged(c, block, first).Rescued? && first < c.Budget() {
      var rest := Retrying(c, block, first + 1, delay * 2);
      RetryingExplained(c, block, first + 1, delay * 2);
      ScheduleCons(rest.trace, first, delay);
      assert Retrying(c, block, first, delay) == Then([Called(first), Slept(delay)], rest);
    }
  }

  /** A session is determined by the reference description. */
  lemma ExplainsUnique<V>(c: Config, block: Block<V>, first: nat, delay: nat, s1: Session<V>, s2: Session<V>)
    requires c.Valid()
    requires Explains(c, block, first, delay, s1) && Explains(c, block, first, delay, s2)
    ensures s1 == s2
  {
    var last1, last2 := first + |s1.trace| / 2, first + |s2.trace| / 2;
    if last1 < last2 {
      assert false;
    } else if last2 < last1 {
      assert false;
    }
    assert |s1.trace| == |s2.trace|;
    assert s1.trace == s2.trace;
  }

  /** `Waited` is exactly the session the reference description allows. */
  lemma WaitedCharacterized<V>(options: Options, block: Block<V>, s: Session<V>)
    ensures var c := Resolve(options);
      Waited(options, block) == s <==>
        if c.Valid() then Explains(c, block, 1, c.delay, s)
        else s == Session(Raised(InvalidAttempts), [])
  {
    var c := Resolve(options);
    if c.Valid() {
      RetryingExplained(c, block, 1, c.delay);
      if Explains(c, block, 1, c.delay, s) {
        ExplainsUnique(c, block, 1, c.delay, s, Waited(options, block));
      }
    }
  }

  /** The attempt numbers passed to the block, in order. */
  function Calls(t: seq<Event>): seq<nat>
  {
    if t == [] then [] else (if t[0].Called? then [t[0].attempt] else []) + Calls(t[1..])
  }

  /** The delays slept, in order. */
  function Sleeps(t: seq<Event>): seq<nat>
  {
    if t == [] then [] else (if t[0].Slept? then [t[0].delay] else []) + Sleeps(t[1..])
  }

  /** lo, lo + 1, ..., hi - 1 */
  function Range(lo: nat, hi: nat): (r: seq<nat>)
    requires lo <= hi
  {
    seq(hi - lo, i requires 0 <= i < hi - lo => lo + i)
  }

  /** delay, 2·delay, 4·delay, ... (n of them) */
  function Backoff(delay: nat, n: nat): seq<nat>
  {
    seq(n, j requires 0 <= j < n => delay * Pow2(j))
  }

  /** Removing the first call and sleep leaves the schedule from the next attempt. */
  lemma ScheduleTail(t: seq<Event>, first: nat, delay: nat)
    requires IsSchedule(t, first, delay) && |t| > 1
    ensures t[0] == Called(first) && t[1] == Slept(delay)
    ensures IsSchedule(t[2..], first + 1, delay * 2)
  {
    var rest := t[2..];
    assert t[1] == ScheduleEvent(first, delay, 1);
    forall i | 0 <= i < |rest|
      ensures rest[i] == ScheduleEvent(first + 1, delay * 2, i)
    {
      assert rest[i] == t[i + 2];
      Pow2Succ(i / 2, delay);
    }
  }

  lemma {:induction false} ScheduleCalls(t: seq<Event>, first: nat, delay: nat)
    requires IsSchedule(t, first, delay)
    ensures Calls(t) == Range(first, first + |t| / 2 + 1)
    decreases |t|
  {
    if |t| == 1 {
      assert t[1..] == [];
    } else {
      ScheduleTail(t, first, delay);
      ScheduleCalls(t[2..], first + 1, delay * 2);
      assert t[1..][1..] == t[2..];
      assert Calls(t) == [first] + Calls(t[2..]);
    }
  }

  lemma {:induction false} ScheduleSleeps(t: seq<Event>, first: nat, delay: nat)
    requires IsSchedule(t, first, delay)
    ensures Sleeps(t) == Backoff(delay, |t| / 2)
    decreases |t|
  {
    if |t| == 1 {
      assert t[1..] == [];
    } else {
      var n := |t| / 2;
      ScheduleTail(t, first, delay);
      ScheduleSleeps(t[2..], first + 1, delay * 2);
      assert t[1..][1..] == t[2..];
      assert Sleeps(t) == [delay] + Backoff(delay * 2, n - 1);
      forall j | 0 < j < n
        ensures Backoff(delay, n)[j] == Backoff(delay * 2, n - 1)[j - 1]
      {
        Pow2Succ(j - 1, delay);
      }
    }
  }

  lemma ScheduleProjections(t: seq<Event>, first: nat, delay: nat)
    requires IsSchedule(t, first, delay)
    ensures Calls(t) == Range(first, first + |t| / 2 + 1)
    ensures Sleeps(t) == Backoff(delay, |t| / 2)
  {
    ScheduleCalls(t, first, delay);
    ScheduleSleeps(t, first, delay);
  }

  /** The sleeps double from one to the next, so they never decrease. */
  lemma BackoffDoubles(delay: nat, n: nat)
    ensures forall j :: 0 <= j < n - 1 ==> Backoff(delay, n)[j + 1] == 2 * Backoff(delay, n)[j]
    ensures forall i, j :: 0 <= i <= j < n ==> Backoff(delay, n)[i] <= Backoff(delay, n)[j]
  {
    forall j | 0 <= j < n - 1
      ensures Backoff(delay, n)[j + 1] == 2 * Backoff(delay, n)[j]
    {
      Pow2Succ(j, delay);
    }
    forall i, j | 0 <= i <= j < n
      ensures Backoff(delay, n)[i] <= Backoff(delay, n)[j]
    {
      Pow2Monotone(i, j);
      MulMonotone(delay, Pow2(i), Pow2(j));
    }
  }

  lemma MulMonotone(d: nat, x: nat, y: nat)
    requires x <= y
    ensures d * x <= d * y
  {
  }

  /** With a valid budget the block is called with 1, 2, ..., k for some
      1 <= k <= attempts, never more, and the sleeps after calls 1 .. k-1
      are delay, 2·delay, 4·delay, ... */
  lemma CallsNumberedAndBounded<V>(options: Options, block: Block<V>)
    requires Resolve(options).Valid()
    ensures var s := Waited(options, block);
      var k := |Calls(s.trace)|;
      && 1 <= k <= Resolve(options).Budget()
      && Calls(s.trace) == Range(1, k + 1)
      && Sleeps(s.trace) == Backoff(Resolve(options).delay, k - 1)
  {
    var c := Resolve(options);
    RetryingExplained(c, block, 1, c.delay);
    ScheduleProjections(Waited(options, block).trace, 1, c.delay);
  }

  /** An attempt budget that is not a positive integer raises ArgumentError
      and the block is never called; a valid one calls the block. */
  lemma InvalidBudgetRejected<V>(options: Options, block: Block<V>)
    ensures !Resolve(options).Valid() ==> Waited(options, block) == Session(Raised(InvalidAttempts), [])
    ensures Calls(Waited(options, block).trace) == [] <==> !Resolve(options).Valid()
  {
    if Resolve(options).Valid() {
      CallsNumberedAndBounded(options, block);
    }
  }

  /** Which `:attempts` values pass the guard: absent (5), or an integer above zero. */
  lemma BudgetGuard(options: Options)
    ensures Resolve(options).Valid() <==>
      options.attempts.None? || (options.attempts.value.Int? && options.attempts.value.n > 0)
    ensures options.attempts.None? ==> Resolve(options).Budget() == 5
  {
  }

  /** If the session ends at attempt `last`, every earlier attempt was
      rescued; so the first attempt that is not rescued ends it. */
  lemma {:induction false} EndsAtFirstDecision<V>(c: Config, block: Block<V>, k: nat)
    requires c.Valid() && 1 <= k <= c.Budget()
    requires forall a :: 1 <= a < k ==> Judged(c, block, a).Rescued?
    requires !Judged(c, block, k).Rescued? || k == c.Budget()
    ensures var s := Retrying(c, block, 1, c.delay);
      && |s.trace| == 2 * k - 1
      && IsSchedule(s.trace, 1, c.delay)
      && s.trace[2 * k - 2] == Called(k)
      && Settles(c, k, Judged(c, block, k), s.result)
  {
    var s := Retrying(c, block, 1, c.delay);
    RetryingExplained(c, block, 1, c.delay);
    var last := 1 + |s.trace| / 2;
    if last < k {
      assert false;
    } else if k < last {
      assert false;
    }
  }

  /** The session ending at attempt k: calls 1..k, sleeps only between them. */
  lemma SessionUpTo<V>(options: Options, block: Block<V>, k: nat)
    requires var c := Resolve(options); c.Valid() && 1 <= k <= c.Budget()
    requires |Waited(options, block).trace| == 2 * k - 1
    ensures IsSchedule(Waited(options, block).trace, 1, Resolve(options).delay)
    ensures Waited(options, block).trace[2 * k - 2] == Called(k)
    ensures Calls(Waited(options, block).trace) == Range(1, k + 1)
    ensures Sleeps(Waited(options, block).trace) == Backoff(Resolve(options).delay, k - 1)
  {
    var c := Resolve(options);
    RetryingExplained(c, block, 1, c.delay);
    ScheduleProjections(Waited(options, block).trace, 1, c.delay);
  }

  /** The first truthy value, at attempt k within the budget, is returned at
      once: exactly k calls and k - 1 sleeps. */
  lemma FirstTruthyReturned<V>(options: Options, block: Block<V>, k: nat, v: V)
    requires var c := Resolve(options); c.Valid() && 1 <= k <= c.Budget()
    requires forall a :: 1 <= a < k ==> Judged(Resolve(options), block, a).Rescued?
    requires block(Resolve(options).timeout, k) == Value(v, true)
    ensures Waited(options, block).result == Returned(v)
    ensures IsSchedule(Waited(options, block).trace, 1, Resolve(options).delay)
    ensures |Waited(options, block).trace| == 2 * k - 1 && Waited(options, block).trace[2 * k - 2] == Called(k)
    ensures Calls(Waited(options, block).trace) == Range(1, k + 1)
    ensures Sleeps(Waited(options, block).trace) == Backoff(Resolve(options).delay, k - 1)
  {
    EndsAtFirstDecision(Resolve(options), block, k);
    SessionUpTo(options, block, k);
  }

  /** An exception that is neither Wait::Error nor in the rescue list, or a
      timeout the rescue list does not cover, leaves `Wait.for` unchanged at
      the attempt that raised it, with no further call and no further sleep. */
  lemma UnrescuedPropagates<V>(options: Options, block: Block<V>, k: nat)
    requires var c := Resolve(options); c.Valid() && 1 <= k <= c.Budget()
    requires forall a :: 1 <= a < k ==> Judged(Resolve(options), block, a).Rescued?
    requires var o := block(Resolve(options).timeout, k);
      (o.Threw? && !Rescues(Resolve(options).rescue, o.e.cls)) ||
      (o.TimedOut? && !Rescues(Resolve(options).rescue, TimeoutError))
    ensures var o := block(Resolve(options).timeout, k);
      Waited(options, block).result == Raised(if o.Threw? then o.e else Expired)
    ensures IsSchedule(Waited(options, block).trace, 1, Resolve(options).delay)
    ensures |Waited(options, block).trace| == 2 * k - 1 && Waited(options, block).trace[2 * k - 2] == Called(k)
    ensures Calls(Waited(options, block).trace) == Range(1, k + 1)
    ensures Sleeps(Waited(options, block).trace) == Backoff(Resolve(options).delay, k - 1)
  {
    EndsAtFirstDecision(Resolve(options), block, k);
    SessionUpTo(options, block, k);
  }

  /** With `:rescue => []` a timeout on the first attempt propagates: it is
      not retried. */
  lemma TimeoutNotRetriedWithEmptyRescue<V>(options: Options, block: Block<V>)
    requires Resolve(options).Valid() && Resolve(options).rescue == Only({})
    requires block(Resolve(options).timeout, 1) == TimedOut
    ensures Waited(options, block) == Session(Raised(Expired), [Called(1)])
  {
  }

  /** When the last permitted attempt fails with a rescued condition, a fresh
      Wait::Error "n/n attempts failed" replaces the failure, after n calls
      and n - 1 sleeps (none after the last call). */
  lemma ExhaustionRaisesWaitError<V>(options: Options, block: Block<V>)
    requires Resolve(options).Valid()
    requires forall a :: 1 <= a <= Resolve(options).Budget() ==> Judged(Resolve(options), block, a).Rescued?
    ensures var n := Resolve(options).Budget();
      Waited(options, block).result == Raised(Exception(WaitError, Decimal.Show(n) + "/" + Decimal.Show(n) + " attempts failed"))
    ensures IsSchedule(Waited(options, block).trace, 1, Resolve(options).delay)
    ensures var n := Resolve(options).Budget();
      |Waited(options, block).trace| == 2 * n - 1 && Waited(options, block).trace[2 * n - 2] == Called(n)
    ensures Calls(Waited(options, block).trace) == Range(1, Resolve(options).Budget() + 1)
    ensures Sleeps(Waited(options, block).trace) == Backoff(Resolve(options).delay, Resolve(options).Budget() - 1)
  {
    var c := Resolve(options);
    EndsAtFirstDecision(c, block, c.Budget());
    SessionUpTo(options, block, c.Budget());
  }

  /** A block that never yields a truthy value exhausts the budget whatever
      the rescue list says, `[]` included: nil and false are always retried. */
  lemma FalsyAlwaysRetried<V>(options: Options, block: Block<V>)
    requires Resolve(options).Valid()
    requires forall a :: 1 <= a <= Resolve(options).Budget() ==>
      block(Resolve(options).timeout, a).Value? && !block(Resolve(options).timeout, a).truthy
    ensures Waited(options, block).result == Raised(Exhausted(Resolve(options).Budget(), Resolve(options).Budget()))
    ensures |Calls(Waited(options, block).trace)| == Resolve(options).Budget()
  {
    ExhaustionRaisesWaitError(options, block);
  }

  /** Under the default `:rescue` (Exception) no attempt propagates: the
      session ends with a truthy value or with the exhaustion error. */
  lemma DefaultRescuesEverything<V>(options: Options, block: Block<V>)
    requires Resolve(options).Valid() && options.rescue.None?
    ensures Waited(options, block).result.Returned? ||
      Waited(options, block).result == Raised(Exhausted(Resolve(options).Budget(), Resolve(options).Budget()))
  {
    var c := Resolve(options);
    RetryingExplained(c, block, 1, c.delay);
  }

  /** Each option is defaulted on its own: an absent key takes its default
      (attempts 5, timeout 15, delay 1, rescue Exception, silent false)
      whatever the other keys hold, and a given key is kept. */
  lemma DefaultsApply(options: Options)
    ensures Resolve(NoOptions) == Config(Int(5), 15, 1, All, false)
    ensures Resolve(options).attempts == (if options.attempts.Some? then options.attempts.value else Int(5))
    ensures Resolve(options).timeout == (if options.timeout.Some? then options.timeout.value else 15)
    ensures Resolve(options).delay == (if options.delay.Some? then options.delay.value else 1)
    ensures Resolve(options).rescue == (if options.rescue.Some? then options.rescue.value else All)
    ensures Resolve(options).silent == (if options.silent.Some? then options.silent.value else false)
  {
  }

  lemma {:induction false} RetryingIgnoresSilent<V>(c: Config, block: Block<V>, attempt: nat, delay: nat, silent: bool)
    requires c.Valid() && 1 <= attempt <= c.Budget()
    ensures Retrying(c.(silent := silent), block, attempt, delay) == Retrying(c, block, attempt, delay)
    decreases c.Budget() - attempt
  {
    if attempt < c.Budget() {
      RetryingIgnoresSilent(c, block, attempt + 1, delay * 2, silent);
    }
  }

  /** `:silent` only affects output: the session is the same either way. */
  lemma SilentDoesNotSteer<V>(options: Options, block: Block<V>, silent: Option<bool>)
    ensures Waited(options.(silent := silent), block) == Waited(options, block)
  {
    var c := Resolve(options);
    if c.Valid() {
      RetryingIgnoresSilent(c, block, 1, c.delay, Resolve(options.(silent := silent)).silent);
      assert Resolve(options.(silent := silent)) == c.(silent := Resolve(options.(silent := silent)).silent);
    }
  }

  lemma ThreeOfThreeMessage()
    ensures Exhausted(3, 3) == Exception(WaitError, "3/3 attempts failed")
  {
    assert Decimal.DigitChar(3) == '3';
    assert Decimal.Show(3) == ['3'];
    assert ['3'] + "/" + ['3'] + " attempts failed" == "3/3 attempts failed";
  }

  /** The documented example: three attempts of a block that returns nil. */
  lemma ThreeNilAttempts()
    ensures Waited(NoOptions.(attempts := Some(Int(3))), (t: nat, a: nat) => Value(a, false))
      == Session(Raised(Exception(WaitError, "3/3 attempts failed")),
                 [Called(1), Slept(1), Called(2), Slept(2), Called(3)])
  {
    var c := Resolve(NoOptions.(attempts := Some(Int(3))));
    var block: Block<nat> := (t: nat, a: nat) => Value(a, false);
    ThreeOfThreeMessage();
    assert Retrying(c, block, 3, 4) == Session(Raised(Exhausted(3, 3)), [Called(3)]);
    assert Retrying(c, block, 2, 2).trace == [Called(2), Slept(2), Called(3)];
    assert Retrying(c, block, 1, 1).trace == [Called(1), Slept(1), Called(2), Slept(2), Called(3)];
  }

  /** Four attempts with an initial delay of 100 units; only the fourth
      attempt returns a truthy value. */
  lemma FourthAttemptSucceeds()
    ensures Waited(NoOptions.(attempts := Some(Int(4)), delay := Some(100)),
                   (t: nat, a: nat) => Value(a == 4, a == 4))
      == Session(Returned(true),
                 [Called(1), Slept(100), Called(2), Slept(200), Called(3), Slept(400), Called(4)])
  {
  }

  /** Only Foo is rescued: Foo on attempt 1 is retried, Bar on attempt 2 propagates. */
  lemma OnlyNamedClassRescued()
    ensures var foo, bar := Exception(Other("Foo"), ""), Exception(Other("Bar"), "");
      Waited(NoOptions.(attempts := Some(Int(2)), rescue := Some(Only({Other("Foo")}))),
             (t: nat, a: nat) => if a == 1 then Threw(foo) else if a == 2 then Threw(bar) else Value(a, true))
      == Session(Raised(bar), [Called(1), Slept(1), Called(2)])
  {
  }
}
