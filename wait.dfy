/** `Wait.for` (lib/wait.rb): run a block until it yields a truthy result,
    within an attempt budget, rescuing the configured exceptions and sleeping
    for a doubling delay between attempts.

    The block is abstracted as a total function: `block(t, a)` is what
    `Timeout.timeout(t) { yield a }` produces for attempt number `a`.
    Sleeping is recorded in a trace of events instead of being performed. */
module Wait {
  import Decimal

  datatype Option<T> = None | Some(value: T) {
    function GetOr(default: T): T
    {
      match this
      case Some(v) => v
      case None => default
    }
  }

  /** Exception classes. The hierarchy is not modelled: a class is rescued
      only when it is named, or when everything (`Exception`) is rescued. */
  datatype ErrorClass =
    | WaitError            // Wait::Error
    | ArgumentError
    | TimeoutError         // Timeout::Error, raised when an attempt runs out of time
    | Other(name: string)  // any class of the caller's

  datatype Exception = Exception(cls: ErrorClass, message: string)

  /** What one guarded call of the block comes to. */
  datatype Outcome<V> =
    | Value(v: V, truthy: bool)  // the block returned; `truthy` is false for nil and false
    | Threw(e: Exception)        // the block raised `e`
    | TimedOut                   // the attempt exceeded the timeout

  /** `block(t, a)`: the block run with attempt number `a` under a timeout of `t`. */
  type Block<V> = (nat, nat) -> Outcome<V>

  /** The `:rescue` option: `Exception` (rescue everything) or a list of classes. */
  datatype Rescue = All | Only(classes: set<ErrorClass>)

  /** An `:attempts` value: an integer (a Fixnum), or anything else such as 1.1. */
  datatype Count = Int(n: int) | NotInt

  /** The options hash; `None` stands for an absent, nil or false entry,
      which `||` replaces by the default. */
  datatype Options = Options(
    attempts: Option<Count>,
    timeout: Option<nat>,
    delay: Option<nat>,
    rescue: Option<Rescue>,
    silent: Option<bool>)

  const NoOptions := Options(None, None, None, None, None)

  datatype Config = Config(attempts: Count, timeout: nat, delay: nat, rescue: Rescue, silent: bool) {
    /** The guard against an accidental infinite loop. */
    predicate Valid()
    {
      attempts.Int? && attempts.n > 0
    }

    function Budget(): (b: nat)
      requires Valid()
      ensures b >= 1
    {
      attempts.n
    }
  }

  /** Option defaulting: attempts 5, timeout 15, delay 1, rescue Exception, silent false. */
  function Resolve(o: Options): Config
  {
    Config(
      o.attempts.GetOr(Int(5)),
      o.timeout.GetOr(15),
      o.delay.GetOr(1),
      o.rescue.GetOr(All),
      o.silent.GetOr(false))
  }

  const InvalidAttempts := Exception(ArgumentError, "invalid number of attempts")

  /** Timeout::Error with Ruby's default message. */
  const Expired := Exception(TimeoutError, "execution expired")

  /** The fresh Wait::Error raised once the last permitted attempt has failed. */
  function Exhausted(attempt: nat, attempts: nat): Exception
  {
    Exception(WaitError, Decimal.Show(attempt) + "/" + Decimal.Show(attempts) + " attempts failed")
  }

  /** `rescue Wait::Error, *exceptions`: Wait::Error is always rescued. */
  predicate Rescues(rescue: Rescue, cls: ErrorClass)
  {
    cls == WaitError || rescue.All? || cls in rescue.classes
  }

  /** How one attempt is settled: its value accepted, the (rescued) class of
      the failure, or the exception that leaves `Wait.for`. */
  datatype Verdict<V> = Accept(v: V) | Rescued(cls: ErrorClass) | Propagate(e: Exception)

  /** A falsy value becomes a Wait::Error, which is then rescued; a raised
      exception or a timeout is rescued only when the rescue list covers it. */
  function Judge<V>(rescue: Rescue, o: Outcome<V>): (j: Verdict<V>)
    ensures j.Accept? <==> o.Value? && o.truthy
    ensures o.Value? && !o.truthy ==> j.Rescued?
    ensures rescue == All ==> !j.Propagate?
    ensures j.Propagate? <==> (o.Threw? && !Rescues(rescue, o.e.cls)) || (o.TimedOut? && !Rescues(rescue, TimeoutError))
    ensures j.Propagate? ==> j.e == (if o.Threw? then o.e else Expired)
    ensures j.Accept? ==> j.v == o.v
    ensures j.Rescued? ==> j.cls == (if o.Value? then WaitError else if o.Threw? then o.e.cls else TimeoutError)
  {
    match o
    case Value(v, truthy) => if truthy then Accept(v) else Rescued(WaitError)
    case Threw(e) => if Rescues(rescue, e.cls) then Rescued(e.cls) else Propagate(e)
    case TimedOut => if Rescues(rescue, TimeoutError) then Rescued(TimeoutError) else Propagate(Expired)
  }

  function Judged<V>(c: Config, block: Block<V>, attempt: nat): Verdict<V>
  {
    Judge(c.rescue, block(c.timeout, attempt))
  }

  datatype Result<V> = Returned(v: V) | Raised(e: Exception)

  /** Observable steps: a call of the block with its attempt number, a sleep. */
  datatype Event = Called(attempt: nat) | Slept(delay: nat)

  /** What one call of `Wait.for` does: its result and its trace. */
  datatype Session<V> = Session(result: Result<V>, trace: seq<Event>)

  function Then<V>(prefix: seq<Event>, s: Session<V>): Session<V>
  {
    Session(s.result, prefix + s.trace)
  }

  function Pow2(n: nat): (p: nat)
    ensures p >= 1
  {
    if n == 0 then 1 else 2 * Pow2(n - 1)
  }

  /** The begin/rescue/retry block entered with the counter about to become
      `attempt` and the delay variable holding `delay`; each `retry` is a
      recursive call. */
  function Retrying<V>(c: Config, block: Block<V>, attempt: nat, delay: nat): Session<V>
    requires c.Valid() && 1 <= attempt <= c.Budget()
    decreases c.Budget() - attempt
  {
    match Judged(c, block, attempt)
    case Accept(v) => Session(Returned(v), [Called(attempt)])
    case Propagate(e) => Session(Raised(e), [Called(attempt)])
    case Rescued(_) =>
      if attempt == c.Budget() then
        Session(Raised(Exhausted(attempt, c.Budget())), [Called(attempt)])
      else
        Then([Called(attempt), Slept(delay)], Retrying(c, block, attempt + 1, delay * 2))
  }

  /** `Wait.for(options) { |attempt| ... }` as a function of the options and the block. */
  function Waited<V>(options: Options, block: Block<V>): Session<V>
  {
    var c := Resolve(options);
    if !c.Valid() then Session(Raised(InvalidAttempts), [])
    else Retrying(c, block, 1, c.delay)
  }

  /** `Wait.for`: default the options, check the budget, then loop over the
      attempt counter and the delay until an attempt settles the call. */
  method For<V>(options: Options, block: Block<V>) returns (result: Result<V>, trace: seq<Event>)
    ensures Session(result, trace) == Waited(options, block)
  {
    var c := Resolve(options);
    if !c.Valid() {
      return Raised(InvalidAttempts), [];
    }
    var attempt := 0;
    var delay := c.delay;
    trace := [];
    ghost var goal := Retrying(c, block, 1, c.delay);
    while true
      invariant 0 <= attempt < c.Budget()
      invariant goal == Then(trace, Retrying(c, block, attempt + 1, delay))
      decreases c.Budget() - attempt
    {
      attempt := attempt + 1;
      ghost var before := trace;
      ghost var now := Retrying(c, block, attempt, delay);
      trace := trace + [Called(attempt)];
      var verdict := Judge(c.rescue, block(c.timeout, attempt));
      if verdict.Accept? {
        return Returned(verdict.v), trace;
      } else if verdict.Propagate? {
        return Raised(verdict.e), trace;
      } else if attempt == c.Budget() {
        return Raised(Exhausted(attempt, c.Budget())), trace;
      }
      ghost var rest := Retrying(c, block, attempt + 1, delay * 2);
      assert now == Then([Called(attempt), Slept(delay)], rest);
      assert before + ([Called(attempt), Slept(delay)] + rest.trace)
          == (trace + [Slept(delay)]) + rest.trace;
      trace := trace + [Slept(delay)];
      delay := delay * 2;
    }
  }
}
