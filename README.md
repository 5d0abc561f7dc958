# Wait.for — a verified model of a bounded retry loop

`Wait.for` (lib/wait.rb) runs a caller's block until it gives a truthy
result. It passes the block a 1-based attempt number and runs each attempt
under a timeout. A `nil` or `false` result becomes a `Wait::Error`, which is
always rescued. Other exceptions are rescued only when the `:rescue` option
names their class or one of its ancestors (Ruby's `rescue` matches with
`===`); the default, `Exception`, rescues everything. Between
failed attempts it sleeps, and the delay doubles after every failure. When
the last permitted attempt fails, it raises a fresh
`Wait::Error "n/n attempts failed"`. A budget that is not a positive integer
raises `ArgumentError` before the block runs.

The model has three modules:

- `Wait` (wait.dfy) holds the data model. It covers the options hash and its
  defaults (`Resolve`), the rescue test (`Rescues`, `Judge`) and the
  exhaustion error (`Exhausted`). `Retrying` and `Waited` are a recursive
  specification of the `begin … rescue … retry` block. `For` is the loop
  itself: a `while` loop over the attempt counter and the delay, proved to
  produce exactly the session `Waited` describes.
- `WaitProperties` (wait_properties.dfy) gives a second, non-recursive
  description of a session, `Explains`. Under it the block is called with
  1, 2, …, k, the sleeps are delay·2^(i-1) after call i < k, every attempt
  before k was rescued, and attempt k settles the result. The module proves
  that `Waited` satisfies this description and that nothing else does. The
  promised properties follow from that.
- `Decimal` (decimal.dfy) is Ruby's `Integer#to_s` for the numbers
  interpolated into the exhaustion message, with its inverse.

The block is a total function `block(t, a)`. It stands for what
`Timeout.timeout(t) { yield a }` produces for attempt `a`:
`Value(v, truthy)`, `Threw(exception)` or `TimedOut`. A session is the result
(`Returned(v)` or `Raised(exception)`) together with a trace of `Called(a)` and
`Slept(d)` events. Delays and timeouts are natural numbers in an abstract unit.

Where the code and its surrounding text disagree, the model follows the code:

- The doc comment names the option `:exceptions` (lib/wait.rb:46). The code
  reads `:rescue` (lib/wait.rb:64), and so does `Options`.
- The doc examples print delays of 0.5s and 1.0s (lib/wait.rb:7-9). With
  the default delay of 1, the code sleeps 1, 2, 4, …
- test/test_wait.rb exercises a different API (`Wait.new(opts).until`, with
  `NoResultError` and `TimeoutError`). Its expectations at
  test/test_wait.rb:25-50 have the original failure escape on exhaustion.
  The code raises a fresh `Wait::Error` instead (`ExhaustionRaisesWaitError`).
- test/test_wait.rb:173-183 expects a timeout to be retried under
  `:rescue => []`. In the code, `Timeout::Error` is then not in the rescue
  list, so it propagates (`TimeoutNotRetriedWithEmptyRescue`).

The default rescue list is `Exception` (lib/wait.rb:47 and lib/wait.rb:64),
so without `:rescue` every class the block raises is rescued and retried
(`DefaultRescuesEverything`).

## Model

| member | source | states |
|---|---|---|
| `Wait.For` | lib/wait.rb:60-94 | The loop's result and trace (calls and sleeps) are exactly the session that `Waited` specifies, for every option hash and every block. |
| `Wait.Judge` | lib/wait.rb:77-79 | An attempt is accepted iff it returned a truthy value, and the accepted value is the one the block returned. A nil/false result is always rescued, recorded as `Wait::Error`; a rescued exception or timeout records its own class. Under `Exception` nothing propagates. An attempt propagates iff it raised a class outside `Wait::Error` and the rescue list, or timed out with `Timeout::Error` outside the list. What propagates is the raised exception unchanged, or the timeout error. |
| `WaitProperties.RetryingExplained` | lib/wait.rb:73-93 | The begin/rescue/retry block calls attempts first, first+1, … in order, sleeps delay·2^i between them, retries only rescued attempts, stops within the budget, and settles the result from its last attempt. |
| `WaitProperties.ExplainsUnique` | lib/wait.rb:73-93 | The number of calls, the trace and the result of a session are determined by the block's outcomes. |
| `WaitProperties.WaitedCharacterized` | lib/wait.rb:60-94 | A session is what `Wait.for` produces iff it is the ArgumentError session with no calls (invalid budget), or else matches the non-recursive description `Explains`. |
| `WaitProperties.InvalidBudgetRejected` | lib/wait.rb:67-70 | An invalid budget raises `ArgumentError "invalid number of attempts"` with an empty trace. No call of the block happens iff the budget is invalid. |
| `WaitProperties.BudgetGuard` | lib/wait.rb:61-70 | The budget passes iff `:attempts` is absent (then it is 5) or an integer above 0. So 0 and 1.1 are rejected. |
| `WaitProperties.CallsNumberedAndBounded` | lib/wait.rb:73-76 | With a valid budget the block is called with exactly 1, 2, …, k for some 1 ≤ k ≤ attempts. The sleeps are delay, 2·delay, … (k−1 of them). |
| `WaitProperties.EndsAtFirstDecision` | lib/wait.rb:77-92 | If attempts 1..k−1 are rescued and attempt k is not (or k is the last), the trace is calls 1, …, k with one sleep between consecutive calls (2k−1 events, the last one `Called(k)`), and attempt k settles the result. |
| `WaitProperties.FirstTruthyReturned` | lib/wait.rb:77-78 | If the first truthy value comes at attempt k ≤ attempts, that value is returned. The trace alternates calls 1, …, k with the k−1 doubling sleeps and ends with `Called(k)`. |
| `WaitProperties.UnrescuedPropagates` | lib/wait.rb:79 | An unrescued exception or timeout at attempt k leaves `Wait.for` unchanged. The trace alternates calls 1, …, k with the k−1 doubling sleeps and ends with `Called(k)`, so no sleep follows the last call. |
| `WaitProperties.TimeoutNotRetriedWithEmptyRescue` | lib/wait.rb:64-79 | With `:rescue => []`, a timeout on attempt 1 propagates as `Timeout::Error` after that single call. |
| `WaitProperties.ExhaustionRaisesWaitError` | lib/wait.rb:85-86 | If every permitted attempt is rescued, a fresh `Wait::Error "n/n attempts failed"` is raised. The trace alternates calls 1, …, n with the n−1 doubling sleeps and ends with `Called(n)`, so no sleep follows the last call. |
| `WaitProperties.FalsyAlwaysRetried` | lib/wait.rb:78-79 | A block that only returns nil/false exhausts the whole budget under any rescue list, including `[]`. |
| `WaitProperties.DefaultRescuesEverything` | lib/wait.rb:64-79 | Without `:rescue`, the session ends either with a returned value or with the exhaustion error. Nothing the block raises propagates. |
| `WaitProperties.BackoffDoubles` | lib/wait.rb:88-90 | Each sleep is twice the previous one, so the sleeps never decrease. |
| `WaitProperties.DefaultsApply` | lib/wait.rb:61-65 | Each of the five options is defaulted on its own: an absent key gives attempts 5, timeout 15, delay 1, rescue `Exception` or silent false whatever the other keys hold, and a given key is kept as given. |
| `WaitProperties.SilentDoesNotSteer` | lib/wait.rb:80-88 | Changing `:silent` does not change the result or the trace. |
| `WaitProperties.ThreeNilAttempts` | lib/wait.rb:28-35 | The documented example: three attempts of a nil-returning block raise `Wait::Error "3/3 attempts failed"`. The trace is calls 1, 2, 3 with sleeps 1 and 2. |
| `WaitProperties.FourthAttemptSucceeds` | lib/wait.rb:88-91 | With attempts 4 and delay 100, a block that is truthy only on attempt 4 returns after sleeps of 100, 200 and 400. |
| `WaitProperties.OnlyNamedClassRescued` | lib/wait.rb:79 | With `:rescue => Foo`, Foo on attempt 1 is retried and Bar on attempt 2 propagates. |
| `Decimal.Show` | lib/wait.rb:86 | The interpolated number is a non-empty digit string. It has a leading zero only when it is "0". |
| `Decimal.ParseShow` | lib/wait.rb:86 | Reading the numeral back gives the number. |
| `Decimal.ShowInjective` | lib/wait.rb:86 | Different numbers give different numerals. |

## Left out

- The `Timeout.timeout` mechanism (lib/wait.rb:77) uses thread-based preemption. A timed-out attempt is the block's `TimedOut` outcome, and the timeout value is only passed to the block. The propagated timeout uses Ruby's default `Timeout::Error` message, "execution expired".
- `sleep` and wall-clock time (lib/wait.rb:89) are recorded as `Slept(d)` trace events.
- Floating-point delays and timeouts are left out. Delays are naturals, so doubling is exact.
- Negative delays and timeouts are outside the model, because both are naturals. In Ruby, `:delay => -1` makes `sleep` raise `ArgumentError` inside the rescue clause after the first rescued failure (lib/wait.rb:89), and a negative `:timeout` makes `Timeout.timeout` raise as well.
- Console output (the `puts` and backtrace lines at lib/wait.rb:80-83, 88) is left out. So is the message "result was nil/false" of the internal `Wait::Error`, which is only ever printed.
- Ruby's exception class hierarchy is left out. In the code a listed class also rescues its subclasses; in the model a class is rescued only when it is itself listed, or when `Exception` (`All`) is used, so listing a superclass such as `StandardError` is not modelled.
- The `Fixnum`/`Bignum` distinction is left out. Any integer above 0 is a valid budget, and every non-integer value is one `NotInt`.
- A `nil` or `false` option value is the same as an absent one (`None`), because `||` treats all three alike.
- The `Wait.new(...).until` API, `NoResultError` and `TimeoutError` that test/test_wait.rb uses are not part of this model. They do not exist in lib/wait.rb.
