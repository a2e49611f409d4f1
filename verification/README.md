# Verified model of the txmng transaction manager

txmng runs jobs inside database transactions. A run begins a transaction, hands the job a context, commits if the
job returns no error, rolls back if it returns one or panics, and closes the context. A retrier may repeat the whole
run. Jobs may nest runs, derive contexts that go around the transaction, and keep contexts longer than they should.

The project proves what this adds up to over whole programs: for every job, every answer of the database, every
cancellation and every nesting, and for any interleaving of concurrent runs.

## How it is organised

- `Errors.dfy` – error trees, `errors.Is`/`errors.As` as searches, the retrier's classification.
- `Retrier.dfy` – the default retrier's data; jitter arithmetic on 64-bit integers with wrap-around, for any monotone
  float rounding that keeps representable integers.
- `World.dfy` – contexts, jobs (small program trees), the environment that answers for the outside, and the world:
  close channels, contexts, transactions with their buffers, the primary log, the log of writes made outside
  transactions, and the trace of all events.
- `Interpreter.dfy` – the manager and the retrier as functions from world to world.
- `Manager.dfy` – the same as objects that change in place: contexts sharing a close channel, a provider, the manager,
  the closure the retrier calls. Every method is proved to do what the interpreter says.
- `Protocol.dfy`, `Bracketing.dfy`, `Lifetimes.dfy` – an independent monitor of event traces, the proof that it accepts
  every trace the manager produces, and what acceptance means.
- `RetriedRuns.dfy`, `Effects.dfy`, `Waiting.dfy`, `Amplification.dfy` – results about retried runs.
- `Outcomes.dfy`, `Durability.dfy` – what runs and calls come to, said in plain values and the outside's answers alone.
- `Machine.dfy`, `Interleaving.dfy`, `SharedSafety.dfy`, `SharedRouting.dfy`, `SharedRetries.dfy`, `SharedLog.dfy`,
  `Progress.dfy` – the manager step by step, any number of threads interleaved.
- `Results.dfy` – `Result.Scan` over variables that pointers may share.

Jobs refer to what they hold by variables, or to anything at all, picked by the environment (`Foreign`): leaked
contexts and stale handles are covered that way. An answer of the environment depends on the time, which is the number
of events so far; since results hold for every environment, they hold for every sequence of answers.

Assumptions about the provider, stated once: a commit that reports an error, or panics, has applied nothing; a handle of
a transaction that is not active refuses writes. `GetDB` of the provider may answer differently each time it is asked;
the default fallback DB is what it answered when the manager was made.

The quick start in the repository's README.md shows a `GetDB` that returns an error and a `MustGetDB`; the code has one
`GetDB` that returns the DB and the caller's context and panics on a dead context (txmng.go:104-106). The model follows
the code.

## Model

| member | source | states |
|---|---|---|
| Errors.FindIsFirst | retrier.go:73-87 | the recursive `Is`/`As` search finds the first match of the tree's preorder list, or nothing exactly when there is none |
| Errors.NeedRetryIsListPredicate | retrier.go:72-100 | `needRetry` over any tree holds if and only if no node is a cancellation and an EOF or closed pipe occurs, or the first network error timed out, or the first Postgres error has a listed code |
| Errors.OccursAnywhere | retrier.go:73-79 | the preorder list holds exactly the kinds that stand somewhere in the tree |
| Errors.CancellationWins | retrier.go:73-75 | a cancellation or missed deadline anywhere in the error tree forbids the retry |
| Errors.LostConnectionRetried | retrier.go:77-79 | an EOF or closed pipe anywhere demands it exactly when there is no cancellation or missed deadline |
| Errors.FirstOfEachKindDecides | retrier.go:73-97 | whatever is joined after an error changes nothing, unless it holds a cancellation, an EOF or closed pipe, or the tree's first network or first Postgres error |
| Errors.FirstNetErrorDecides | retrier.go:81-84 | of a network error joined with any others that hold nothing decisive and no Postgres error, only the first one's own timeout counts |
| Errors.FirstPgErrorDecides | retrier.go:86-97 | of a Postgres error joined with any others that hold nothing decisive and no network error, only the first one's own code counts |
| Errors.WrappingKeepsNeedRetry | txmng.go:50-80 | no stack of begin, commit, rollback and retry wrappers changes the classification, whatever error a rollback wrapper quotes |
| Errors.PanicNeverRetried | txmng.go:60-69 | a recovered panic is not retryable under any wrappers, even if its value was a retryable error |
| Retrier.NewDefaultRetrier | retrier.go:23-37 | jitter is clamped, one zero delay is appended; a retrier that cannot fail results exactly when the delays are of valid size |
| Retrier.Clamp | retrier.go:27-31 | the clamped jitter is the number of [0, 1] nearest to the given one |
| Retrier.Offset | retrier.go:64-65 | for every float rounding the offset lies between 0 and the base delay, for all bases that floats hold exactly, negative ones included |
| Retrier.OffsetIsTheShare | retrier.go:64-65 | the offset is delay times jitter: within a nanosecond of that product, exactly it if it is whole, otherwise the rounded product without its fraction |
| Retrier.CalcDelay | retrier.go:63-70 | for all 64-bit delays, with wrap-around: the delay drawn, or none where the generator panics; for delays of valid size nothing overflows, the generator accepts, and the delay is within the offset of its base and at most twice it |
| Retrier.DelayNearBase | retrier.go:63-70 | the delay drawn differs from its base by less than base times jitter plus a nanosecond |
| Retrier.NoJitterNoSpread | retrier.go:63-70 | with jitter 0 every draw gives the base delay itself |
| Retrier.HalfJitter | retrier.go:63-70 | 100 ms with jitter 0.5 has the offset 50 ms, and exactly the delays from 50 to 150 ms can be drawn |
| Retrier.ExactlyTheWindow | retrier.go:63-70 | for any 64-bit base, the delays that can be drawn are exactly the consecutive numbers, as many as the generator is given, from the left end of the window, wrapped as its ends are: the whole window when the offset is in [0, 2^62) |
| Retrier.DrawDefined | retrier.go:63-70 | for every 64-bit base: the generator accepts its argument if and only if the offset is in [0, 2^62) or below -2^62; for bases floats hold exactly, if and only if the base is not negative or the rounded product of base and jitter is above -1 |
| Retrier.NegativeDelayPanics | retrier.go:63-70 | a delay of -2 ns with full jitter gives the generator -3, at which it panics |
| Retrier.HugeDelayPanics | retrier.go:63-70 | so does a delay of 2^62 ns: the width wraps around |
| Retrier.OffsetCanExceedTheDelay | retrier.go:63-70 | with a rounding that satisfies all that is asked of float64, a delay of 2^53 + 3 ns gets an offset of 2^53 + 4 and can come out as -1 |
| World.DerivedRoutesToFallback | context.go:48-53 | a context derived in any number of steps yields the fallback DB on the same channel |
| Interpreter.Exec | txmng.go:74 | a job, with all runs nested in it, leaves nothing of its own open and ended nothing of others |
| Interpreter.RunTx | txmng.go:43-84 | a transactional run ends what it began and keeps all else |
| Interpreter.RunNoTx | txmng.go:86-102 | likewise a run without a transaction |
| Interpreter.Do | retrier.go:39-61 | likewise the retry loop, which terminates |
| Interpreter.RunCall | retry_txmng.go:28-51 | likewise a call through the optional retrier |
| Manager.CommonContext.GetDB | common_context.go:37-46 | yields exactly while the channel is open, otherwise panics with the invalid-context error |
| Manager.CommonContext.WithDB | common_context.go:29-35 | a new context with another DB on the same channel |
| Manager.CommonContext.Close | common_context.go:49 | closes an open channel, which every caller must have |
| Manager.ContextImpl.NoTxContext | context.go:48-53 | the derived context: fallback DB, shared channel |
| Manager.TxManager.GetDB | txmng.go:104-106 | the context's DB and raw context, a panic on a dead context or a missing DB |
| Manager.TxManager.OpenTx | txmng.go:48-58 | begin, then the run's context with its handle and fallback DB; begin's error otherwise |
| Manager.TxManager.Conclude | txmng.go:60-84 | commit and the deferred part, in place, do what the interpreter says |
| Manager.TxManager.Deferred | txmng.go:60-78 | the deferred part rolls back on any error, wraps a rollback error around it, and closes the channel, which is open |
| Manager.TxManager.RunTx | txmng.go:43-84 | the imperative run equals the interpreter's on the world before it |
| Manager.TxManager.RunNoTx | txmng.go:86-102 | the same for a run without a transaction |
| Manager.Closure.Invoke | retry_txmng.go:38-45 | the closure overwrites its captured result and error with the attempt's |
| Manager.TxManager.Do | retrier.go:39-61 | the loop with its early exits computes the recursive retry loop |
| Manager.TxManager.RunWithRetrier | retry_txmng.go:28-51 | the captured result comes out only without an error, any error is wrapped |
| Manager.New | txmng.go:23-41 | settings are applied in order: the last retrier setting wins, the fallback DB is dynamic if any setting says so; the manager is fit to run exactly when the delays that count are of valid size |
| Manager.LastRetrierSetting | option.go:11-39 | the last setting about the retrier decides: none, the given delays and a final zero with the jitter brought into [0, 1], or 100, 300, 600 ms and zero with jitter 0.5 |
| Manager.NoRetrierSetting | option.go:11-43 | without such a setting there is no retrier |
| Protocol.TransactionsBalance | txmng.go:48-84 | along any trace of the protocol: what began is committed, rolled back or unended, never twice; every failed commit is owed a rollback or got it |
| Protocol.ChannelsBalance | common_context.go:19-49 | along any such trace: channels made are closed or held by a run in progress |
| Protocol.BracketedTrace | txmng.go:48-84 | a trace that returns to its stack ends each transaction once and closes each channel once |
| Bracketing.RunCallAccepted | txmng.go:43-102 | every call of every program is accepted by the pushdown protocol and leaves its stack as it was: runs are bracketed last-in-first-out |
| Bracketing.DoAccepted | retrier.go:42-60 | so is every retry loop, attempt by attempt |
| Bracketing.ProgramIsBracketed | txmng.go:48-84 | over a whole program each begun transaction has exactly one commit or one rollback, each channel exactly one close |
| Lifetimes.AcceptedIsLawful | txmng.go:60-83 | in a protocol trace contexts yield only between opening and closing, writes and commits meet untouched transactions, a failed commit is rolled back next, after a commit or rollback the channel of that very run is closed next, and a refusal is followed at once by the end of the innermost run |
| Lifetimes.ProgramIsLawful | common_context.go:37-49 | the same at every position of every program's trace, at every nesting depth |
| Lifetimes.ProgramRoutesContexts | context.go:33-53 | every DB a context ever yields in a program is its run's own handle if it is the root, and if it is derived what the provider answered: with the dynamic setting to the run's options when its context was made, without it to empty options when the manager was made |
| RetriedRuns.DoRefines | retrier.go:39-61 | the loop's attempts form a chain of retryable failures with one wait between them, ending in exactly one of the described ways; none are made if the context is dead at entry |
| RetriedRuns.RetryContract | retrier.go:33-60 | at most delays + 1 attempts, all but the last failed retryably, nil exactly if the last succeeded, otherwise its error or the context's |
| RetriedRuns.AttemptEnds | txmng.go:74-83 | an attempt's transaction is committed exactly when the attempt returns no error and discarded otherwise |
| RetriedRuns.ClassifiedByCause | txmng.go:50-80 | an attempt is retried on account of what begin, the job or the commit answered, never of its rollback |
| RetriedRuns.CommittedExactlyOnSuccess | retry_txmng.go:38-50 | over a retried run only the last attempt's transaction can be committed, and it is exactly when the caller gets nil |
| RetriedRuns.AttemptsAreIsolated | txmng.go:58-72 | when an attempt begins, all contexts and transactions of earlier attempts are dead and over, and after the run so are all |
| RetriedRuns.PanicEndsRun | txmng.go:60-69 | a panicking job or commit is in the last attempt, which is discarded; the caller gets an error and no result |
| RetriedRuns.LeadsToSameOutcome | txmng.go:74 | what a job ends with is what it ends with from any point it comes to |
| RetriedRuns.DeadContextFailsRun | common_context.go:37-43 | a job that comes, at any point of any attempt, also after nested runs and with a context one of those leaked, to ask a dead context, or one without a DB, fails its run for good: no further attempt, an error, no result, the transaction discarded |
| RetriedRuns.ResultProvenance | retry_txmng.go:29-50 | the result is what the job of the last, successful attempt returned; with a retrier an error comes without a result |
| RetriedRuns.ErrorWithResult | txmng.go:86-102 | an error comes with a result exactly without a retrier, without a transaction, from a job that returned both |
| Outcomes.BeginFailureReturned | txmng.go:48-51 | a failing begin, asked with the call's own options, is returned as a begin error over the provider's, and nothing else happens |
| Outcomes.TxStartsSo | txmng.go:43-58 | begin gets the call's options with the background context for a missing one; the job starts with a context made of the caller's context, the transaction's handle, the provider's answer for the fallback DB, and an open channel |
| Outcomes.NoTxStartsSo | txmng.go:86-91 | the job of a run without transaction starts with the provider's answer to the call's options, and no fallback DB |
| Outcomes.TxRunOutcome | txmng.go:43-84 | everything after the job: commit is tried exactly if it returned nil; the fault is its own error, a commit error over the provider's, or the panic; a fault is rolled back and comes back as it is, or under the rollback's error; the result only without fault; then the channel is closed; the world after is given in full |
| Outcomes.NoTxRunOutcome | txmng.go:86-102 | the same of a run without transaction: result and error as the job gave them, or the panic |
| Outcomes.RetriedCallOutcome | retrier.go:39-61 | everything around the attempts of a retried call, from the caller's context, the delays and the jitter alone: how many there are, what is waited between them, what comes back, with a cancellation told as one and a deadline as one |
| Outcomes.PlainCallOutcome | txmng.go:23-41 | without a retrier a call is one attempt |
| Outcomes.DoneAtEntry | retry_txmng.go:28-48 | a caller whose context is done gets no attempt and a retry error over the reason |
| Outcomes.DoneAfterAttempt | retrier.go:47-57 | a context done when a retryable attempt ends stops the loop there; the reason is returned in place of the attempt's error |
| Outcomes.NilContextNeverCut | retry_txmng.go:34-36 | without a caller's context the loop ends only at a success, at an error not worth a retry, or with the delays used up |
| Effects.CommitExplained | txmng.go:79-83 | a commit keeps the state equal to what the trace stands for |
| Effects.RunCallExplained | txmng.go:43-84 | after any call the primary log is the replay of the trace: committed transactions whole, in commit order, and nothing else |
| Effects.ProgramExplained | txmng.go:43-84 | so it is after every program |
| Effects.RunLog | retry_txmng.go:28-51 | the whole primary log after any run: what was there, then what nested runs committed in each attempt in turn, failed attempts included, then the winning transaction's writes if the run returns nil |
| Effects.NestedIsWhole | txmng.go:43-84 | what an attempt's job leaves in the log through nested runs is, of each transaction begun and committed inside it, all writes, and nothing else |
| Effects.RunIsAtomic | retry_txmng.go:28-51 | of the attempts' own transactions, a failed run leaves nothing in the primary log and no commit in the trace, a successful one exactly the last attempt's writes and commit; all else it adds to the log is what nested runs committed, which is never the attempts' own; the log of writes outside transactions grows by the concatenation of what each attempt wrote there, in order |
| Effects.NestedCommitSurvives | txmng.go:60-83 | a concrete failed run that leaves a commit behind: that of the run nested in it |
| Effects.FlatRunIsAtomic | retry_txmng.go:28-51 | corollary: without nested runs the primary log is unchanged on error, and extended by exactly the winning writes on success |
| Durability.WritesAreDurableTogether | txmng.go:74-83 | a job's writes through its handle are in the primary log all together, in order, and its result is returned, if it returns nil and the commit succeeds; otherwise none, and no result |
| Durability.WritesAroundStay | context.go:48-53 | writes through a derived context are in the fallback DB's log, in order, however the run ends, and not in the primary log |
| Durability.WritesWithoutTransactionStay | txmng.go:86-102 | so are those of a run without transaction in the log of the DB looked up with its options |
| Durability.JobSeesNestedError | retry_txmng.go:46-50 | a job sees the error of a run nested in it, and may swallow it |
| Durability.JobSeesFailedWrite | txmng.go:74 | likewise a write that failed, or whose handle is of a transaction that is over, which leaves nothing behind |
| Durability.JobHandsUp | retry_txmng.go:46-50 | or hand it up, as it is or wrapped, together with the result |
| Waiting.TotalWaitBounds | retrier.go:42-70 | the waits of any rounds lie within the summed jitter windows and below twice the delays |
| Waiting.RunWaits | retrier.go:51-57 | a run's trace requests exactly the waits of its rounds and those of the runs nested in its attempts; its own are within those bounds |
| Waiting.FlatRunWaits | retrier.go:51-57 | corollary: without nested runs these are the waits of its own rounds alone |
| Waiting.RunCallWaits | retrier.go:42-60 | all waiting of any call, nested runs included, is bounded by a number read off its program: twice the delays plus the budget times that of its body |
| Amplification.RunCallInvocations | retrier.go:42-60 | a call invokes given code at most as often as the program's structure allows, each nesting multiplying by the retry budget |
| Amplification.OnceBound | retrier.go:33-60 | the structural bound of such a job is exactly budget^d |
| Amplification.AmplificationBound | retrier.go:33-36 | in any program where given code is reached once per body under d + 1 retrying runs, of whatever options and whatever else around them, it is invoked at most budget^(d+1) times |
| Amplification.FailingRun | retrier.go:42-60 | the bound is reached, at every depth, by code that keeps losing its connection |
| Amplification.ExhaustionStaysRetryable | retry_txmng.go:46-48 | an exhausted inner budget is retryable for the outer run, returned as it is or wrapped |
| Machine.RunCallReached | txmng.go:43-102 | the step machine reaches exactly the world, result and error of the interpreter |
| Machine.FinishesAsInterpreted | retry_txmng.go:28-51 | whenever it has finished, it has finished so |
| Interleaving.MicroSame | txmng.go:17-21 | a step alone and the matching step on a shared database keep the thread's states the same up to numbering |
| Interleaving.NonInterference | txmng.go:43-102 | after any schedule of any number of threads whose jobs use their own contexts, each is in the state it has after as many steps alone |
| Interleaving.InterleavedOutcome | retry_txmng.go:20-51 | a finished thread has the result, error and events of its call run alone |
| SharedLog.SharedLogInterleaves | txmng.go:79-83 | after any schedule the shared primary log is an interleaving of the threads' solo logs: each thread's part is, in order and up to names, its solo log, that of its whole call once it is done, and every entry is in exactly one part |
| SharedSafety.EveryMomentSafe | common_context.go:13-49 | at every moment of every interleaving of any jobs: a channel is open exactly while its run is in progress, transactions of runs in progress are active and all others over, the primary log holds committed transactions whole and nothing else |
| SharedSafety.ContextLifetime | common_context.go:37-46 | whoever holds a context, it yields exactly while some thread is in its run |
| SharedSafety.NothingDoneTwice | txmng.go:60-83 | no interleaving commits or rolls back an ended transaction or closes a closed channel; at closing, committed means no error |
| SharedRetries.EveryCallIsAtomic | retry_txmng.go:28-51 | for any jobs and schedule, from the moment any thread makes any call, nested or not: until it returns all transactions its attempts began but the last are discarded; when it returns, the last is committed exactly if it returns nil, there were at most as many as the retry budget, and the primary log holds all writes of the winner and none of the others |
| SharedRetries.EveryThreadIsAtomic | retry_txmng.go:28-51 | so it is for every thread's own call once it is done, in every schedule from the start |
| SharedRouting.EveryMomentRouted | context.go:33-53 | at every moment of every interleaving of any jobs, each run in progress has its own context on its channel, with its handle and the fallback DB looked up when it began, and all others there are derived from that one |
| SharedRouting.SharedContextRoutes | context.go:33-53 | whoever asks whatever context at any such moment: a DB it yields is that of a run some thread is in, the run's own for the context the run made, and for every derived one what the provider answered, with the dynamic setting to the run's options, without it to empty ones at the start |
| SharedRouting.RunKeepsItsOptions | txmng.go:43-58 | a run in progress has the isolation, access mode, extension and caller's context of its call, the background context for a missing one |
| Progress.TurnsSpent | retrier.go:42-60 | a thread that is not done has spent each of its turns, under any schedule, on getting nearer to its end |
| Progress.EveryThreadFinishes | retry_txmng.go:28-51 | a thread given as many turns as a number read off its call is done, whatever its jobs and the other threads do |
| Progress.OwnThreadCompletes | retry_txmng.go:28-51 | with jobs that keep to their own contexts it then has the result, error and events of its call run alone |
| Progress.NothingIsLeft | txmng.go:60-83 | when all threads have had those turns, every channel ever made is closed and every transaction ever begun is over |
| Results.Scan | result.go:20-64 | succeeds exactly when lengths match and every position is acceptable; each variable then holds the last value stored to it or its old contents; otherwise stops at the first bad position with the right error and only the positions before it stored; in no case does a variable get a value of another type |
| Results.AcceptedExactly | result.go:31-64 | a scan is accepted exactly if lengths match and at each position the argument is nil, or the value is nil and the argument a pointer, or the argument points to a variable of the value's type, whose kind is none of channel, function, interface, unsafe pointer, invalid |
| Results.FailureExplained | result.go:31-61 | which error the first bad position gives: no pointer, then the kind, then the type, then a nil pointer |
| Results.RoundTrip | result.go:16-18 | distinct targets of the values' types, of settable kinds, and no nils: the scan is accepted and every variable gets back the value put in |
| Results.ScanTwice | result.go:25-61 | scanning again changes nothing |
| Results.ContentsDetermined | result.go:25-61 | the description of the contents admits one value only |
| Results.FailureIsPrefixScan | result.go:25-61 | a failing scan stores what a successful scan of the positions before the bad one stores |

## Left out

- Retrier.CalcDelay: a NaN jitter is not modelled; the bounds on the delay are for delays of 0 to 2^53 ns, and `Retrier.OffsetCanExceedTheDelay` shows that they do not extend further.
- Manager.New: user-supplied `Retrier` implementations, which may do anything with the closure, are not modelled, and runs under a retrier with a delay outside 0 to 2^53 ns (104 days) neither; the arithmetic of such delays is.
- Interleaving.NonInterference: the log of writes outside transactions is not compared, since its entries do not say whose they are; the threads' traces, which hold them, are.
- In the step machine a successful begin and the making of the run's context are one step; nothing another thread does can come between them and be noticed.
- Begin or `GetDB` of the provider panicking, a panicking rollback, `runtime.Goexit`: the deferred block does not cover them.
- A rollback that fails at the database: the transaction counts as discarded, whatever rollback answers.
- Jobs that recover panics themselves.
- Go's custom `Is`/`As` methods on errors, message texts, `reflect` beyond kinds and type identity.
- Pointers to overlapping memory, such as a struct and one of its fields: variables are the same or apart.
- The caller's array behind `append(delays, 0)`, which may be written to when it has spare capacity.
- The choice between a done context and a fired timer is left to the environment, as is everything the random generator draws.
- Driver code (db_provider_pgx.go, db_provider_sql.go), scoped managers (scoped_context.go, scoped_txmng.go) and option tables: delegation and lookups.
