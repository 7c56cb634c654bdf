# Verification of piping

Piping takes a PDF from a web page, charges it to the user's quota, and sends it to a printer. This project models its
quota ledger and print-job protocol, the programs around them, and the three formats they speak, and proves what the
system is for: nobody spends more than was granted, a job is charged once and released at most once, the answer given to
the user is the one on record, stuck jobs are resolved, and what the printer reads is what the user asked for.

Check everything with `dafny verify dfyconfig.toml`.

## How it is organised

| file | what it models |
|---|---|
| `Jobs.dfy` | the job row and the state machine |
| `Sums.dfy` | sums over finite maps, as SQL's `SUM` needs them |
| `Tables.dfy` | the tables as a value, each committed SQL statement as a function on it, the derived quota |
| `Store.dfy` | the PostgreSQL store as a class, statement by statement |
| `Queues.dfy` | destinations and the load balancer |
| `Delivery.dfy` | the deliverer: its protocol as an automaton, and `Deliver` with its retry loop |
| `Sweep.dfy` | one sweep pass, and how passes drain stuck jobs |
| `Provision.dfy` | who is granted what, in any order and after any failures; provisioners as an automaton |
| `Protocol.dfy` | all actors interleaved over one database: a transition system |
| `Safety.dfy` | the invariant of that system and what follows for every reachable state |
| `Linear.dfy` | every concurrent run refines a sequential ledger |
| `Drain.dfy` | sweeps in the runs of that system drain stuck jobs |
| `Timing.dfy`, `Race.dfy` | when exactly sweeping is harmless to live deliveries |
| `Decimal.dfy`, `Semester.dfy` | decimal printing and reading; semester codes and names |
| `Utf8.dfy`, `Escapes.dfy`, `Ticket.dfy` | UTF-8, XML escaping, the print ticket and a reader of it |
| `Inkcov.dfy` | the ink coverage report |
| `Submit.dfy` | a whole submission, from the guards to the stream sent |

## Assumptions

- **One statement, one instant.** A SQL statement reads and writes the tables atomically. Transactions run at Read
  Committed: each statement sees what is committed when it runs, a row inserted by an open transaction is visible to
  nobody else until the commit, and the row lock of `FOR UPDATE` excludes other quota transactions of that user. Other
  statements do not wait for that lock. In PostgreSQL the foreign key check of a grant's insert may wait for it; letting
  it through only adds runs.
- **Time.** All parties read one clock that never goes back. The submission time of a job is the time its transaction
  began, as `now()` is. A single-statement update runs at one instant.
- **Failures.** A call can fail before its statement takes effect or after (the reply is lost); a transaction may abort
  at any point (lock timeouts, constraint violations and broken connections are such aborts); a deliverer, a sweeper and
  a provisioner may stop for good between any two statements.
- **Randomness.** The balancer may choose any enabled destination, and map iteration may take any order.
- **Bytes.** In the ticket, texts and documents are byte strings: a Dafny `char` stands for one byte. Integers are
  unbounded; page, copy and byte limits and the color rate are bounded by the configuration.

`now` and the other actors' statements are parameters of the methods, so that a method's contract holds for every
interleaving; `Protocol` gives the same statements as the steps of one transition system.

## Findings

- The start-up check (`cmd/piping/main.go`, lines 152-157) asks that the sweep age exceed the send timeout.
  `Race.ChargedIffPrintedExactly` shows what is needed: the delay from submission to the start of sending, plus the
  time to send, plus the delay of the resolution must not exceed the sweep age. If they do fit, no crash-free,
  error-free delivery is ever charged wrongly; if they do not, there is a run that prints a document and gives its cost
  back (`Race.ExcessiveDelaysRace` constructs it).
- A user name that is not UTF-8 for legal XML characters does not survive the ticket: exactly those names are altered
  (`Tickets.JobRoundTrip`), for instance one with a control character in it (`Tickets.ControlCharacterLost`).

## Model

| member | source | states |
|---|---|---|
| Jobs.DeductingNamesAgree | internal/job/job.go:67-77 | the names the quota query filters on, spelled out, are those of exactly the deducting states |
| Jobs.NamesDistinct | internal/job/job.go:31-52 | no two states share a name |
| Jobs.TerminalExactly | internal/job/job.go:59-65 | terminal are exactly the states of jobs neither waiting to be sent nor being sent |
| Jobs.TransitionsDescend | internal/job/job.go:79-92 | the transition table is acyclic: every transition descends a rank, leaves a deducting state, and leaves a terminal state only for a refund |
| Jobs.PathDescends | internal/job/job.go:79-92 | along a history each step descends, so everything before the end deducts |
| Jobs.PathShape | internal/job/job.go:67-92 | a history has at most four states, none twice; once released the cost is never deducted again; it is released at most once |
| Jobs.HistoriesExactly | internal/job/job.go:79-92 | the table allows exactly seven histories, listed one by one |
| Tables.UpdateRecords | internal/postgres/job_store.go:73-78 | an update that finds its row changes its state and, to the time of the update, its times; nothing else |
| Tables.GrantedAfter | internal/postgres/quota_store.go:23-32 | the granted sum changes by exactly a new grant of the user |
| Tables.SpentAfter | internal/postgres/quota_store.go:34-45 | the spent sum changes by exactly accepts, failures and refunds of the user's jobs |
| Tables.RemainingAfter | internal/postgres/quota_store.go:11-21 | the balance derived from the rows moves as an incremental ledger under every statement |
| Tables.DerivedIsIncremental | internal/postgres/quota_store.go:11-43 | along every sequence of statements the derived balance equals the incremental one |
| Tables.BalanceFallsOnlyByAccept | internal/postgres/job_store.go:33-61 | only accepting a job of that user lowers a balance |
| Tables.RunIsLater | internal/postgres/job_store.go:69-99 | under any statements a row keeps all that was asked for, its cost and its submission, and its state only descends |
| Tables.RunLongHistory | internal/job/job.go:67-92 | over any run a new job's states form a repetition-free path of the table, released once exactly if it no longer deducts |
| Tables.OneWinner | internal/postgres/job_store.go:69-99 | of any racing guarded updates that leave one state of a job, among any other statements, exactly the first succeeds |
| Tables.StepKeepsRows | internal/postgres/job_store.go:73-78 | every statement keeps completed_at, refunded_at and submitted_at consistent with the state |
| Stores.ReadStaysLowerBound | internal/postgres/job_store.go:24-41 | whatever others commit while the user row is locked, the balance read stays a lower bound |
| Stores.CommitSettles | internal/postgres/job_store.go:42-61 | the row committed fits the balance at commit time |
| Stores.Store.CheckQuotaAndStore | internal/postgres/job_store.go:13-67 | with other actors between any two statements: an accepted job leaves a non-negative balance, a rejected one cost more than the balance read, the row stored has each field as asked for, an error stores nothing unless the commit's reply was lost |
| Stores.Store.GrantedQuota | internal/postgres/quota_store.go:23-32 | the loop over the grant rows computes the sum |
| Stores.Store.SpentQuota | internal/postgres/quota_store.go:34-45 | the loop over the job rows, filtered by state name, computes the sum over deducting states |
| Stores.Store.RemainingQuota | internal/postgres/quota_store.go:11-21 | granted minus spent |
| Stores.Store.UpdateJobState | internal/postgres/job_store.go:69-86 | compare-and-set along the table, with its answers, for every fault, and with the row it leaves field by field |
| Stores.Store.MarkSent | internal/postgres/job_store.go:88-99 | compare-and-set from quota_deducted that records the destination |
| Stores.Store.StaleJobs | internal/postgres/job_store.go:117-139 | the rows returned are stale, distinct, oldest first, at most the limit, and if any stale row is left out the batch is full of rows no newer |
| Stores.CollectOldest | internal/postgres/job_store.go:122-125 | taking an oldest remaining row keeps the batch in order |
| Stores.Store.EnsureSemester | internal/postgres/quota_store.go:47-60 | inserts once, never overwrites, answers with the quota on record |
| Stores.Store.EnsureGrant | internal/postgres/quota_store.go:62-72 | inserts once, never overwrites, fails without its user or semester |
| Queues.EnabledExactly | internal/queue/queue.go:26-34 | exactly the enabled destinations survive the filter |
| Queues.EnabledDestinations | internal/queue/queue.go:26-34 | the loop computes the filter |
| Queues.Choose | internal/queue/queue.go:71-77 | fails exactly on an empty list, otherwise any listed destination |
| Queues.PickDestination | internal/app/deliver.go:130-152 | answers exactly if both queries answer, some destination is enabled and the policy is known; the answer is listed and enabled |
| Delivery.SendDiscipline | internal/app/deliver.go:64-106 | for every script: at most maxAttempts sends, none before the job is marked, none after a success or a missed deadline, success requested exactly if the last send succeeded, and only transitions of the table are requested |
| Delivery.OthersOnlyFail | internal/app/deliver.go:64-128 | between two of its calls a deliverer's job can only be failed by others |
| Delivery.Deliverer.constructor | internal/app/deliver.go:48-62 | at least one attempt |
| Delivery.Deliverer.SendWithRetries | internal/app/deliver.go:82-106 | the loop ends; all sends but the last are ordinary failures, and it gives up only on a deadline or after the last attempt |
| Delivery.Deliverer.Deliver | internal/app/deliver.go:64-106 | it is a run of the automaton, leaves exactly the tables its calls account for, sends exactly if the job was marked, without an error answers what the job's row says, whatever sweeps and refunds do meanwhile, and beside an error of the store answers what the last send made of it |
| Delivery.Deliverer.Resolve | internal/app/deliver.go:108-128 | an overtaken resolution answers failed; without an error the answer is the row's, beside one it is the outcome of the sends |
| Sweep.Sweeper.Resolve | internal/app/sweep.go:50-61 | it asks for print_failed and nothing else, and without a fault the job has moved, by this update or another's |
| Sweep.Sweeper.ResolveAll | internal/app/sweep.go:50-61 | the loop applies the updates one by one, among the statements of others |
| Sweep.SweptAlone | internal/app/sweep.go:50-61 | alone and without faults, those updates fail exactly the jobs of the batch |
| Sweep.SweptSucceeds | internal/app/sweep.go:50-61 | whatever others and faults do, those updates never make a job succeed |
| Sweep.Sweeper.Pass | internal/app/sweep.go:43-62 | alone and without faults it fails the jobs of its batch, gives their cost back and leaves every other row as it was; among others a job that has succeeded afterwards had before or by another's statement; it is a pass in the sense of the draining lemmas |
| Sweep.PassFells | internal/app/sweep.go:43-62 | an error-free pass moves every pending job or as many as the batch holds |
| Sweep.PassLowersRanks | internal/app/sweep.go:43-62 | it lowers the rank sum of N pending jobs by at least min(limit, N), even when deliverers race it |
| Sweep.SweepDrains | internal/app/sweep.go:29-62 | as many passes as the rank sum drain every job submitted before the cutoff, though all deliverers crashed |
| Sweep.DrainedInTwicePending | internal/app/sweep.go:29-62 | 2N passes drain N pending jobs |
| Sweep.SweepDrainsInBatches | internal/app/sweep.go:29-62 | the number of full batches in the rank sum, plus two passes, is enough |
| Provisioning.QuotaByTerm | internal/app/provision.go:57-73 | the quota by season and year |
| Provisioning.Provisioner.Provision | internal/app/provision.go:30-55 | in any order of the entitled semesters: new grants only to this user, for the current term if eligible and for enrolments begun, and nothing existing changed, after any faults; all of them without faults; an error exactly if the user could not be ensured |
| Provisioning.Provisioner.Entitlement | internal/app/provision.go:34-43 | the current semester if eligible, and the enrolments up to it |
| Provisioning.EntitledExactly | internal/app/provision.go:34-43 | a term counts exactly if it is the current one and the user is eligible, or an enrolment that has begun |
| Provisioning.OnlyEntitled | internal/app/provision.go:34-53 | what any provisioning adds, row by row, and that an ineligible user without a begun enrolment gets nothing |
| Provisioning.AllEntitled | internal/app/provision.go:44-53 | every such term is on record, and granted its quota on record if that is not negative |
| Provisioning.Provisioner.Upsert | internal/app/provision.go:44-53 | one iteration keeps the tables part way to the goal and without faults fills its semester |
| Provisioning.FinishingInterrupted | internal/app/provision.go:44-55 | running to the end after any partial attempts gives what one run alone gives |
| Provisioning.ProvisionIdempotent | internal/app/provision.go:30-55 | repeating it changes nothing, and no existing grant is altered |
| Provisioning.ProvisionUnion | internal/app/provision.go:34-55 | two provisionings under one default give the union, in either order |
| Protocol.RunIsActions | internal/postgres/job_store.go:13-99 | every run of the actors acts on the tables as the statements it commits |
| Protocol.JobHistories | internal/job/job.go:67-92 | in every run from empty tables every job's history is a repetition-free path, released at most once |
| Safety.LockStep | internal/postgres/job_store.go:24-31 | every step keeps: one quota transaction past its lock per user |
| Safety.BalancesStay | internal/postgres/job_store.go:24-61 | every step keeps balances non-negative, and lowers one only at a commit for that user |
| Safety.ReadStep | internal/postgres/job_store.go:33-61 | every step keeps the balance that each open transaction has read a lower bound |
| Safety.StepInv | internal/app/deliver.go:64-128 | every step of every actor keeps the whole invariant |
| Safety.RunInv | internal/app/deliver.go:64-128 | so does every run |
| Safety.NoDoubleSpend | internal/postgres/job_store.go:24-61 | in every reachable state the deducting jobs of a user cost at most the user's grants |
| Safety.RowsAreConsistent | internal/postgres/job_store.go:48-78 | in every reachable state timestamps and state of a row agree, and no timestamp precedes submission |
| Safety.SentWhereChosen | internal/app/deliver.go:64-78 | a job counting as sent records a destination of its own queue, enabled when picked |
| Safety.GrantAmounts | internal/app/provision.go:44-73 | under provisioners with differing defaults every grant equals its semester's stored quota, computed by whoever inserted the semester |
| Safety.AnswerAgrees | internal/app/deliver.go:64-128 | in every reachable state a delivery that answered failed without an error has its job in print_failed and released, one that answered succeeded has it print_succeeded or refunded, and printed |
| Safety.ChargedOnlyIfPrinted | internal/app/deliver.go:79-119 | a settled job that is charged was printed |
| Safety.TransactionIsolated | internal/postgres/job_store.go:24-61 | in every run, what others commit while a transaction holds its lock meets the assumptions of `CheckQuotaAndStore`: no insert for that user, no use of the identity value it draws |
| Draining.SweepIsPass | internal/app/sweep.go:43-62 | in every run a fault-free sweep, among the steps of all other actors, is an error-free pass |
| Draining.SweepsDrain | internal/app/sweep.go:29-62 | in every run 2N fault-free sweeps past the cutoff leave none of N pending jobs open |
| Linear.StatementRefines | internal/postgres/job_store.go:69-99 | a guarded update or an upsert is one atomic operation with the same answer |
| Linear.CommitRefines | internal/postgres/job_store.go:42-66 | an accept takes effect at the commit and is covered there |
| Linear.CheckRefines | internal/postgres/job_store.go:33-45 | a reject takes effect at the read, where the balance was short |
| Linear.StepRefines | internal/postgres/job_store.go:13-99 | every step is a step of the sequential ledger, or none |
| Linear.StepToldRight | internal/postgres/job_store.go:69-99 | nobody requests a transition the table lacks; each guarded update and grant upsert that reports no failure is told what the ledger's operation answered |
| Linear.Linearizable | internal/postgres/job_store.go:13-99 | every concurrent run has the balances and jobs of a legal sequential run, and its submissions, guarded updates and grant upserts are told the answers of that run |
| Timing.LiveUntouched | internal/app/sweep.go:44-51 | in every timely run with fitting delays no snapshot holds a job that has a live deliverer, and nobody else changes it |
| Timing.SnapshotSparesLive | internal/app/sweep.go:44-45 | with fitting delays a snapshot just taken holds no job with a live deliverer |
| Timing.FittingDelaysCharge | internal/app/deliver.go:79-128 | with fitting delays every error-free delivery is charged exactly if a send succeeded |
| Race.ExcessiveDelaysRace | internal/app/sweep.go:43-62 | otherwise some timely run prints a job and releases its cost |
| Race.ChargedIffPrintedExactly | cmd/piping/main.go:152-157 | charged exactly when printed in all timely runs, if and only if the delays together fit the sweep age |
| Decimal.AtoiInvertsItoa | internal/semester/semester.go:27-55 | reading undoes printing for every integer |
| Decimal.ItoaInvertsAtoi | internal/semester/semester.go:27-55 | printing undoes reading exactly on canonical digits, optionally after a minus sign unless they are zero |
| Decimal.OneDigit | internal/semester/semester.go:27-55 | each digit stands for its own value |
| Decimal.ValueOfJoined | internal/semester/semester.go:27-55 | the most significant digits come first |
| Semesters.ParseExactly | internal/semester/semester.go:22-43 | exactly white space, a season, one blank, an integer and white space are read as a term, with its code |
| Semesters.PaddedNameParses | internal/semester/semester.go:22-57 | white space around a name does not matter |
| Semesters.NameExactly | internal/semester/semester.go:45-57 | the names in words |
| Semesters.ParseInvertsName | internal/semester/semester.go:22-57 | `Code(Name(c)) = c` exactly for canonical codes; other codes are answered with an unknown season |
| Semesters.NameInvertsParse | internal/semester/semester.go:22-57 | `Name(Code(s)) = s` exactly for canonical names, which all parse |
| Semesters.CodeOrderIsTime | internal/semester/semester.go:10-20 | a term's code is at most the current one exactly if the term has begun |
| Semesters.CurrentIsLatestBegun | internal/semester/semester.go:10-20 | the current code is the latest term begun |
| Utf8.DecodeInvertsEncode | internal/printticket/printticket.go:121-125 | UTF-8 as the escaper reads it: decoding undoes encoding of every scalar value, whatever follows |
| Utf8.EncodeInvertsDecode | internal/printticket/printticket.go:121-125 | and encoding undoes every decoding that did not fail |
| Utf8.EncodedSamples | internal/printticket/printticket.go:121-125 | one character of each length |
| Utf8.XmlCharExactly | internal/printticket/printticket.go:121-125 | the legal characters (section 2.2 of XML 1.0) by what they exclude |
| Escapes.UnescapeInvertsEscape | internal/printticket/printticket.go:121-125 | resolving references (sections 4.1 and 4.6 of XML 1.0) undoes escaping for every byte string, up to the replacement of what XML cannot carry |
| Escapes.LegalExactly | internal/printticket/printticket.go:121-125 | nothing is replaced exactly if the text is UTF-8 for legal characters (section 2.2 of XML 1.0) |
| Escapes.EscapeContained | internal/printticket/printticket.go:121-125 | escaped text holds no control character, angle bracket or quote |
| Tickets.LinesShaped | internal/printticket/printticket.go:65-92 | each of the lines can be taken apart by a reader, whatever the attributes |
| Tickets.XCPT | internal/printticket/printticket.go:104-119 | the buffer the method fills is the stream the reader lemmas are about |
| Tickets.WriteInstructions | internal/printticket/printticket.go:108-112 | the loop writes one instruction per line |
| Tickets.BlockIs | internal/printticket/printticket.go:108-113 | a reader gets back exactly the lines, up to the one that enters the document |
| Tickets.StreamRoundTrip | internal/printticket/printticket.go:65-119 | the reader recovers document and attributes for every document and all attribute texts, up to what XML can carry |
| Tickets.CarriedExactly | internal/printticket/printticket.go:65-125 | the attributes come back unchanged exactly if they are made of legal characters |
| Tickets.OneEscape | internal/printticket/printticket.go:102-113 | the header holds exactly one escape character, its first |
| Tickets.JobRoundTrip | internal/printticket/printticket.go:29-45 | through the ticket and back: id, copies, duplex, color, user and document; and the header says so in the printer's own words |
| Tickets.HeaderSays | internal/printticket/printticket.go:65-92 | the text of each element of the header, spelled out |
| Tickets.StreamSpelled | internal/printticket/printticket.go:102-119 | the PJL around the instructions and the document, spelled out |
| Tickets.InstructionSpelled | internal/printticket/printticket.go:108-112 | an instruction is one line that begins with `@PJL XCPT` |
| Tickets.ControlCharacterLost | internal/printticket/printticket.go:121-125 | a user name with a control character is altered |
| Tickets.Ticketed | internal/app/deliver.go:82-83 | the stream for a job tells a reader the job's settings and document, in the printer's own words |
| Inkcov.MatchIsRegex | internal/ghostscript/analyzer.go:40-41 | the matcher matches exactly the words of the regular expression, whose captures are unique |
| Inkcov.MatchIsSound | internal/ghostscript/analyzer.go:40-41 | a match is a word of the language followed by the rest |
| Inkcov.MatchIsComplete | internal/ghostscript/analyzer.go:40-41 | every word of the language is matched, whatever follows |
| Inkcov.ReportRoundTrip | internal/ghostscript/analyzer.go:40-88 | records joined by any digit-free text, even none, yield one match each, in order |
| Inkcov.ValueIsShifted | internal/ghostscript/analyzer.go:90-92 | a coverage is its digits without the point, over a power of ten |
| Inkcov.SpreadIsDifference | internal/ghostscript/analyzer.go:104-106 | the spread exceeds the threshold exactly if two chroma channels differ by more |
| Inkcov.WordsOfLanguage | internal/ghostscript/analyzer.go:40-41 | the words of the expression: numbers, each followed by blanks, and the fixed text |
| Inkcov.ReadPage | internal/ghostscript/analyzer.go:90-98 | one record: unreadable exactly if one of its first three values is out of range, color exactly if two of these differ by more than the threshold |
| Inkcov.ReadRecord | internal/ghostscript/analyzer.go:90-98 | the same in the terms of the whole report |
| Inkcov.BlackIgnored | internal/ghostscript/analyzer.go:90-98 | the fourth value plays no part in the answer |
| Inkcov.CountRecords | internal/ghostscript/analyzer.go:89-101 | pages is the number of matches, colorPages that of matches with two of the first three values further apart than the threshold, an error exactly if one is out of range |
| Inkcov.ParseInkcov | internal/ghostscript/analyzer.go:87-102 | the same of the matches in the output |
| Inkcov.ReadReport | internal/ghostscript/analyzer.go:87-102 | on a report of n records the answer is n, and the color records among them |
| Submission.CostIsPageByPage | internal/quota/quota.go:14-16 | the formula charges the color rate for each color page and one for each other page |
| Submission.SomeColoring | internal/quota/quota.go:14-16 | any count of color pages is that of some pages, so a price paid page by page is one price |
| Submission.CostPositive | internal/app/submit.go:104-120 | the guards make the cost positive, as the CHECK constraints require |
| Submission.Submitter.Screen | internal/app/submit.go:83-118 | which document is refused for which reason, as a table |
| Submission.Submitter.Draft | internal/app/submit.go:101-135 | an admissible document gives a row that meets the CHECK constraints, has each field as asked for and counted, and costs, for every copy, the color rate for each color page and one for each other page |
| Submission.Submitter.Place | internal/app/submit.go:140-154 | what is stored and delivered agrees with what is answered |
| Submission.Submitter.Submit | internal/app/submit.go:82-155 | refused exactly if a guard objects, and then nothing is stored; otherwise the price is positive and paid page by page for every copy, was covered by the balance read exactly if accepted, the row keeps what was asked for, the printer is told what the user asked for, and the final answer says what the user was charged |

## Left out

- Submission.Submitter.Submit: the ticket is built before the delivery starts instead of after the job is marked; it depends on nothing in between.
- Delivery.Deliverer.Deliver: the results of the sends and of the wait are given, and the send deadline is one of the results; contexts and timers are not modelled.
- Inkcov.ParseInkcov: coverages are exact decimals, not 64-bit floats; a value is out of range from a limit on that is a parameter, and the spread is not rounded.
- Stores.Store.CheckQuotaAndStore: the foreign key to the queue is not modelled; its violation is one of the aborts.
- Protocol: the deliverer's destination list is read at one instant with the choice, instead of in two queries.
- Machine integers: all arithmetic is unbounded.
- The distribution of the balancer's choices, and the order of equally old rows in a sweep.
- `XPIF`, which writes the same lines without PJL and has no caller.
- Running Ghostscript and smbclient, temporary files, and the classification of their errors.
- The sweeper's ticker, and the log.
- Login, directory lookup, sessions, roles, web handlers, templates, environment parsing and the migration.
- Listing and searching jobs and queues: queries without an invariant of their own.
