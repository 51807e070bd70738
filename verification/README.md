# BOMHort backend: a verified model

A Dafny model of the parts of the BOMHort backend whose correctness its Go code
decides alone, with proofs of what they are for. `dafny verify dfyconfig.toml`
checks everything.

| files | part of the system |
|---|---|
| `Text.dfy` | the string primitives the rest relies on |
| `Expression.dfy`, `ExpressionPrinter.dfy` | the license-expression tokenizer and parser, the grammar they decide, a printer |
| `Evaluation.dfy`, `LicenseJoin.dfy` | folding an expression into a category; joining several licenses with AND |
| `Exceptions.dfy`, `Compliance.dfy` | the exception index, the compliance check, re-evaluation and the stored rows |
| `Depth.dfy` | dependency depth by breadth-first search |
| `Queue.dfy` | the append-only job queue and its client |
| `ClaimProtocol.dfy` | many workers claiming jobs under a lease: a global transition system |
| `Recheck.dfy` | license rechecks by replicas with different rules |
| `RuleWatcher.dfy` | the watched rules document, conditional GET of sections 13.1.2 and 15.4.5 of RFC 9110 |
| `Vex.dfy`, `VexArrival.dfy` | scoping VEX statements, and the rescue of those that came before their SBOM |
| `Provenance.dfy`, `DepsDev.dfy` | license sources, the resolver chain, the deps.dev resolver and its cache |
| `ProjectGroup.dfy`, `ProjectListing.dfy` | parents of projects, the groups they are listed in, the parent filter |
| `RateLimit.dfy` | the rate limiter |

Code that updates state is modelled by classes, arrays and loops, each proved
against a pure definition; the theorems are about those definitions, over all
inputs or all runs. What a definition decides by, a status, a name, a spelling or a
due time, is stated once more in the fields and characters themselves. Interleaved
behaviour is a step relation in which every database statement is one step and
crashes may come anywhere.

## Where a promise needs a condition

For each of these there are lemmas that show an input, or every input of a family, for
which the promise fails, and the exact condition under which the code keeps it.

- Two license parts one of which starts with "(" and ends with ")" without being
  one group: the join lets an obligation escape (`ExposedPartHidesObligation`,
  exact conditions in `JoinParses` and `ObligationEscapes`).
- A NUL in a package name or license makes an exception cover another pair
  (`NulKeyExemptsAnotherPair`, condition in `IndexAgreesWithScan`).
- A permissive license that only the new rules cover by a blanket exception is not
  re-evaluated to what a fresh check reports, as `reevaluate.go` says itself
  (`LateBlanketIsMissed`, condition in `ReevaluateEqualsFresh`).
- A sweep puts back a job that a live worker has been executing for over an hour, and
  an enqueue of the id of a job that is being executed puts it back when its
  `created_at` is above the claim's; the ids of rechecks are deterministic, so the
  latter needs only a slow replica. A second worker can then claim the job
  (`SweepBreaksExclusion`, `SecondEnqueueBreaksExclusion`). Exclusion holds for every
  other job: the set `hit` has exactly the jobs whose latest row was so replaced under
  a live holder, and for each of them exclusion can be lost (`HitBreaksExclusion`).
- A sweep lists stale claims and writes afterwards. A job that its worker completes in
  between goes back to pending and can be claimed again (`FinishedJobIsPutBack`, conditions
  in `LateSweepUndoesCompletion` and, for every step, `FinishedIsFinal`).
- An empty rules document that appears after a confirmed absence is not parsed, so
  not rejected (`EmptyAfterAbsenceGoesUnnoticed`, condition in `RejectionNoticed`).
- A VEX document replaced without a scope, after a failed lookup or for a statement
  without a product reference, while a rescue is between insert and delete, loses
  the statement (`UnscopingLoses`).
- A VEX job whose insert fails after its delete is made up for by the next try, unless
  a rescue put back some but not all of the document's statements in between: the next
  try then skips the document (`RetryAfterRescue`).
- Two products of one VEX document that share a subcomponent have one vex id and
  one row (`SharedSubcomponentKeepsOneScope`, condition in `EveryScopeKept`).
- A row stored with a check time ahead of the clock of a recheck keeps its outcome
  (`LaterCheckStands`, condition in `RecheckAloneSettles`).
- Versions with an "@" can share a cache key with another package's version, and a
  batch then gives both one license (`AtSignSharesKey`, conditions in `ConcreteBatch`
  and, with versionless purls in the batch, `SourcedBatch`).
- A purl whose version is literally "*" shares its cache key with the purl without a
  version, and is read differently alone and in a batch (`LiteralWildcard`).
- A sleep of the rate limiter is cut to nanoseconds and may fall short
  (`ThirdFallsShort`, conditions in `SleepFallsShort` and `SleepSuffices`).
- A parent that is itself assigned to another parent and heads no group is selected
  by the parent filter but listed elsewhere (`AssignedParentIsListedElsewhere`,
  condition in `MembersAreGroups`).
- Page numbers are multiplied in 64 bits, so a huge one can show names that belong to
  another page (`FarPageIsFirst`, condition in `PageIsTrue` and `PagesCover`).

## Hypotheses

- Queue and claims: live processes have distinct worker ids; a lease acquired at a is
  acquired by no other identity before a plus the renew deadline; a statement of a
  section that lands, lands before the section's deadline, also when its process has
  crashed; a statement of a section that was given up has landed or never will, and so
  has a status write reported as failed; a job id enqueued twice carries the same
  payload. The server clock is arbitrary. A stale claim is found by a sweep while no
  more claims are stale than one sweep takes.
- Rechecks: `created_at` orders enqueues of rechecks; a job id is not shared by two
  different jobs; stored rows are replaced but not deleted; for convergence, the added
  job neither fails nor stalls and no replica is between reading and enqueueing when
  the digests have become one. Replicas' clocks are arbitrary, and so is the order in
  which a recheck reads and writes rows while others store theirs.
- Rules: an ETag names one document, and 304 answers only a request that carries the
  ETag of the document held. Claims are about digests, since an absent and an empty
  document share one.
- VEX: no SBOM id is empty; a product reference names at most one SBOM; vex ids are distinct; a document is
  always parsed to the same statements, which are product-wide exactly when the
  reference is the purl, and is always uploaded with the same target; in the theorems
  on runs, jobs are atomic except inside a rescue; a statement that fails has no effect.
- Resolvers: a resolver gives one answer per purl, alone or batched; resolver names are
  no reasons and explainers give known reasons.
- deps.dev: the backend does not change while it is asked, and a batch is answered as
  single requests are. Which versions share a key, and whether their answers agree, is a
  condition on the purls asked for and the default versions of their packages only.
- Projects have distinct names, fewer than 2^64 of them, and a page size is clamped so
  that adding it to a place in the list does not overflow; the mapping file and the owner of a project are
  arbitrary functions of its signals, and so is the lower case of an owner.
- The rate limiter uses real numbers and a clock that never goes back; for a waiter,
  some sleep ends at least a nanosecond after its deadline.

## Model

| member | source | states |
|---|---|---|
| Expression.Tokenize | backend/internal/license/expression.go:73-114 | the loop over the text yields the token stream that the next three rows determine, and that the parser and the round trips are stated on |
| Expression.TokensAroundDelimiter | backend/internal/license/expression.go:95-112 | for all texts on its two sides, a parenthesis is a token, a comma reads as AND, and each of the four white-space characters only separates |
| Expression.TokenOfWord | backend/internal/license/expression.go:78-94 | a word is AND, OR or WITH in any letter case, and otherwise an identifier as it is written |
| Expression.OperatorInAnyCase | backend/internal/license/expression.go:69-114 | between any two texts, a spaced operator in any letter case is one token and the texts are read for themselves |
| Expression.OrInAnyCase | backend/internal/license/expression.go:84-92 | between any two texts, a spaced OR is one token whichever of its letters are upper-case |
| Expression.AndInAnyCase | backend/internal/license/expression.go:84-92 | between any two texts, a spaced AND is one token whichever of its letters are upper-case |
| Expression.WithInAnyCase | backend/internal/license/expression.go:84-92 | between any two texts, a spaced WITH is one token whichever of its letters are upper-case |
| Expression.Parser.ParseOr | backend/internal/license/expression.go:179-201 | the method leaves the cursor where the recursive reading of the remaining tokens leaves it, and returns that tree or error; cursor and tokens otherwise untouched |
| Expression.Parser.ParseAnd | backend/internal/license/expression.go:203-225 | the same for AND |
| Expression.Parser.ParseWith | backend/internal/license/expression.go:227-246 | the same for WITH, which is refused unless it follows a single license |
| Expression.Parser.ParsePrimary | backend/internal/license/expression.go:248-271 | the same for an identifier or a parenthesised expression, with the error cases |
| Expression.ParseExpression | backend/internal/license/expression.go:156-170 | the cursor parser over the tokenised text agrees with the recursive reading of the whole stream; leftover tokens are an error |
| Expression.ParserDecidesGrammar | backend/internal/license/expression.go:156-271 | for every token stream, parsing succeeds if and only if the SPDX grammar derives the stream with WITH only after single licenses |
| Expression.ParseComplete | backend/internal/license/expression.go:156-271 | every legal derivation, spelled out, is parsed to exactly its tree, consuming every token |
| Expression.ParseSound | backend/internal/license/expression.go:156-271 | every parsed stream has a legal derivation that spells it and whose tree is the result |
| Expression.ParsedIsWellBuilt | backend/internal/license/expression.go:137-149 | every parsed tree has at least two operands in each inner node, at any depth, so no fold meets an empty list |
| ExpressionPrinter.DerivationRoundTrip | backend/internal/license/expression.go:73-271 | the text of any derivation, tokenised and parsed, gives back its tree, whatever redundant parentheses it has |
| ExpressionPrinter.RoundTrip | backend/internal/license/expression.go:73-271 | parse(tokenize(print(t))) is t for every well-formed tree |
| Evaluation.CombineChoice | backend/internal/license/expression.go:388-398 | returns one of the operands, of least severity: permissive if there is one, else unknown, else unapproved, else copyleft |
| Evaluation.CombineConjunction | backend/internal/license/expression.go:400-408 | returns one of the operands, of greatest severity: the same order from the other end |
| Evaluation.StrictIsBoolean | backend/internal/license/expression.go:290-312 | at every threshold, the strict category is at most that severe if and only if the AND/OR formula over the leaves is true |
| Evaluation.PermissiveWinsIsMinimum | backend/internal/license/expression.go:275-312 | the permissive-wins category is the minimum severity over the leaf identifiers |
| Evaluation.PermissiveWinsBelowStrict | backend/internal/license/expression.go:290-312 | permissive-wins is never more severe than strict |
| Evaluation.EvaluateMonotone | backend/internal/license/expression.go:290-371 | making leaves more severe never makes the result less severe, in both modes |
| Evaluation.CategorizeMeans | backend/internal/license/checker.go:168-200 | the category of every license string, in terms of the entries of the policy: unknown for a placeholder, what its entry says for a listed string, unapproved for any other when expressions are off, what the first listed spelling says for a single license, unknown for what does not parse, and else the boolean reading of the expression at every severity, or under permissive-wins its least severe license |
| Evaluation.LeafIsDecided | backend/internal/license/expression.go:314-371 | the category of one license is that of its first listed spelling: as written, before " WITH ", with "-or-later" for "+", before "-with-", with "-only"; without any, a placeholder is unknown and all else unapproved |
| Evaluation.PlaceholderDecided | backend/internal/license/expression.go:324-332 | a placeholder is one of three words in any letter case, or nothing, with any white space around it |
| Evaluation.UnlistedIsUnapproved | backend/internal/license/checker.go:168-200 | in every mode, a single license is unapproved when no entry is one of its spellings or is continued by one with "-" |
| Evaluation.CategoryHasEntry | backend/internal/license/checker.go:168-227 | in every mode, permissive and copyleft come only from an entry of that list, for a spelling of the whole string or of one of its licenses |
| Evaluation.CategorizeBelowStrict | backend/internal/license/checker.go:168-200 | for every string and policy, permissive-wins is never more severe than strict |
| Evaluation.AllowingNeverHurts | backend/internal/license/checker.go:168-227 | allowing more licenses and forbidding no more never makes the category of any string worse, in any mode |
| LicenseJoin.NormalizeLicenses | backend/internal/depsdev/resolver.go:482-497 | one license stands alone, trimmed; several are joined with AND, those that show an operator in parentheses unless they have them; a list with an entry that carries no license gives nothing |
| LicenseJoin.ContainsMeans | backend/internal/depsdev/resolver.go:518-528 | the operator check finds AND, OR or WITH in any letter case exactly where one stands between white space, parentheses and the ends of the text |
| LicenseJoin.OrIsVisible | backend/internal/depsdev/resolver.go:511-528 | an OR token of a legal stream, however it is set off, is one of the white-space fields that the operator check looks at |
| LicenseJoin.PlainPartIsConjunct | backend/internal/depsdev/resolver.go:511-528 | a parsing part in which the operator check sees nothing is no alternative of several licenses, so it may stand bare beside AND |
| LicenseJoin.JoinParses | backend/internal/depsdev/resolver.go:482-528 | parts that parse always join to an expression that parses; it is one conjunction if and only if no part is exposed, that is, begins with "(" and ends with ")" and has an OR outside every parenthesis, and a choice otherwise |
| LicenseJoin.JoinKeepsMeaning | backend/internal/depsdev/resolver.go:482-528 | with no exposed part, the strict category of the joined expression is the worst of the parts' categories, at every threshold |
| LicenseJoin.JoinIsBestPiece | backend/internal/depsdev/resolver.go:482-528 | for all parts, exposed or not, the strict category of the joined expression is that of its best piece, where AND binds only the neighbouring alternatives of exposed parts together |
| LicenseJoin.ObligationEscapes | backend/internal/depsdev/resolver.go:482-528 | the exact limit: the joined expression is below a part if and only if all members of some piece are below that part |
| LicenseJoin.ExposedPartHidesObligation | backend/internal/depsdev/resolver.go:511-516 | the false case: the parts "(A) OR (B)" and "B" join to an expression that is permissive although B is not |
| Depth.BuildGraph | backend/internal/depgraph/depth.go:126-151 | the adjacency map lists exactly the in-range edges of the relationships; each in-degree is the number of edges into the package, and the edge count the number of edges |
| Depth.EdgeIsSaid | backend/internal/depgraph/depth.go:126-151 | there is an edge from u to v exactly when both are in range and different and some relationship says that u depends on v: from source to target if its type spells one of fifteen names, from target to source for nine others |
| Depth.DirectionIsSpelled | backend/internal/depgraph/depth.go:78-101 | a type has the direction of the name it spells when underscores are skipped and case is ignored, and none otherwise |
| Depth.DirectionsOfDependency | backend/internal/depgraph/depth.go:78-101 | a relationship of type "DEPENDS_ON" points from its source to its target, one of type "DEPENDENCY_OF" the other way |
| Depth.DescribesIsNoDependency | backend/internal/depgraph/depth.go:78-101 | no type that begins with "DES" is a dependency in either direction |
| Depth.Seed | backend/internal/depgraph/depth.go:153-165 | roots start at 0 and other direct seeds at 1, each queued once, roots first |
| Depth.InferRoot | backend/internal/depgraph/depth.go:167-185 | finds the only package without incoming and with outgoing edges, or reports that there is not exactly one |
| Depth.Compute | backend/internal/depgraph/depth.go:117-202 | terminates, and gives every package the cost of a cheapest walk from a root, a seed or the inferred root, and Unknown when there is none of at most 65534; read off the relationships, a dependency is at most one deeper than what depends on it, roots are at 0, seeds at most at 1, and every other known depth is one more than that of some dependant |
| Depth.ShortestWalk | backend/internal/depgraph/depth.go:187-202 | no walk is shorter than the depth the finished search has assigned to its end, and unreached packages have no walk |
| Depth.DepthIsShortest | backend/internal/depgraph/depth.go:117-202 | an assigned depth is attained by an actual path and is at most the cost of every path; Unknown means every path is longer than 65534 |
| Depth.MinDepthForPurl | backend/internal/depgraph/depth.go:207-218 | the least depth of the packages with the purl, Unknown if there is none |
| Exceptions.BuildIndex | backend/internal/license/exceptions.go:146-190 | under every key the maps hold exactly the approved rules that name it, in file order, a rule once per license it lists; the last blanket exception of a license wins |
| Exceptions.IsExempt | backend/internal/license/exceptions.go:207-277 | the walk with early returns computes the decision the theorems are about, and a missing index exempts nothing |
| Exceptions.IndexAgreesWithScan | backend/internal/license/exceptions.go:146-277 | the index exempts a pair if and only if an approved entry of the file, read one by one, covers it, or another rule's NUL-joined pair is the same text: approved and allowlisted in any case, the license or a base of it at a dash for a blanket entry, the package or its tail behind a slash, an empty, "*", "all ... projects" or equal project, and no license or one of those the field names |
| Exceptions.NulFreeNamesAgree | backend/internal/license/exceptions.go:146-277 | with NUL-free package names the index and the scan agree exactly |
| Exceptions.LongestBase | backend/internal/license/exceptions.go:217-224 | the walk over dashes quotes the longest blanket-covered base of the license, and names it |
| Exceptions.ReasonQuotesItsRule | backend/internal/license/exceptions.go:207-277 | the reason quotes id and comment of the last blanket entry of the license, or else of some rule that covers the pair |
| Exceptions.ProjectMeans | backend/internal/license/exceptions.go:279-297 | a scope covers a project if, trimmed, it is empty, a star, the words all and projects in any case with at most one word between them, or exactly the project's name |
| Exceptions.LicensesMean | backend/internal/license/exceptions.go:186-205 | a license field names the licenses of its expression, or its whole trimmed text when that does not parse |
| Exceptions.KeyInjective | backend/internal/license/exceptions.go:146-190 | NUL-joined keys of NUL-free names tell pairs apart |
| Exceptions.NulKeyExemptsAnotherPair | backend/internal/license/exceptions.go:146-277 | the false case: a rule for "a" under "b NUL c" exempts "a NUL b" under "c" |
| Compliance.CheckWithExceptions | backend/internal/license/checker.go:248-322 | one entry per license that some package carries, temporary directories apart; it counts those packages in 32 bits and lists each as often as it occurs: all as exempted under a blanket exception, none for any other permissive license, and otherwise each on the side the rules put it |
| Compliance.CountPackage | backend/internal/license/checker.go:273-307 | one more package turns the outcome of the packages so far into the outcome of all of them, the 32-bit counter included |
| Compliance.Reevaluate | backend/internal/license/reevaluate.go:25-55 | the loop re-splits the stored lists as the pure definition does that the theorems are about |
| Compliance.SameMultiset | backend/internal/license/reevaluate.go:65-79 | comparing sorted copies element by element decides equality of multisets |
| Compliance.CompareOutcomes | backend/internal/license/reevaluate.go:59-63 | decides whether reason and both package lists agree, in any order |
| Compliance.ReevaluateEqualsFresh | backend/internal/license/reevaluate.go:25-55 | re-evaluating a stored result under other rules has the outcome of a fresh check, if and only if it is not a permissive license with packages that only the new rules cover by a blanket exception |
| Compliance.LateBlanketIsMissed | backend/internal/license/reevaluate.go:25-55 | the false case: a package under MIT that no rule exempted and then a blanket rule does |
| Compliance.ChainEqualsFresh | backend/internal/license/reevaluate.go:25-55 | after any series of rule changes the outcome is that of a fresh check under the last rules, and no package was lost or invented |
| Compliance.ReevaluateIdempotent | backend/internal/license/reevaluate.go:25-55 | a second re-evaluation under the same rules changes nothing |
| Compliance.SplitConserves | backend/internal/license/checker.go:290-307 | splitting into violations and exempted packages conserves the multiset of packages |
| Compliance.OutcomesFollowRules | backend/internal/license/reevaluate.go:25-55 | with an index built from a rules file, the packages of a license that can be violated are listed as exempted if and only if an approved rule of the file, read one by one, covers them, at the check and after any re-evaluation |
| Compliance.ComplianceStore.ProcessRecheck | backend/cmd/parsing-worker/license_recheck.go:167-204 | on success every stored row is re-evaluated; when a batch fails each row is either as before or re-evaluated |
| Compliance.ComplianceStore.CollectChanged | backend/cmd/parsing-worker/license_recheck.go:171-192 | exactly the rows whose outcome changes are collected, each with its final value |
| Compliance.UpsertProgresses | backend/cmd/parsing-worker/license_recheck.go:196-201 | each batch brings its rows to the goal and takes no row away from it |
| Queue.LatestIsArgMax | backend/internal/clickhouse/queue.go:75-98 | the entry of a job has its least created_at, and a row that attains the greatest; there is one entry per job that has a row |
| Queue.JobQueue.SelectJobs | backend/internal/clickhouse/queue.go:101-122 | returns matching jobs only, as their latest rows have them, oldest first, without repeats, and leaves none out but younger ones beyond the limit |
| Queue.JobQueue.EnqueueJob | backend/internal/clickhouse/queue.go:22-67 | one pending row in nobody's name, of type sbom when none is given |
| Queue.JobQueue.ReleaseOwnClaims | backend/internal/clickhouse/queue.go:145-156 | only jobs whose latest row is processing for the worker change, and below 10000 all of them: to pending, nobody's, due at once, with payload and place kept; every other entry stays |
| Queue.JobQueue.RequeueStaleJobs | backend/internal/clickhouse/queue.go:321-332 | only jobs whose latest row is processing with a claim over 3600 seconds old change, and below 10000 all of them: to pending, nobody's, due at once, with payload and place kept; every other entry stays, so no finished job is run again |
| Queue.JobQueue.ClaimDueJobs | backend/internal/clickhouse/queue.go:158-234 | the claims are pending jobs whose time has come, first in min_created order, each now processing for the worker in the very row written, one version above; every other entry stays, and none is passed over below the limit |
| Queue.JobQueue.ClaimJobs | backend/internal/clickhouse/queue.go:129-143 | releasing comes before claiming, and the claims are due in the table the release left |
| Queue.MarkClaimed | backend/internal/clickhouse/queue.go:172-181 | the in-place loop gives every job a version above the one it read, the worker and the claim time, and keeps the rest |
| Queue.JobQueue.KeepOwned | backend/internal/clickhouse/queue.go:219-233 | keeps exactly the claims that the table confirms as processing for the worker, in order |
| Queue.JobQueue.OwnClaimedJobIDs | backend/internal/clickhouse/queue.go:238-273 | the ids whose latest row is processing for the worker |
| Queue.JobQueue.DeferJob | backend/internal/clickhouse/queue.go:310-315 | the job becomes pending and unclaimed, strictly above the version in hand, if and only if nothing newer was written or the server clock has passed it; its payload, its place and every other job stay |
| Queue.JobQueue.CompleteJob | backend/internal/clickhouse/queue.go:287-293 | the same with done, keeping the claim |
| Queue.JobQueue.FailJob | backend/internal/clickhouse/queue.go:296-302 | the same with failed and its message, keeping the claim |
| Queue.TransitionTakesEffect | backend/internal/clickhouse/queue.go:275-285 | a transition written against a version takes effect if and only if max(now, version + 1) is above the latest row; against the latest version it always does |
| Queue.ChangeWrites | backend/internal/clickhouse/queue.go:22-315 | the row of an enqueue, a claim, a deferral, a completion and a failure, column by column |
| Queue.LogRefinesMap | backend/internal/clickhouse/queue.go:75-98 | read through the latest rows, every run of the append-only log equals the run of a plain map that overwrites, whatever the server clock shows at each step |
| Queue.RunConserves | backend/internal/clickhouse/queue.go:181-315 | no run changes a job's payload or its min_created, and versions only rise |
| ClaimProtocol.StepKeeps | backend/internal/clickhouse/queue.go:129-332 | the invariant of queue, lease and workers holds after every single database statement, tick, crash or restart |
| ClaimProtocol.HolderOwnsLatestRow | backend/internal/clickhouse/queue.go:221-273 | in every reachable state a job held by a live worker has, as latest row, the claim that worker wrote, unless a sweep or an enqueue replaced that row under a live holder (the set hit) |
| ClaimProtocol.OneHolder | backend/internal/clickhouse/queue.go:129-273 | no two live processes ever hold one job that was not hit |
| ClaimProtocol.AcceptedSectionsDisjoint | backend/internal/claimlock/lock.go:96-128 | accepted critical sections follow one another: each ends before the next lease acquisition |
| ClaimProtocol.AcquireKeeps | backend/internal/claimlock/lock.go:17-35 | taking the lease keeps the invariant: nobody else may still write, because the hold time is counted from before acquisition and is below the renew deadline |
| ClaimProtocol.ReleaseSparesHeldJobs | backend/internal/clickhouse/queue.go:124-156 | releasing orphaned claims never puts back a job some live worker is executing |
| ClaimProtocol.ClaimSparesHeldJobs | backend/internal/clickhouse/queue.go:184-219 | a claim is only ever written on a pending job that nobody holds |
| ClaimProtocol.HitsAreBlind | backend/internal/clickhouse/queue.go:321-332 | a job can only become such an exception by a sweep write or an enqueue of that very job |
| ClaimProtocol.QueriesRead | backend/internal/clickhouse/queue.go:124-323 | in the columns of the rows: a sweep reads only processing jobs with a claim over 3600 seconds old, a release only the worker's own processing jobs, all of them below 10000, and a claim only pending jobs whose time has come |
| ClaimProtocol.WritesFollowTheirReads | backend/internal/clickhouse/queue.go:124-332 | in every run, what is swept, released or concluded was, in the version read, a row of the log processing for that worker, and what is claimed was a pending one |
| ClaimProtocol.ConclusionLands | backend/internal/clickhouse/queue.go:275-315 | a live holder's conclusion always becomes the latest row, just above its claim or at the clock, with the status, message and due time of its outcome |
| ClaimProtocol.FinishedIsFinal | backend/internal/clickhouse/queue.go:287-332 | a done or failed job keeps its row through a step if and only if the step is no sweep write or enqueue of that job whose row comes above it; such a step makes the job pending again |
| ClaimProtocol.LateSweepUndoesCompletion | backend/internal/clickhouse/queue.go:321-332 | the exact limit: when a worker completes a job between the read and the write of a sweep, the job is pending again if and only if the clock at the write has passed the completion |
| ClaimProtocol.FinishedJobIsPutBack | backend/internal/clickhouse/queue.go:321-332 | the false case, as a run from the start: enqueued, claimed, read by a sweep an hour later, completed, and pending again |
| ClaimProtocol.RunConserves | backend/internal/clickhouse/queue.go:75-98 | no run loses a job, changes its payload, lowers its version or, without a second enqueue, moves it in the claim order |
| ClaimProtocol.SweepRecovers | backend/cmd/parsing-worker/main.go:200-225 | in every reachable state, a job left processing that no live worker holds is put back to pending by every sweep that runs over an hour after its claim, whatever the clock shows when it writes, with nothing else changed and nobody hit |
| ClaimProtocol.OwnerRecovers | backend/internal/clickhouse/queue.go:124-156 | a live worker that no longer holds a job still marked as its own puts it back in its next poll, step by step, once the lease has run out |
| ClaimProtocol.NoJobLost | backend/cmd/parsing-worker/main.go:226-287 | after any run each job has the payload it was enqueued with and is finished, pending or held by a live worker, or is a claim nobody holds, which every late enough sweep and the next poll of its worker put back |
| ClaimProtocol.IdleWorkerClaims | backend/internal/clickhouse/queue.go:129-234 | an idle worker can always complete a poll that claims a due job |
| ClaimProtocol.ClaimHappens | backend/internal/clickhouse/queue.go:22-67 | from the start, any enqueued job can reach a live worker that executes it, so none of the above holds for want of claims |
| ClaimProtocol.HitBreaksExclusion | backend/internal/clickhouse/queue.go:129-332 | the exact limit: wherever a step hits a held job, an idle worker can go on to claim and execute it while the first still holds it |
| ClaimProtocol.SweepBreaksExclusion | backend/internal/clickhouse/queue.go:317-332 | the false case: a live worker that executes a job for over an hour is swept, and a second worker can execute it too |
| ClaimProtocol.SecondEnqueueBreaksExclusion | backend/internal/clickhouse/queue.go:22-67 | the false case: so can a job whose id is enqueued again with a created_at above its claim |
| Recheck.LatestLicenseRecheck | backend/internal/clickhouse/queries_license_recheck.go:26-49 | the recheck enqueued last by min(created_at), ties by job id, or none |
| Recheck.EnsureLicenseRecheck | backend/cmd/parsing-worker/license_recheck.go:76-112 | the queue is unchanged if the newest recheck is for the digest and has neither failed nor been processing for over an hour, and otherwise gains one pending row under the id derived from that recheck and the digest, with every column |
| Recheck.RunLicenseRecheckJob | backend/cmd/parsing-worker/license_recheck.go:121-144 | with other rules than the job's the store stays untouched and the job completes if and only if it is superseded; with its rules success means every row is re-evaluated |
| Recheck.NewestCompletedWasProcessed | backend/cmd/parsing-worker/license_recheck.go:121-204 | in every run of many replicas, a completed recheck that is still the newest was run with exactly the rules it was queued for, and each row stored when it began has since been stored as those rules decide, or with a later check time |
| Recheck.RecheckSettles | backend/cmd/parsing-worker/license_recheck.go:48-59 | once all replicas have one set of rules, a recheck that runs to its end leaves every stored row as those rules decide, whatever was ingested or rechecked between its reads and writes, if no row was stored ahead of its clock |
| Recheck.RecheckAloneSettles | backend/cmd/parsing-worker/license_recheck.go:167-204 | the condition is exact: while nobody else stores rows, a recheck settles all of them if and only if no unsettled row was stored with a check time ahead of its clock |
| Recheck.RecheckRuns | backend/cmd/parsing-worker/license_recheck.go:167-204 | a recheck can always run to its end, and by itself it rewrites exactly the rows whose reason or lists change, at its own time, and leaves every other row with its check time |
| Recheck.LaterCheckStands | backend/cmd/parsing-worker/license_recheck.go:167-204 | no write of a recheck changes a row with a check time ahead of its clock |
| Recheck.SettledStays | backend/cmd/parsing-worker/license_recheck.go:48-59 | while all replicas have one set of rules, settled rows stay settled through ingests and rechecks, finished or given up half-way |
| Recheck.FreshIsSettled | backend/internal/license/checker.go:248-322 | a freshly checked row is settled under the rules it was checked with |
| Recheck.ConvergedAddsOneJob | backend/cmd/parsing-worker/license_recheck.go:71-102 | once all replicas hold one digest, however reads and enqueues interleave and whatever other jobs come, at most one recheck is added: the successor of the newest |
| Recheck.AddedJobCovers | backend/cmd/parsing-worker/license_recheck.go:71-102 | the added job is the newest recheck and covers the digest at once |
| RuleWatcher.FetchFile | backend/internal/rulesource/source.go:126-138 | the first existing path decides: its content, or a failure when it cannot be read; not found means every path is missing |
| RuleWatcher.Fetcher.Fetch | backend/internal/rulesource/source.go:177-210 | the remembered ETag changes only with a document that was received whole |
| RuleWatcher.Watcher.Refresh | backend/internal/rulesource/watcher.go:62-102 | the step on ETag and snapshot that the theorems are about; changed is reported exactly when the digest changed or the first document loaded |
| RuleWatcher.NoErrorMeansCurrent | backend/internal/rulesource/watcher.go:62-102 | after any refreshes, no error means loaded, with the digest of what the source held at the last refresh, also when it answered 304 |
| RuleWatcher.SnapshotIsLastAccepted | backend/internal/rulesource/watcher.go:62-102 | the snapshot is always the one loaded from the document accepted last, apart from the error flag |
| RuleWatcher.RejectionIsNeverMasked | backend/internal/rulesource/watcher.go:83-95 | a rejected document stays an error as long as the source holds it, through failures and conditional requests |
| RuleWatcher.RejectionNoticed | backend/internal/rulesource/watcher.go:76-95 | a document that does not parse is noticed if and only if its digest is not the current one; the ETag is then forgotten and the snapshot kept |
| RuleWatcher.EmptyAfterAbsenceGoesUnnoticed | backend/internal/rulesource/source.go:242-247 | the false case: an empty document after a confirmed absence is taken for unchanged |
| RuleWatcher.RunKeeps | backend/internal/rulesource/watcher.go:19-35 | Ready never reverts, and a remembered ETag always names the current document |
| RuleWatcher.DigestChangesOnAcceptance | backend/internal/rulesource/watcher.go:22-27 | the digest changes exactly when a document is accepted |
| Vex.ScopeVEXStatements | backend/cmd/parsing-worker/vex_scope.go:43-103 | each statement gets the explicit target, else the newest SBOM that carries its reference as id, repository, namespace or name, else the newest that carries the normalised reference, and stays as it was otherwise or when the lookups fail; a product-wide one then covers all components |
| Vex.LookupIsNewest | backend/internal/clickhouse/vex_scope.go:25-53 | a lookup finds the id of the first SBOM in the list that carries the reference in one of four fields, and nothing if none does |
| Vex.VexStore.ProcessVEXJob | backend/cmd/parsing-worker/main.go:321-383 | a fully scoped document is skipped, any other replaced by its statements scoped now; with each database statement that may fail, whether the job succeeds and what the table then is |
| Vex.VexStore.RescueUnscopedVEX | backend/cmd/parsing-worker/vex_rescue.go:41-83 | scoped copies go in before the unscoped originals go out; a failing insert leaves the table as it was, a failing delete leaves both |
| Vex.VexStore.CollectRescued | backend/cmd/parsing-worker/vex_rescue.go:41-70 | the copies to insert are of found rows, each for the product that its reference, or its purl where it has none, names now; a found row has its copy among them if and only if that product is found |
| Vex.VexStore.QueryUnscopedVEXStatements | backend/internal/clickhouse/vex_rescue.go:16-52 | exactly the rows without a scope |
| Vex.VexStore.DeleteUnscopedVEXStatements | backend/internal/clickhouse/vex_rescue.go:88-99 | a row survives, unchanged, if and only if it has a scope or is of another id |
| VexArrival.ResolveAgrees | backend/internal/clickhouse/vex_scope.go:25-53 | a lookup among some of the SBOMs finds the right one or none, and the right one once they are all there |
| VexArrival.StepKeeps | backend/cmd/parsing-worker/vex_rescue.go:41-83 | every row stays a scoped or unscoped copy of an arrived statement, and no statement is without a copy, after every step of jobs, rescues and crashes |
| VexArrival.NothingIsLost | backend/cmd/parsing-worker/vex_rescue.go:31-36 | at every point of every run, in the middle of rescues and after their crashes, each statement of each arrived document is in the table |
| VexArrival.UnscopingLoses | backend/cmd/parsing-worker/main.go:358-376 | the exact limit: a document replaced without a scope between a rescue's insert and its delete loses the statement |
| VexArrival.HealthyNeverUnscopes | backend/cmd/parsing-worker/vex_scope.go:67-101 | the limit is never met when no lookup fails and every statement names its product |
| VexArrival.HealthyRunsLoseNothing | backend/cmd/parsing-worker/vex_rescue.go:31-40 | from the start, no order of such jobs, SBOMs, rescues and crashes loses a statement |
| VexArrival.RescueSparesScoped | backend/internal/clickhouse/vex_rescue.go:83-99 | no step of a rescue removes a scoped row or changes its scope or content |
| VexArrival.EveryOrderConverges | backend/cmd/parsing-worker/vex_rescue.go:18-83 | once all SBOMs are in, one rescue that reads, looks up row by row, inserts and deletes brings the table to each statement scoped to its SBOM, whatever came before and runs between any two of its steps |
| VexArrival.AllSbomsFirst | backend/cmd/parsing-worker/vex_scope.go:43-103 | the same table results when all SBOMs came first |
| VexArrival.RetryCompletes | backend/cmd/parsing-worker/main.go:336-380 | a job whose insert failed after the delete, run again, leaves what it would have left at once |
| VexArrival.RetryAfterRescue | backend/cmd/parsing-worker/main.go:336-380 | the exact limit: with a rescue inserting in between, every statement of the document is there afterwards if and only if the rescue put back none of them or all |
| VexArrival.EveryScopeKept | backend/internal/vex/parser.go:176-190 | for all documents that are not skipped, each statement is in the table with the scope found for it if and only if no two statements become different rows of one key |
| VexArrival.SharedSubcomponentKeepsOneScope | backend/internal/vex/parser.go:176-190 | the false case: two products of one document with a common subcomponent keep the scope of only one |
| Provenance.CacheValueRoundTrip | backend/internal/license/source.go:44-71 | a reason survives encoding and splitting; a license does if and only if it does not begin with the marker |
| Provenance.WithModifierMeans | backend/internal/license/source.go:74-84 | a modifier is appended behind a plus sign, unless there is no source or no modifier or it stands behind a plus sign already |
| Provenance.WithModifierIdempotent | backend/internal/license/source.go:74-84 | a modifier is recorded once |
| Provenance.RecordSource | backend/cmd/parsing-worker/registry_resolvers.go:179-190 | only entry i changes, and none when the sources are missing |
| Provenance.ApplyBatch | backend/cmd/parsing-worker/registry_resolvers.go:130-159 | the two loops around a batch request leave each package as if offered to the resolver alone |
| Provenance.ApplySingle | backend/cmd/parsing-worker/registry_resolvers.go:160-172 | the loop of single requests does the same |
| Provenance.ApplyRegistryResolvers | backend/cmd/parsing-worker/registry_resolvers.go:127-177 | resolver after resolver over the arrays leaves each package as if it alone had gone through the chain |
| Provenance.ChainFirstAnswer | backend/cmd/parsing-worker/registry_resolvers.go:121-126 | the chain ends with the first resolver whose answer is no placeholder, and records that resolver |
| Provenance.AskGitHub | backend/cmd/parsing-worker/license_provenance.go:42-58 | succeeds if and only if GitHub could be asked about every package that needs it, and then gives exactly those packages its answer |
| Provenance.FindReason | backend/cmd/parsing-worker/license_provenance.go:103-127 | first-party for a root or an own package, no-purl, unsupported-ecosystem for a type that is none of eight in any case, else the reason of the last resolver that explains the purl, else unresolved |
| Provenance.FirstPartyMeans | backend/cmd/parsing-worker/first_party.go:34-57 | an own package is an npm purl whose version before the qualifiers is that of a workspace, or a Maven purl whose group begins with the unexpanded project property, its two signs written out or percent-encoded |
| Provenance.ExplainUnresolved | backend/cmd/parsing-worker/license_provenance.go:86-101 | exactly the packages still unknown get their reason as source |
| Provenance.ResolvePackageLicenses | backend/cmd/parsing-worker/license_provenance.go:33-72 | the passes over parallel arrays equal resolving each package alone, or stop because GitHub could not be asked |
| Provenance.Precedence | backend/cmd/parsing-worker/license_provenance.go:17-32 | declared, else github, else the first resolver with a real answer, marked +latest where the newest release answered, else still unknown |
| Provenance.NormalizedMeans | backend/cmd/parsing-worker/license_provenance.go:64-69 | a license that normalisation changes is replaced and its source marked +normalized once |
| Provenance.ReasonIffUnknown | backend/cmd/parsing-worker/license_provenance.go:82-127 | a source entry is an unresolved reason if and only if the license is still unknown |
| DepsDev.CacheKeyInjective | backend/internal/depsdev/resolver.go:71-73 | cache keys tell versions apart when no version has "@" and no system ":" |
| DepsDev.PlainVersionsConsistent | backend/internal/depsdev/resolver.go:71-73 | so purls whose versions, and their packages' default versions, have no "@" never share a key |
| DepsDev.LicenseMeans | backend/internal/depsdev/resolver.go:81-127 | the license of a purl is what deps.dev has for its version, or for the default version when it has none or "*"; a marked reason is no license |
| DepsDev.ResolverCache.StoreValue | backend/internal/license/cache.go:45-50 | the cache holds what it held and the value, unless that is empty; an empty value never enters it |
| DepsDev.ResolverCache.PreloadCache | backend/internal/license/cache.go:58-64 | seeding keeps every definite entry and skips the empty ones |
| DepsDev.Resolver.Resolve | backend/internal/depsdev/resolver.go:81-102 | the license of an answer that counts as the backend's for the version wanted, from any coherent cache, which stays coherent; from an empty cache exactly that answer |
| DepsDev.Resolver.ResolveOneValue | backend/internal/depsdev/resolver.go:111-127 | cached or fetched, and cached when definite |
| DepsDev.Resolver.CollectPending | backend/internal/depsdev/resolver.go:149-170 | each purl is unsupported, answered from the cache or waiting under the key of the version it wants |
| DepsDev.Resolver.QueueDefaults | backend/internal/depsdev/resolver.go:187-207 | each versionless purl's license is known or can be had from a queued or cached default version |
| DepsDev.Resolver.FetchItems | backend/internal/depsdev/resolver.go:209-228 | batched or one by one, every item ends up with the backend's answer |
| DepsDev.Resolver.ResolveBatch | backend/internal/depsdev/resolver.go:148-253 | every supported purl is answered, all purls of one key alike, with what counts as the backend's answer for each version of the key, from any coherent cache, which stays coherent |
| DepsDev.BatchAnswers | backend/internal/depsdev/resolver.go:148-253 | from any coherent cache, as long as versions that share a key have one license, a batch gives each purl its own license, "*" and versionless purls included |
| DepsDev.SourcedBatch | backend/internal/depsdev/resolver.go:148-253 | the exact limit, versionless purls included: from an empty cache, when no wildcard shares its key with another version, all purls get their own license if and only if no two whose answers come from one key have different licenses |
| DepsDev.ConcreteBatch | backend/internal/depsdev/resolver.go:148-253 | for purls with versions the condition is on shared keys alone |
| DepsDev.AtSignSharesKey | backend/internal/depsdev/resolver.go:71-73 | the false case: "pkg:npm/a@1%402" and "pkg:npm/a@1@2" share a key |
| DepsDev.LiteralWildcard | backend/internal/depsdev/resolver.go:81-253 | from an empty cache, Resolve and ResolveBatch give a purl the same license, unless its version is literally "*": then if and only if the backend has one license for it and for the default version |
| ProjectGroup.TagParentIsFirst | backend/internal/projectgroup/projectgroup.go:144-158 | the tag parent is the alphabetically first tag that names another project |
| ProjectGroup.FamilyLabel | backend/internal/projectgroup/projectgroup.go:167-177 | the owner as written by the alphabetically first member, in whatever order the members come |
| ProjectGroup.AssignFamily | backend/internal/projectgroup/projectgroup.go:115-139 | a single top-level member heads the family, without one two or more members share the label, otherwise nothing is assigned |
| ProjectGroup.Resolve | backend/internal/projectgroup/projectgroup.go:75-142 | each project is placed by the mapping file, else by the parent given at ingest, else by the alphabetically first tag that names another project, else by the family of its owner among the projects left to theirs; there is no other entry |
| ProjectGroup.OrderIndependent | backend/internal/projectgroup/projectgroup.go:75-142 | the same projects in any order, with any order of families, resolve to the same map |
| ProjectListing.GroupProjects | backend/internal/clickhouse/queries_project_groups.go:124-137 | each group is exactly the projects whose group name it is, in order, and no group is empty |
| ProjectListing.GroupsPartition | backend/internal/clickhouse/queries_project_groups.go:96-137 | listing all groups lists every project exactly once |
| ProjectListing.BuildGroup | backend/internal/clickhouse/queries_project_groups.go:208-241 | member and SBOM counts are those of the members, the newest ingest is the greatest of theirs |
| ProjectListing.CountsConserved | backend/internal/clickhouse/queries_project_groups.go:206-252 | project and SBOM counts over all groups add up to those over all projects |
| ProjectListing.PagesCover | backend/internal/clickhouse/queries_project_groups.go:154-163 | the pages of any size, one after the other, are the list, nothing twice and nothing left out, if and only if none of them is so far behind that its place wraps around |
| ProjectListing.PageIsTrue | backend/internal/clickhouse/queries_project_groups.go:154-163 | a page is the part of the list it stands for if and only if its place does not wrap around to one that has names; page 0 is page 1 |
| ProjectListing.FarPageIsFirst | backend/internal/clickhouse/queries_project_groups.go:154-163 | the false case: page 2^63 + 1 of two names each is the first page |
| ProjectListing.ParentMembers | backend/cmd/api-gateway/vuln_filter.go:39-55 | the parents, and every project assigned to one that heads no group of its own, without repeats |
| ProjectListing.MembersAreGroups | backend/cmd/api-gateway/vuln_filter.go:36-55 | the filter selects the projects listed under the parents if and only if no parent is itself listed under another; heading a group or being unassigned suffices |
| ProjectListing.AssignedParentIsListedElsewhere | backend/cmd/api-gateway/vuln_filter.go:36-55 | the false case: a parent that is itself assigned to another and heads no group |
| RateLimit.TokenBucket.Try | backend/internal/ratelimit/ratelimit.go:33-47 | one pass refills, caps, and takes a token or computes the sleep |
| RateLimit.TokenBucket.Wait | backend/internal/ratelimit/ratelimit.go:31-55 | a waiter without competition is granted at once, or after at most n + 1 sleeps when the n-th ends at least a nanosecond late, and is refused only when cancelled during a sleep |
| RateLimit.SleepSuffices | backend/internal/ratelimit/ratelimit.go:47-53 | a token is there if and only if the shortfall has been slept off and the bucket can hold one |
| RateLimit.SleepFallsShort | backend/internal/ratelimit/ratelimit.go:47-53 | the computed sleep, cut to nanoseconds, falls short of that by less than one, and by nothing exactly for whole nanoseconds |
| RateLimit.ThirdFallsShort | backend/internal/ratelimit/ratelimit.go:47-53 | the false case: at three tokens a second the sleep for a whole token ends without one |
| RateLimit.GrantsAreBounded | backend/internal/ratelimit/ratelimit.go:31-55 | in every run and every interval [s, t] at most burst + rate * (t - s) calls are granted |
| RateLimit.TokensStayInRange | backend/internal/ratelimit/ratelimit.go:37-41 | tokens stay between 0 and the maximum |
| RateLimit.SmallBucketNeverGrants | backend/internal/ratelimit/ratelimit.go:20-29 | a bucket with a burst below one never grants |

## Left out

- HTTP handlers, authentication, upload, the MCP server, the UI and the listings beside
  the project groups: input, output and presentation.
- SQL beyond latest row per job, filters, order and limit; the connection and batch
  interfaces, and FixedString and LowCardinality encodings.
- Ties of `created_at` within one job: the model reads the row inserted first; the
  theorems show that transitions of the latest row never tie.
- client-go leader election, renewal, goroutines and channels: the lease is the abstract
  fact above, and a critical section is its database statements. The local gate that
  serialises callers inside one process is not modelled apart from a process having at
  most one section.
- A claim batch is modelled row by row, in any order, each with its own reading of the
  server clock, which covers the batch with one reading.
- `KnownHashes`, the document store, SBOM ingest itself and its commit marker.
- The text of deferral reasons beyond those of the claim release and the sweep, and of
  error positions in license expressions.
- Upper and lower case are those of ASCII and of the four other code points whose case
  mapping is an ASCII letter, in expressions, rules and statuses, which are compared with
  ASCII words only; the lower case of an owner is an arbitrary function.
- `license.Normalize` and `license.Recover` are arbitrary functions, the policy lists arbitrary sets;
  `NormalizeLicenseDetails` differs from the modelled join only in how parts are cleaned.
- Which rule's reason is quoted when several rules of one lookup match is the first in
  file order, as the index holds them; the scan states whether a pair is exempt.
- The number of packages each resolver resolved is logged only, and so not modelled.
- The deps.dev HTTP requests, paging tokens and the rate limiter's waits inside them.
- purl parsing (`extractPackage`) is an arbitrary function.
- The search filter, the sort by lower-cased name, tags, sources and owners of a project
  group row.
- Recheck.RunLicenseRecheckJob: covers one job with nobody else at the rows; that other
  jobs store rows between its reads and writes is in the run theorems.
- Queue.JobQueue.ClaimJobs: states the poll with nobody else writing; interleavings are
  in `ClaimProtocol`.
- A VEX job's failing existence check and its lost insert are in `ProcessVEXJob` and in
  `RetryAfterRescue`, but not among the steps of the VEX runs.
- DepsDev.BatchAnswers: one license per shared key is stated as sufficient only; both
  directions are in `SourcedBatch`, for an empty cache.
- DepsDev.SourcedBatch: covers no batch in which a wildcard shares its key with another
  version, where the answer depends on which purl comes first.
