# Identity: sessions, organization tree, access, roles, forms, and the cache in front of them

A Dafny model of the identity service (`src/v1/01_identity`) and of the gateway's CEO screen (`src/v1/00_gateway`).
Operations that change rows or fields are classes and methods with the source's loops, each tied to a pure function;
the properties are lemmas about those functions, over every input and every run.

The modules, by what they model:

- **Epoch cache** — `EpochCache`, `EpochDebts`: the protocol as interleaved steps of any number of processes and
  requests, with a version on every entry; `AuthCache`: the cache object and the read-through helpers, each call shown
  to be a run of those steps; `ChangeTracking`: which commits bump the epoch.
- **Organization tree** — `Paths`, `OrgTree`, `OrgTreeSafety`: parent pointers and materialized paths kept as two
  records that must agree; `UnitVerticals`: what a unit inherits, read off its path.
- **Access** — `AccessControl`: grants, the checks, the user list's filter; `ActorAnswer`: what other services are told.
- **Sessions** — `TokenFamilies`: refresh-token rotation and reuse detection (section 5.2.2.3 of RFC 6819), for users
  and for the platform administrator; `Lockout`, `LockoutBreaks`: the failure counter that passwords and MFA codes
  share, and exactly which settings keep its promise; `RateLimiter` with `Windows`: the sliding window.
- **Roles** — `RolePresets`, `RevocationSafety`: applying and revoking presets; `PresetRequests`: doing so by hand,
  with the checks; `PeopleSync`, `PeopleSyncSafety`, `PeopleSyncExactly`: the declarative sync, and exactly what one
  declaration does.
- **Forms** — `FormInput`, `FormFields`, `FormReading`, `FormMerge`, `FormRoundTrip`: one list of fields split into
  stored lists, read and merged back.
- **CEO screen** — `CeoScreen`, `CeoTrend`: the screen and its snapshots; `CeoRedaction`, `CeoTrendRedaction`: what the
  financials permission hides; `CeoTotals`, `CeoFigures`, `CeoTrendFigures`: what the figures are with it.
- `Common`, `Sorting`: options, results, a stable sort.

Assumptions: MGET reads both keys at one moment; the epoch key is never lost; a database read sees every commit before
it, and every cached answer is a function of the watched tables; one request is one serial transaction, and one that
raises before its commit changes nothing; ids are fresh, non-empty and hold no slash. A token says its times in whole
seconds, and its row is written at the moment it is signed. Stored times keep their microseconds; a database whose
`DateTime` columns drop fractions ends a lock up to a second early. Where only a non-decreasing clock makes a property
true the lemma says so. Whether a password or a code is right, what a Redis command's fate is, the database's answers
and the time are parameters.

Where the code and its documentation disagree the model follows the code, and says when the documentation is met:

- "Applies on the very next request" (`auth_cache.py:6-13`) holds from the moment the scheduled bump is carried out, not
  from the commit: `EpochCache.HitShowsBumpedWrites`; for any write and any key the request before that can miss it:
  `EpochDebts.StaleHitBeforeTheBump`, `EpochDebts.UnbumpedWriteCanBeMissed`, and exactly, `EpochDebts.ShownExactlyWhen`.
- "A bump that failed must happen before this process trusts its cache again" (`auth_cache.py:143`) fails when a bump
  fails between a lookup's increment and its clearing of the flag: `EpochDebts.RaceLosesADebt`. It holds in a run if and
  only if no lookup clears the flag while a failed bump has had no increment since: `EpochDebts.DebtsKeptExactlyWhen`.
- Waiting `retry_after` (`rate_limiter.py:32-33`) is too short when what remains is more than a second and not whole
  seconds: `RateLimiter.RetryAfterSuffices`.
- Five wrong attempts in fifteen minutes (`config.py:37-40`) holds as shipped, and for other settings exactly when the
  lock covers the window and, from two attempts on, the counter looks back over it and the MFA token's life exceeds at
  most one of the lock and the look-back: `LockoutBreaks.BoundHoldsExactlyWhen`.
- Presenting a rotated token again ends its family (`auth_service.py:217-228`) only until that token expires:
  `TokenFamilies.ExpiredReplayLeavesTheFamily`; and it is recognised by a later token of its family, so by the clock:
  `TokenFamilies.ClockGoingBackHidesReplay`. `TokenFamilies.ReplayDetectedExactlyWhen` is the exact condition.
- Applying a preset leaves a narrower or earlier-ending row for one of its permissions as it is, so that a user can hold
  a preset and not what it includes: `PresetRequests.NarrowRowShadowsPreset`, and exactly,
  `RevocationSafety.AppliedInFullExactlyWhen`.

## Model

| member | source | states |
|---|---|---|
| `EpochCache.HitShowsBumpedWrites` | src/v1/01_identity/services/auth_cache.py:227-277 | In every interleaving of lookups, reads, stores, commits, bumps, failed bumps, expiries and restarts of any number of processes, a hit is an answer the database gave, no older than the current epoch, and shows every write whose bump has finished |
| `EpochCache.RunInv` | src/v1/01_identity/services/auth_cache.py:6-13 | Every entry was read no earlier than its epoch began, and every finished bump began a later epoch, in every run |
| `EpochDebts.HitShowsOwnFailedWrites` | src/v1/01_identity/services/auth_cache.py:235-248 | In every run in which no lookup clears the flag while a failed bump has had no increment since: a lookup never serves a hit older than a write of its own process whose bump had failed when the lookup began, however many bumps one increment pays for |
| `EpochDebts.QuietHitIsCurrent` | src/v1/01_identity/services/auth_cache.py:269-277 | In the same runs, while no bump is pending or owed, a hit equals the current database answer |
| `EpochDebts.DebtLostExactlyWhen` | src/v1/01_identity/services/auth_cache.py:239-241 | One step forgets that a process owes a bump exactly when it clears the flag while some failed bump of that process has had no increment since |
| `EpochDebts.DebtsKeptExactlyWhen` | src/v1/01_identity/services/auth_cache.py:235-248 | Over whole runs that condition is exact: no step clears the flag too early if and only if at every moment of the run every failed bump is either still owed or made up for |
| `EpochDebts.RaceLosesADebt` | src/v1/01_identity/services/auth_cache.py:239-241 | A run in which a bump fails between the increment and the clearing of the flag, after which a quiet cache serves the process an answer older than its own write |
| `EpochDebts.StaleHitBeforeTheBump` | src/v1/01_identity/services/auth_cache.py:261-267 | A run in which a lookup that begins after the commit but before its scheduled bump serves the old answer: "the very next request" holds from the bump on |
| `EpochDebts.ShownExactlyWhen` | src/v1/01_identity/services/auth_cache.py:227-277 | Every entry a lookup could now be served shows a write if and only if the write was committed before the current epoch began |
| `EpochDebts.UnbumpedWriteCanBeMissed` | src/v1/01_identity/services/auth_cache.py:261-277 | And it fails for every such write, not for one: from any reachable state, for any write and any key that has an answer, some run commits the write, leaves its bump pending, and then has a hit that does not show it |
| `AuthCache.AuthCache.Lookup` | src/v1/01_identity/services/auth_cache.py:227-248 | Unavailable or failing: no epoch and no value; otherwise what is owed is paid first, and the value is the entry stored under the epoch read with it |
| `AuthCache.AuthCache.Store` | src/v1/01_identity/services/auth_cache.py:250-257 | Nothing is stored without an epoch or while paused; otherwise the entry carries the epoch of the lookup, and a failure pauses the cache |
| `AuthCache.AuthCache.BumpEpoch` | src/v1/01_identity/services/auth_cache.py:269-277 | The epoch moves, even while paused; unless that is answered a bump is owed and the cache is paused, and an earlier debt stays |
| `AuthCache.AuthCache.ScheduleEpochBump` | src/v1/01_identity/services/auth_cache.py:261-267 | One more pending bump, or none when there is no Redis |
| `AuthCache.AuthCache.Connect` | src/v1/01_identity/services/auth_cache.py:149-164 | A connected process starts from a new epoch, or owes one |
| `AuthCache.AuthCache.ReadThrough` | src/v1/01_identity/dependencies.py:148-155 | The answer is the cached one on a hit and the database's otherwise, and what is then stored carries the epoch seen before the database was read |
| `AuthCache.LookupIsProtocol` | src/v1/01_identity/services/auth_cache.py:227-248 | An uninterrupted lookup of the cache object is a run of the protocol's steps: same epoch, value, debts and entries |
| `AuthCache.BumpIsProtocol` | src/v1/01_identity/services/auth_cache.py:269-277 | So is a bump, answered, lost or unreached |
| `AuthCache.StoreIsProtocol` | src/v1/01_identity/services/auth_cache.py:250-257 | So is a store |
| `ChangeTracking.CommitBumpsExactlyWhen` | src/v1/01_identity/services/auth_cache.py:303-326 | Over every run of a session, a commit schedules a bump exactly when, since the last commit or rollback, an instance of a watched table was added, deleted or marked dirty, flushed before or by the commit, or a writing statement ran on one |
| `ChangeTracking.WatchedWriteBumps` | src/v1/01_identity/services/auth_cache.py:303-321 | So every committed transaction that writes a watched table bumps |
| `ChangeTracking.BumpWithoutAWrite` | src/v1/01_identity/services/auth_cache.py:303-307 | The other way fails: an instance assigned the value it had is dirty and bumps, with nothing written |
| `ChangeTracking.SessionHooks.NoteChangedRows` | src/v1/01_identity/services/auth_cache.py:303-307 | The flush hook sets the flag exactly when a flushed instance is of a watched table, and never clears it |
| `ChangeTracking.SessionHooks.NoteBulkWrites` | src/v1/01_identity/services/auth_cache.py:310-315 | The statement hook sets the flag exactly for a write to a watched table |
| `ChangeTracking.SessionHooks.DropCacheAfterCommit` | src/v1/01_identity/services/auth_cache.py:318-321 | The commit hook clears the flag and schedules one bump if it was set |
| `ChangeTracking.SessionHooks.ForgetRolledBackChanges` | src/v1/01_identity/services/auth_cache.py:324-326 | The rollback hook clears the flag |
| `OrgTree.OrgStructure.CreateOrgUnit` | src/v1/01_identity/services/org_unit_service.py:187-250 | Creating in place gives the specified tables, or the specified refusal and no change |
| `OrgTree.OrgStructure.MoveOrgUnit` | src/v1/01_identity/services/org_unit_service.py:331-400 | Moving in place, with its two rewriting loops, gives the specified tables, or the specified refusal and no change |
| `OrgTree.OrgStructure.RewriteDescendants` | src/v1/01_identity/services/org_unit_service.py:365-388 | The loop over descendants re-bases exactly the paths below the moved unit |
| `OrgTree.OrgStructure.RewriteAssignments` | src/v1/01_identity/services/org_unit_service.py:389-398 | The loop over role assignments re-bases exactly the copied scope paths below the moved unit |
| `OrgTreeSafety.ReachableInv` | src/v1/01_identity/services/org_unit_service.py:38-77 | In every state reachable by creates, moves and (de)activations the paths and the parent pointers agree, the branch, department and team rules hold, codes are unique per organization, and every copied scope path is its unit's path |
| `OrgTreeSafety.PrefixIsAncestry` | src/v1/01_identity/services/org_unit_service.py:365-372 | "Path A is a string prefix of path B" holds exactly when A is B or above B by parent pointers |
| `OrgTreeSafety.NoCycles` | src/v1/01_identity/services/org_unit_service.py:358-364 | No unit is above itself |
| `OrgTreeSafety.PathIsChain` | src/v1/01_identity/services/org_unit_service.py:232-233 | Each unit's path is its ancestors' ids from the top to itself, by parent pointer |
| `OrgTreeSafety.CreateAllowedExactlyWhen` | src/v1/01_identity/services/org_unit_service.py:187-250 | A unit is created exactly when its code is free in the organization, letter case aside, its head is known, and it sits where its type may; the result is the old table and that one unit, active and in version 1 |
| `OrgTreeSafety.MoveAllowedExactlyWhen` | src/v1/01_identity/services/org_unit_service.py:338-364 | A move goes through exactly when both units are in the organization, the version matches, the new parent is not at or below the unit, and the types fit |
| `OrgTreeSafety.MoveRefusedAs` | src/v1/01_identity/services/org_unit_service.py:338-364 | Each refusal of a move exactly when it is given, a cycle told by the parent pointers |
| `OrgTreeSafety.MoveRerootsSubtree` | src/v1/01_identity/services/org_unit_service.py:365-388 | A move re-roots exactly the moved subtree: each unit in it keeps its path below the moved unit and everything else, every unit outside is unchanged, and of the moved unit only the parent, the path and the version change, the version by one |
| `OrgTreeSafety.MoveKeepsInv` | src/v1/01_identity/services/org_unit_service.py:365-398 | A move keeps the tree, the rules, the unique codes and every role assignment's scope path current |
| `Paths.ReadRenderedPath` | src/v1/01_identity/services/org_unit_vertical_service.py:24-26 | Reading a path back gives exactly the ids it was made of |
| `Paths.PrefixEndsAtSlash` | src/v1/01_identity/services/org_unit_service.py:232-233 | A string prefix of a path that ends with a slash cannot end inside an id |
| `AccessControl.ContainmentIsCoverage` | src/v1/01_identity/services/access_control.py:35-50 | For grants of one permission, containment holds exactly when whatever the second covers, for any path, owner and actor, the first covers |
| `AccessControl.ContainmentIsPreorder` | src/v1/01_identity/services/access_control.py:42-50 | Containment is reflexive and transitive |
| `AccessControl.CanGrantExactlyWhen` | src/v1/01_identity/services/access_control.py:85-89 | A grant may be handed out exactly by a superuser or when one grant of the actor's lets its holder do, on any record, whatever the handed-out one would |
| `AccessControl.NoEscalation` | src/v1/01_identity/services/access_control.py:85-89 | On a fixed tree, whatever chain of hand-outs passes the check, every grant held at the end is contained in one held at the start or given by a superuser |
| `AccessControl.NoNewAccess` | src/v1/01_identity/services/access_control.py:85-89 | So nobody can do anything at the end that no such grant already covered |
| `AccessControl.UserVisibilityFilter` | src/v1/01_identity/services/access_control.py:91-112 | Within the organization the list filter selects every user record the check allows and no other, except the actor's own record under a self-only grant |
| `AccessControl.OrgWideExactlyWhen` | src/v1/01_identity/services/access_control.py:70-83 | Company-wide access is held exactly when a record with no path that belongs to someone else may be acted on |
| `AccessControl.LoadGrants` | src/v1/01_identity/services/access_control.py:115-142 | The loop gives the grants of the user's rows in order, skipping expired ones and vanished units |
| `AccessControl.LoadedGrantsExactly` | src/v1/01_identity/services/access_control.py:115-142 | A grant is loaded exactly when some current row of the user gives it, its path read from the live unit |
| `AccessControl.AccessFollowsTheTree` | src/v1/01_identity/services/access_control.py:79-83 | End to end, a record of anyone's, the actor's own included, kept at a unit or at none, may be acted on exactly by a superuser or when a current row of the actor's reaches it: for own records only if the record is their own, and company-wide or for a unit at or above the record's by parent pointers |
| `ActorAnswer.ResolveActor` | src/v1/01_identity/routes/rbac.py:238-272 | A code is listed exactly when the actor can use it on something, and as good for own records only exactly when on nothing else; about other people's records nothing is lost: at every unit, and for a record at none, the answer allows a code exactly when the grants do; a superuser's lists the catalog |
| `ActorAnswer.UnitScopes` | src/v1/01_identity/routes/rbac.py:275-291 | A code is limited to units exactly when it is held at some and never company-wide, and then to every unit at or below one of them |
| `ActorAnswer.PathsByCode` | src/v1/01_identity/routes/rbac.py:279-286 | The loop keeps exactly the codes held within units and never company-wide, whatever order the set is walked in |
| `ActorAnswer.OneQueryServesEachPath` | src/v1/01_identity/services/unit_members.py:71-83 | The rows of one query with all the paths joined by OR, filtered again for each path, are for each path exactly the units at or below it |
| `ActorAnswer.OneQueryServesEachCode` | src/v1/01_identity/routes/rbac.py:287-291 | So one query for all codes' paths gives each code exactly the units it would get if its paths were asked for alone |
| `UnitVerticals.OwnVerticalIds` | src/v1/01_identity/services/org_unit_vertical_service.py:34-48 | Each unit that sets any is listed with its verticals in table order; units that set none are left out |
| `UnitVerticals.Resolve` | src/v1/01_identity/services/org_unit_vertical_service.py:62-81 | The source is the last unit of the path that sets any verticals, and the effective ones are its active ones |
| `UnitVerticals.PathGivesInherited` | src/v1/01_identity/services/org_unit_vertical_service.py:62-81 | What reading the path answers equals the recursion by parent: a unit's own verticals if it sets any, else its parent's |
| `UnitVerticals.VerticalTable.ReplaceUnitVerticals` | src/v1/01_identity/services/org_unit_vertical_service.py:94-128 | Refused, nothing changes; else the unit has exactly the wanted verticals, each once, and every other unit keeps its own |
| `UnitVerticals.RefusedExactlyWhen` | src/v1/01_identity/services/org_unit_vertical_service.py:101-122 | A replacement is refused exactly when the unit is not the organization's, is neither a branch nor a department, or a wanted vertical is unknown, another client's, or archived and not set there already |
| `UnitVerticals.EffectiveFollowsParents` | src/v1/01_identity/services/org_unit_vertical_service.py:62-128 | After any creates, moves and vertical changes the effective verticals are exactly those inherited by parent that the vertical table says are active, and a team never sets its own |
| `TokenFamilies.UserStore.RefreshSession` | src/v1/01_identity/services/auth_service.py:779-882 | One refresh on the stored tokens: refused, changing nothing, when the token is expired or unknown or was revoked without a successor; the end of a replayed token's family; a rotation; an unusable account rolls back |
| `TokenFamilies.UserStore.EndSession` | src/v1/01_identity/services/session_service.py:96-121 | Afterwards a token is live exactly when it was and is another user's or another session's; nothing else about any row changes; it says whether there was such a live token |
| `TokenFamilies.UserStore.EndSessions` | src/v1/01_identity/services/session_service.py:123-142 | Afterwards a token is live exactly when it was and is another user's or of the kept session; nothing else about any row changes |
| `TokenFamilies.UserStore.Logout` | src/v1/01_identity/services/auth_service.py:917-937 | Afterwards a token is live exactly when it was and is of another family; nothing else about any row changes |
| `TokenFamilies.PlatformStore.RefreshSession` | src/v1/01_identity/services/platform_auth_service.py:118-160 | The platform's refresh: an expired or unknown token changes nothing; any revoked token, and any unusable account, ends the family |
| `TokenFamilies.AtMostOneLiveToken` | src/v1/01_identity/services/auth_service.py:813-882 | Over every run of either machine a family has at most one live token |
| `TokenFamilies.EndedStaysEnded` | src/v1/01_identity/services/auth_service.py:933-937 | A family with no live token never regains one |
| `TokenFamilies.ReplayEndsTheFamily` | src/v1/01_identity/services/auth_service.py:217-228 | After any run with a clock that does not go back, a rotated-away token that has not expired is answered as a replay and leaves its family with no live token; once expired it is refused and changes nothing |
| `TokenFamilies.ReplayDetectedExactlyWhen` | src/v1/01_identity/services/auth_service.py:792-831 | On any table and at any time, presenting a revoked token ends its family exactly when the token is current and shows a successor, or the family had ended |
| `TokenFamilies.ClockGoingBackHidesReplay` | src/v1/01_identity/services/auth_service.py:217-228 | For every token life of a second or more, a clock that goes back between two refreshes: the replay is refused but the family lives on |
| `TokenFamilies.ExpiredReplayLeavesTheFamily` | src/v1/01_identity/utils/security.py:126-157 | With the shipped thirty days and a clock that never goes back, on either machine: tokens rotated on days 20 and 35, and on day 36 the first one is only refused and the family lives on |
| `TokenFamilies.PlatformRefusalEndsTheFamily` | src/v1/01_identity/services/platform_auth_service.py:127-148 | The platform rotates exactly a current live token of a usable account, and its refusals end the family exactly when the token is current, or the family had ended |
| `TokenFamilies.PlatformIsStricter` | src/v1/01_identity/services/platform_auth_service.py:118-160 | What the platform's refresh leaves live the users' refresh leaves live too, and both rotate on the same inputs |
| `TokenFamilies.RefreshIsLocal` | src/v1/01_identity/services/auth_service.py:862-882 | A refresh touches no other family |
| `TokenFamilies.RefreshExactly` | src/v1/01_identity/services/auth_service.py:792-882 | Each answer of a refresh exactly when it is given, and the whole table after it: unchanged for a token that is not current or was ended and for an account that may not sign in, the family ended for a replay, and one token replaced for a rotation |
| `TokenFamilies.ReusedMeansReplaced` | src/v1/01_identity/services/auth_service.py:813-831 | In every run in which no two tokens of the family were issued at one moment, a current token is answered as a replay if and only if a refresh had replaced it; the token of a session that was ended is refused without that |
| `Lockout.CredentialRow.NoteFailure` | src/v1/01_identity/services/auth_service.py:231-248 | Counts one failure on the stored row and locks at the threshold, starting over when the last failure is older than the window |
| `Lockout.CredentialRow.SignIn` | src/v1/01_identity/services/auth_service.py:420-459 | The counter after one sign-in. Under a lock in force the row stays and the answer is that it is locked, whatever the password; it goes through exactly when no lock is in force, the password is right and the account may sign in |
| `Lockout.CredentialRow.Verify` | src/v1/01_identity/services/auth_service.py:640-722 | The counter after one MFA code. Under a lock in force the row stays and no code is judged; it goes through exactly when no lock is in force, the token is live, the code is right and the account may sign in |
| `Lockout.CredentialRow.NewPassword` | src/v1/01_identity/services/auth_service.py:1057-1062 | A new password clears the count and the lock but not the time of the last failure |
| `Lockout.SignInExactly` | src/v1/01_identity/services/auth_service.py:420-520 | Each answer exactly when it is given, and the row after it: a right password under a lock is answered like a wrong one, an accepted one clears the row, a refused one leaves it but for a lock that has run out |
| `Lockout.VerifyExactly` | src/v1/01_identity/services/auth_service.py:640-722 | A right code under a lock is answered like a wrong one and changes nothing; an accepted one clears the row |
| `Lockout.FailureExactly` | src/v1/01_identity/services/auth_service.py:231-248 | One failure starts the count over exactly when the last one is out of the window, and locks exactly at the threshold |
| `Lockout.LockLasts` | src/v1/01_identity/services/auth_service.py:420-446 | Over any run, until its time is up only a password reset ends a lock: no sign-in and no code changes the row, hands out a token or is counted |
| `Lockout.WrongAttemptsBounded` | src/v1/01_identity/services/auth_service.py:231-256 | For every sound policy and every run with a non-decreasing clock, no half-open window with no counter reset holds more wrong passwords and codes together than the threshold, across lock expiry; a policy is sound when the lock covers the window and, for two attempts or more, the counter looks back over it and the MFA token does not outlive both |
| `LockoutBreaks.BoundHoldsExactlyWhen` | src/v1/01_identity/services/auth_service.py:231-256 | Soundness is exact: every run keeps the bound if and only if the policy is sound for the window |
| `Lockout.FiveInFifteenMinutes` | src/v1/01_identity/config.py:38-40 | With the shipped settings: at most 5 in any 15 minutes |
| `Lockout.LockNeedsThreshold` | src/v1/01_identity/services/auth_service.py:240-248 | Under every policy an account is locked only after the threshold of wrong attempts since its counter was last cleared |
| `Lockout.LiveTokenPastALock` | src/v1/01_identity/services/auth_service.py:667-684 | An MFA code that meets a lock that has run out while its token is live needs a token that outlives the lock, and under a sound policy a wrong one locks again |
| `LockoutBreaks.LongTokensBreakTheBound` | src/v1/01_identity/services/auth_service.py:420-430 | For every policy of two attempts or more whose token outlives both the lock and what the counter looks back over, a run that exceeds the threshold within one moment |
| `LockoutBreaks.ShortLockBreaks` | src/v1/01_identity/services/auth_service.py:240-248 | For every policy whose lock is shorter than the window, a run that exceeds the threshold |
| `LockoutBreaks.ShortMemoryBreaks` | src/v1/01_identity/services/auth_service.py:231-239 | For every policy of two attempts or more whose counter starts over within the window, a run that exceeds the threshold |
| `RateLimiter.SlidingWindowRateLimiter.Check` | src/v1/01_identity/services/rate_limiter.py:23-37 | One call answers and leaves the key's history as specified, and touches no other key |
| `RateLimiter.SlidingWindowRateLimiter.SetLimit` | src/v1/01_identity/services/rate_limiter.py:39-41 | Changes one class's limit |
| `RateLimiter.SlidingWindowRateLimiter.Reset` | src/v1/01_identity/services/rate_limiter.py:43-45 | Forgets every history |
| `RateLimiter.WindowNeverOverfull` | src/v1/01_identity/services/rate_limiter.py:23-37 | Over every run with a non-decreasing clock no half-open window holds more accepted requests than the limit |
| `RateLimiter.RefusedExactlyWhenFull` | src/v1/01_identity/services/rate_limiter.py:28-37 | A request is refused exactly when the window that ends at it already holds the whole limit |
| `RateLimiter.RetryAfterSuffices` | src/v1/01_identity/services/rate_limiter.py:31-34 | The announced wait is between 1 and the window, and is enough exactly when what remains is whole seconds or at most one |
| `Windows.SpacedIffWindowsBounded` | src/v1/01_identity/services/rate_limiter.py:23-37 | No window holds more than the limit exactly when any limit + 1 events span at least the window |
| `RolePresets.AccessTables.PlanRevocation` | src/v1/01_identity/services/rbac_service.py:492-526 | The nested loops give, for each permission, the first other preset of the user in the scope that also includes it |
| `RolePresets.AccessTables.ApplyRevocation` | src/v1/01_identity/services/rbac_service.py:528-543 | Row by row, what the preset brought is re-credited or deleted, and the preset is gone |
| `RolePresets.AccessTables.AddToUser` | src/v1/01_identity/services/user_permission_service.py:257-300 | Adds one row for each permission of the role not held in the scope, credited to it, and the preset |
| `RevocationSafety.RevocationTakesExactly` | src/v1/01_identity/services/rbac_service.py:492-543 | Revoking a preset takes away exactly the permissions it brought in that scope that no other preset of the user there includes |
| `RevocationSafety.RowsAfterRevocation` | src/v1/01_identity/services/rbac_service.py:536-543 | Every row left is unchanged or re-credited to a preset the user still holds there that includes it; none names the removed role |
| `RevocationSafety.PassesToFirst` | src/v1/01_identity/services/rbac_service.py:506-526 | What a preset brought passes to the first other preset of the user in the scope, in the order queried, whose role has the permission |
| `RevocationSafety.RevocationIsLocal` | src/v1/01_identity/services/rbac_service.py:495-505 | Other users' rows, and the user's in other scopes, are the same rows in the same order |
| `RevocationSafety.RevokeUndoesApplyExactlyWhen` | src/v1/01_identity/services/rbac_service.py:443-460 | Revoking right after applying restores both tables exactly when no row there was credited to the role before and it brought no permission another preset there includes and the user had lost |
| `RevocationSafety.RevokeKeepsCovered` | src/v1/01_identity/services/rbac_service.py:506-524 | Revoking never takes a permission that a remaining preset includes |
| `RevocationSafety.AppliedInFullExactlyWhen` | src/v1/01_identity/services/rbac_service.py:443-450 | Applying a preset gives one of its permissions at the preset's breadth and for as long exactly when it was not held there, or was held as broadly and as long already: with one row a place, when no narrower or earlier-ending row stood there |
| `RevocationSafety.RevokeKeepsCredited` | src/v1/01_identity/services/rbac_service.py:536-540 | Every credited row stays in the name of a preset there that includes it |
| `PresetRequests.CreateRoleAssignment` | src/v1/01_identity/services/rbac_service.py:393-460 | Giving a preset by hand on the tables: refused in the source's order of checks, changing nothing, or applied |
| `PresetRequests.RevokeRoleAssignment` | src/v1/01_identity/services/rbac_service.py:545-573 | Taking one back by hand: refused for the actor's own, for People's and for what is broader than the actor holds, or revoked |
| `PresetRequests.GivenExactlyWhen` | src/v1/01_identity/services/rbac_service.py:404-442 | A preset is given exactly to another, active user of the organization, in an active unit of it or company-wide, not ending in the past, for a role of the organization whose every permission a row of the actor's gives as broadly, with an end in time where People manages the user, and once |
| `PresetRequests.GivingAdds` | src/v1/01_identity/services/user_permission_service.py:257-300 | It adds exactly one preset, in no service's name, and a row for each permission of the role not held there, as broad and as lasting as asked for |
| `PresetRequests.TakenBackExactlyWhen` | src/v1/01_identity/services/rbac_service.py:545-570 | A preset is taken back exactly from another user of the organization, never one that People manages, when a row of the actor's gives as broadly each permission that goes with it |
| `PresetRequests.PresetsNeverEscalate` | src/v1/01_identity/services/rbac_service.py:427-460 | On a fixed tree, after any such requests at any times, each checked against the rows its actor holds then, every grant a user has is one a row of theirs from the start still gives, or lies within what a served request handed out that was made by a client administrator or by someone whose row from the start gave at least that at the time |
| `PresetRequests.OnlyOwnAccessIsTakenBack` | src/v1/01_identity/services/rbac_service.py:560-573 | A permission that goes with a preset is one that preset brought, and one the actor holds at least as broadly |
| `PresetRequests.NarrowRowShadowsPreset` | src/v1/01_identity/services/rbac_service.py:437-444 | A permanent preset applied over a self-only one that ends at 10: the user holds both presets and, from 10 on, no access at all |
| `PeopleSync.ReadDeclaration` | src/v1/01_identity/services/people_sync.py:130-140 | The loop keeps a want for exactly the roles and scopes some item asks for, each with the first item that does, where asking is naming the code, letter case aside, of a role of the organization that People may grant; it reports exactly the items that name no role and those that name one People may not grant |
| `PeopleSync.DesiredAre` | src/v1/01_identity/services/people_sync.py:130-140 | That is what the specification's list of wants holds, for any declaration |
| `PeopleSync.IssueExactly` | src/v1/01_identity/services/people_sync.py:133-140 | An item is reported as unknown exactly when no role of the organization has its code, as not grantable exactly when the role with its code is not one People may grant, and is usable exactly when it is |
| `PeopleSync.RevokeUnwanted` | src/v1/01_identity/services/people_sync.py:149-155 | The removal loop revokes, one after the other, exactly the managed presets that are neither wanted nor protected |
| `PeopleSync.ApplyWanted` | src/v1/01_identity/services/people_sync.py:157-182 | The adding loop applies what is not there yet, skips what a person granted, and reports what cannot be applied |
| `PeopleSync.ApplyManagedRoles` | src/v1/01_identity/services/people_sync.py:127-183 | One declaration on the tables gives the specified presets, permissions and problems |
| `PeopleSync.AdoptRoles` | src/v1/01_identity/services/people_sync.py:290-308 | Each preset held by hand for a named role becomes People's; every other keeps its source |
| `PeopleSyncSafety.RevocationsTakeExactly` | src/v1/01_identity/services/people_sync.py:149-155 | Many revocations in a row, each re-crediting to presets that may go next, together take exactly what the revoked presets brought and no kept preset includes, whatever their order |
| `PeopleSyncExactly.ManagedExactly` | src/v1/01_identity/services/people_sync.py:127-183 | Afterwards the employee has a role from People in a scope exactly when it was there and is asked for or in doubt, or is asked for, not held by hand there, and the scope is an active unit of the organization or none |
| `PeopleSyncExactly.StaysExactlyWhen` | src/v1/01_identity/services/people_sync.py:143-155 | A preset stays exactly when it is another person's, a hand-granted or another service's, is asked for, or is of a role in doubt: one whose code the declaration names while People may grant no role with it |
| `PeopleSyncExactly.AddedAreAskedFor` | src/v1/01_identity/services/people_sync.py:157-182 | Each preset added is the employee's and People's, of a role of the organization that People may grant, for the first item that asks for it, in an active unit of the organization or none, and not held by hand |
| `PeopleSyncExactly.ProblemsExactly` | src/v1/01_identity/services/people_sync.py:133-172 | The problems reported are exactly the items that name no role, those that name one People may not grant, and the first to ask for a role not held yet in a scope that is no active unit of the organization |
| `PeopleSyncExactly.PermissionsExactly` | src/v1/01_identity/services/people_sync.py:149-182 | The permissions afterwards, for every user and scope, by the tables before and after: what no preset now gone had brought, what a preset still there includes, and what the added ones include |
| `PeopleSyncSafety.SecondDeclarationChangesNothing` | src/v1/01_identity/services/people_sync.py:127-183 | Declaring the same again changes no preset and no permission, and reports the same problems |
| `PeopleSyncSafety.DeclarationKeepsAccess` | src/v1/01_identity/services/people_sync.py:127-183 | A declaration keeps one preset per role and scope, every preset's permissions held, and every credit good |
| `PeopleSyncSafety.AdoptingOnlyRenames` | src/v1/01_identity/services/people_sync.py:277-309 | Adopting grants and removes nothing and leaves other services' presets alone; repeating it changes nothing |
| `PeopleSyncExactly.AdoptedExactlyWhen` | src/v1/01_identity/services/people_sync.py:290-308 | A preset is adopted exactly when it is the employee's, held by hand, and of a role whose code is named |
| `PeopleSyncSafety.PresetsStayCovered` | src/v1/01_identity/services/rbac_service.py:506-543 | Over every run of hand-given and hand-revoked presets, declarations and adoptions: a row stands for every permission of every preset held, in its scope, and every credited row names a preset there that includes it |
| `FormInput.CheckField` | src/v1/01_identity/schemas/vertical.py:115-148 | Exactly which fields the validators let through, and what they make of them: trimmed label and help, cleaned options and rule, each vertical once, nothing else changed; so the round trip's conditions hold, and a clean valid field goes through unchanged |
| `FormFields.StoredLists` | src/v1/01_identity/services/form_fields.py:46-57 | One list for every vertical and one for each vertical named, each with exactly its fields and the whole form's order |
| `FormFields.ListsByVertical` | src/v1/01_identity/services/form_fields.py:52-56 | The dict-filling loop puts each field in the list of each of its verticals, or in the one for all, in form order |
| `FormFields.MergeLists` | src/v1/01_identity/services/form_fields.py:102-131 | The nested loops merge the ordered lists field by field, and put the result in the form's order |
| `FormMerge.MergedForm` | src/v1/01_identity/services/form_fields.py:102-131 | Merging any live lists: unique keys, each field its first occurrence in the documented order, verticals aside; one note for each differing repeat; no alike repeat loses its verticals unless the kept field is for all |
| `FormMerge.OrderedIsOrdered` | src/v1/01_identity/services/form_fields.py:111-119 | The lists are taken in the documented order: those for every vertical first, then the newest, then by vertical name, then by id |
| `FormMerge.InFormOrderHas` | src/v1/01_identity/services/form_fields.py:207-216 | Ordering the result loses no field and repeats none |
| `FormMerge.FollowsFirstList` | src/v1/01_identity/services/form_fields.py:207-216 | Where the first list names each field at most once, the result follows it, and fields it does not name come after |
| `FormRoundTrip.FieldReadsBack` | src/v1/01_identity/services/form_fields.py:72-95 | A field read back from the property and UI options stored for it is that field |
| `FormReading.ReadsEachProperty` | src/v1/01_identity/services/form_fields.py:134-162 | A stored list, saved by this service or not, that can be read at all gives one field for each property, as the property, its UI options and its place among the required ones say; listed properties first in that order, then the rest |
| `FormReading.FormatsRead` | src/v1/01_identity/services/form_fields.py:164-173 | Which field type a string property has by its format and widget |
| `FormReading.TypesRead` | src/v1/01_identity/services/form_fields.py:164-173 | Which field type a property has by its JSON type and choices |
| `FormRoundTrip.ListReadsBack` | src/v1/01_identity/services/form_fields.py:134-145 | A stored list, its properties in any order, reads back as its fields in the form's order |
| `FormRoundTrip.SplitThenMerge` | src/v1/01_identity/services/form_fields.py:46-131 | Splitting a valid form and merging its lists, under any ids, versions and order, gives the same fields in the same order with no notes, verticals as sets, and splitting that again gives exactly the same stored lists |
| `CeoScreen.MergeBuckets` | src/v1/00_gateway/services/ceo_screen.py:145-150 | The dict-filling loops give the merged list |
| `CeoTotals.RelationshipTotals` | src/v1/00_gateway/services/ceo_screen.py:456-464 | The answer has each relationship that occurs exactly once, with the number of its companies and the sum of their revenue, own companies first, then associates, investments, and any others by name |
| `CeoTotals.AssociateTotals` | src/v1/00_gateway/services/ceo_screen.py:477-488 | The associates are exactly those given work by a company whose delivery answered, each once, with the sums of all projects, revenue and payments given to it |
| `CeoTotals.MergeIsTotalPerKey` | src/v1/00_gateway/services/ceo_screen.py:145-150 | Each key appears once with everything entered under it and no other, the largest first |
| `CeoFigures.HeadlinesAre` | src/v1/00_gateway/services/ceo_screen.py:517-543 | Each headline number is its figure added up over the companies whose own service answered, and unknown where none did |
| `CeoFigures.AlertsAre` | src/v1/00_gateway/services/ceo_screen.py:561-576 | So is each alert; the one about expenses needs the permission |
| `CeoFigures.ExpensesAre` | src/v1/00_gateway/services/ceo_screen.py:315-343 | The expenses are everything the five services answered, known when any of them did for any company, complete when all five did; each part is its own service's |
| `CeoFigures.ProfitIsRevenueLessExpenses` | src/v1/00_gateway/services/ceo_screen.py:546-558 | Profit, now and before, is all the revenue less everything spent, known exactly when some revenue and some spending is |
| `CeoFigures.HealthIsTheAverage` | src/v1/00_gateway/services/ceo_screen.py:271-296 | The group's health is the plain average over the companies with a score, and its label the band that falls in |
| `CeoFigures.AssociatesShown` | src/v1/00_gateway/services/ceo_screen.py:467-500 | With the permission each associate given work has one row with all of it, and its margin is revenue less payments where all the revenue is known |
| `CeoFigures.CompaniesAre` | src/v1/00_gateway/services/ceo_screen.py:429-453 | Every company has its line, with unknowns where a service did not answer for it, the larger revenue first |
| `CeoFigures.WholeMargin` | src/v1/00_gateway/services/ceo_screen.py:501-509 | The whole margin is the whole revenue less all the payments, where all the revenue is known |
| `CeoFigures.WorkCardsAre` | src/v1/00_gateway/services/ceo_screen.py:234-268 | Each figure of the work and people cards is its own added up over the answers; costs and payroll need the permission |
| `CeoFigures.MoneyCardsAre` | src/v1/00_gateway/services/ceo_screen.py:346-391 | So are those of the asset and finance cards |
| `CeoFigures.BudgetIs` | src/v1/00_gateway/services/ceo_screen.py:299-312 | The budget card adds up the companies that have a budget |
| `CeoFigures.ReasonIs` | src/v1/00_gateway/services/ceo_screen.py:113-125 | Why a card is not there: everyone lacks access, it is set up nowhere, or else some service could not answer |
| `CeoRedaction.HiddenAssociatesSection` | src/v1/00_gateway/services/ceo_screen.py:467-509 | Without the permission the associates shown, and their sort order, do not depend on revenue or payments |
| `CeoRedaction.NothingFinancialShows` | src/v1/00_gateway/services/ceo_screen.py:63-100 | Without the financials permission, two sets of answers that differ only in what is financial give the same screen |
| `CeoTrendRedaction.HiddenTrend` | src/v1/00_gateway/services/ceo_trend.py:121-153 | So do the trend and its completeness |
| `CeoTrendRedaction.HiddenPositions` | src/v1/00_gateway/services/ceo_trend.py:182-200 | So do the previous values |
| `CeoTrendRedaction.ResponseShowsNothingFinancial` | src/v1/00_gateway/services/ceo_trend.py:76-90 | So does the whole response with its snapshots |
| `CeoTrendFigures.MonthIs` | src/v1/00_gateway/services/ceo_trend.py:121-161 | A month's revenue and expenses are the sums over the companies whose own cards were read, unknown where none has that month; its profit is the difference |
| `CeoTrendFigures.CompleteExactlyWhen` | src/v1/00_gateway/services/ceo_trend.py:140-180 | A month is complete exactly when something counts and every snapshot that does covers each of its days so far, one run for payroll |
| `CeoTrendFigures.PositionsAre` | src/v1/00_gateway/services/ceo_trend.py:182-200 | Each position's previous value is the sum over the companies whose card was read if every one of them has that day, and none otherwise |

## Left out

- EpochDebts.HitShowsOwnFailedWrites: stated for runs in which debts are kept; `EpochDebts.DebtsKeptExactlyWhen` says these are exactly the runs in which no process forgets one, and `EpochDebts.RaceLosesADebt` is a run in which one does.
- EpochDebts.QuietHitIsCurrent: under the same condition, for the same reason.
- EpochCache.RunInv: answers that change with the clock alone, such as a grant that expires or a client's service window that ends, are not functions of the watched tables; a cached one may outlive that by its time to live.
- AuthCache.AuthCache.ReadThrough: the JSON encoding of the cached values is not modelled; a value is what was stored.
- ChangeTracking.CommitBumpsExactlyWhen: savepoints and SQL written outside the ORM; the repository's request handlers use neither.
- Lockout.WrongAttemptsBounded: stated for sound policies; `LockoutBreaks.BoundHoldsExactlyWhen` shows no other keeps the bound. It counts the wrong attempts since the counter was last cleared, as a correct password clears it before any MFA step.
- TokenFamilies.ReplayEndsTheFamily: needs a clock that does not go back; `TokenFamilies.ReplayDetectedExactlyWhen` has no such condition. The cookies and the token's type and shape checks are not modelled; a malformed token is one that is in no table.
- OrgTree.OrgStructure.MoveOrgUnit: the head user, calendar and vertical columns of a unit, which no move changes.
- AccessControl.NoEscalation: stated on a tree that does not change; a move brings a subtree under the grants on the units above its new place.
- RolePresets.AccessTables.AddToUser: grants that are given together with presets and merge with them; a preset's own permissions are one row each.
- PresetRequests.PresetsNeverEscalate: compares what grants cover, not until when; the check before a hand-out does not compare end dates, so a grant about to end can be handed on without an end. The tree does not change.
- PresetRequests.CreateRoleAssignment: a preset's vertical, which narrows no check here.
- PeopleSyncSafety.DeclarationKeepsAccess: for employees whose presets are People's or a person's; for a third service's preset the sync adds a second one in the same place.
- PeopleSyncSafety.PresetsStayCovered: says that a row of that permission and scope stands, not how broad it is or when it ends, as the code compares neither; `RevocationSafety.AppliedInFullExactlyWhen` says when a preset gives its permissions in full. Left out: permissions added or removed one by one, outside presets, and roles whose permissions change after they were applied.
- FormFields.MergeLists: a `properties` or a choice list that is not the JSON shape the service expects; such a value is an exception in the model wherever looping over it would be one in Python, and a JSON object in place of a list is treated as one too.
- FormInput.CheckField: white space beyond blank, tab and line ends.
- CeoScreen.MergeBuckets: money as floating point; amounts are whole cents, scores whole tenths, and averages are kept unrounded as a sum and a count. The health label is that of the average rounded to a tenth; where the average lies exactly between two tenths it goes up here, while the service's floating-point quotient may fall just below. An expense category's display name is not carried.
- FormReading.ReadsEachProperty: for a list whose own order names no property twice; one named twice is read twice, and the merge keeps one.
- CeoFigures.HealthIsTheAverage: the average of the previous scores.
- TokenFamilies.ReusedMeansReplaced: tokens of one family issued at one moment cannot be told apart by the table, and the last of them may be answered as a replay once its session was ended.
- CeoRedaction.NothingFinancialShows: an answer so malformed that adding it up raises is not modelled.
- Employee profile and placement fields of a declaration, deactivation, and the drift report: no branching beyond a comparison.
- The periods and calendar dates behind the trend's months: a month is its first and last day.
- Password hashing, JWT signatures, TOTP and recovery codes: inputs that say whether they were right.
- HTTP routing, paging, list endpoints, e-mail, audit rows, events, migrations and seeds: no effect on the modelled state.
