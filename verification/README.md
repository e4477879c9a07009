# Verified protocols of passage.md

passage.md is a hosted Markdown service. Its hard logic is a handful of small
concurrent protocols kept in Postgres rows and driven by racing processes:
browser tabs, agents, Stripe webhooks, workers and operator commands. This
project models those protocols in Dafny and proves what they promise over every
run.

Each SQL statement, network answer or browser event is one atomic step, and a
step that is not possible in a state leaves the state unchanged. A run is any
sequence of steps, so a theorem about all runs is a theorem about all
interleavings. Objects whose methods update fields are classes; each method is
proved equal to a function of the old state, and the theorems are about those
functions. `dafny verify dfyconfig.toml` checks everything.

| module | protocol |
|---|---|
| `BillingAccounts` | one billing row, the NULL-aware upsert guard, write-once customers, order of deliveries |
| `SubscriptionRefresh` | reserve a generation, load from Stripe, apply if still newest |
| `CheckoutLinking` | linking a Stripe customer, and neutralizing the ones created in vain |
| `CleanupOutbox` | account deletion with a Stripe cleanup job |
| `PasswordReset` | reset tokens under row locks, and the delivery queue with its lease |
| `Documents` | versioned document writes, contributors, archive and share |
| `DocumentQuota` | creating documents under a limit and a lock on the owner |
| `DocumentPages` | keyset pagination under concurrent writes |
| `AgentRewrite`, `AgentText` | the agent's read-modify-write loop and its two text changes |
| `EditorAutosave` | a browser tab autosaving against other writers |
| `EditorDraft` | what becomes of the writer's words in that tab |
| `EditorTheirs` | taking the other side's version after a refused save |
| `EditorLosses` | runs on which that tab falls short |
| `EditorUndisturbed` | what that tab does when it is left alone |
| `EditorSearch` | latest-request-wins search with a debounce and further pages |
| `RateLimits` | the process-local and the database fixed-window limiter |

## Where the code does less than it says

The code is modelled as it is. Each of these lemmas gives the exact condition
under which it falls short of its own description; the run named with it is an
input on which it does, from the start state of its module.

- `AgentText.OccursOncePromise`: the edit tool says its passage must appear
  exactly once, but matches are counted without overlaps. The promise holds in
  every document exactly for passages no proper suffix of which is also a prefix.
  Input: `OverlapRun`.
- `SubscriptionRefresh.SharedCounterKeepsPaid`: an account's subscriptions share
  one generation counter. When a canceled and a paid subscription refresh at
  once and the guard would take either, the paid one is kept exactly if it
  applies first or reserved last; the lemma covers every stored subscription.
  Input: `PaidSubscriptionDroppedRun`.
- `CheckoutLinking.NoStrayCandidate`: a checkout that is not abandoned leaves its
  candidate neither linked, neutralized nor kept for a retry exactly when the
  account is deleted between the two look-ups that follow a failed write and no
  other checkout neutralized the candidate. Input: `StrayCandidateRun`.
- `CleanupOutbox.OutboxNeverDropsACustomer`: a run keeps every deleted account's
  customer neutralized or queued exactly if each delete's check for a pending job
  still holds at its commit, or the job it overwrites is no longer needed.
  Input: `OverlappingDeletesLoseACustomer`.
- `Documents.LiveDocumentReportedMissing`: archiving reports an existing document
  as missing exactly when it was unshared in the snapshot and a share that
  nobody takes back commits before the lock is granted. Input:
  `MissingWhileSharedRun`.
- `EditorTheirs.TakingTheirsDiscardsMine`: "Discard mine, load theirs" discards
  mine, over every run of the system, exactly if no save of this tab can still be
  accepted and nothing under way changes the text. A pending edit defeats it
  (`EditorUndisturbed.PendingEditReplacesTheirs`), and so does a save already travelling with the newest version, which superseding
  does not abort. Input: `EditorLosses.SentSaveReplacesTheirs`.
- `EditorDraft.DraftStaysUnlessDropped`: what was typed stays on screen throughout
  a run exactly if no background refresh with a later update time applies to the
  closed document while a draft other than the empty one is typed, and no other
  body loads over it. Input: `EditorLosses.RefusedDraftRun`, on which "keep mine"
  then publishes their text.
- `EditorDraft.DraftIsInHandUnlessLetGo`: as long as it stays on screen, a draft
  is accepted by the server, in a conflict, waiting for its autosave or sent and
  unanswered, exactly until its save fails or another document takes the one
  pending slot, before it was accepted and without a conflict to settle. A save
  that failed stays pending but is not sent again. Inputs:
  `EditorLosses.SlotTakenRun` and `EditorLosses.LostSaveRun`.
- `EditorDraft.LoadedBodyIsRealUnlessMislabelled`: a loaded document shows the last
  text typed or exactly the content of the version it would send, throughout a
  run, exactly if no accepted answer of a superseded save and no "keep mine"
  brings the version of another body while the text on screen was not typed.
  Input: `EditorLosses.LateAnswerRun`, which shows an empty page.
- `EditorSearch.SearchesStrandOnlyWhenOvertaken`: an enabled search loads with no
  request under way exactly after a debounce has fired that a loadMore overtook
  and whose page had already been answered. Input: `StrandingFromStart`.

## Model

| member | source | states |
|---|---|---|
| BillingAccounts.Accepts | server/internal/billing/pgstore.go:308-335 | the upsert's three-valued WHERE clause is true exactly for updates that are not older, keep the customer, and refresh or outrank the stored subscription; no NULL lets anything else through |
| BillingAccounts.AfterSetCustomer | server/internal/billing/pgstore.go:193-207 | the customer id returned is the one stored afterwards; an existing one is kept and no other column moves |
| BillingAccounts.AfterReserve | server/internal/billing/pgstore.go:218-227 | the generation returned is one above the account's last, and no other column moves |
| BillingAccounts.BillingTable.SetStripeCustomer | server/internal/billing/pgstore.go:193-207 | the link keeps an existing customer and returns it |
| BillingAccounts.BillingTable.UpdateSubscription | server/internal/billing/pgstore.go:280-338 | insert or guarded overwrite, and whether it applied |
| BillingAccounts.BillingTable.ReserveRefresh | server/internal/billing/pgstore.go:217-227 | a refresh raises the generation before calling Stripe |
| BillingAccounts.BillingTable.ApplyRefresh | server/internal/billing/pgstore.go:234-273 | an apply writes only above the applied generation, and raises it to its own when it writes |
| BillingAccounts.CustomerIsWriteOnce | server/internal/billing/pgstore.go:193-338 | a stored customer id survives any run of links, updates and refreshes |
| BillingAccounts.PaidIsNeverDisplaced | server/internal/billing/pgstore.go:317-335 | an account goes from paid to unpaid only by an unpaid update of the very subscription stored as paid, never by a different one |
| BillingAccounts.SavesTheGreatest | server/internal/billing/pgstore.go:280-338 | plain deliveries store the greatest subscription by (paid, created) |
| BillingAccounts.DeliveryOrderIsIrrelevant | server/internal/billing/pgstore.go:280-338 | the same deliveries in any order and with any repeats store the same subscription |
| BillingAccounts.AcceptedUpdateIsStored | server/internal/billing/pgstore.go:282-307 | an accepted update stores what it carries and keeps what it leaves out, except the creation time of another subscription; a refused one changes nothing |
| BillingAccounts.OnlyUpdatesSetColumns | server/internal/migrations/007_billing_accounts.sql:1-14 | links and reservations alone never put a subscription column into a row |
| BillingAccounts.GenerationCountsReservations | server/internal/billing/pgstore.go:217-227 | over any run the generation counts the reservations |
| BillingAccounts.ActiveAndTrialingOutrank | server/internal/billing/pgstore.go:317-335 | active and trialing subscriptions displace any other; within a rank the later created one does |
| SubscriptionRefresh.NewAccountIsSound | server/internal/billing/pgstore.go:214-227 | an account nothing is stored for yet is a sound start |
| SubscriptionRefresh.SoundAlways | server/internal/billing/pgstore.go:214-274 | generations, stamps, customer and subscription stay consistent over every run of refreshes |
| SubscriptionRefresh.ApplyTakesEffect | server/internal/billing/pgstore.go:251-270 | a refresh above the applied generation is never turned away by the guard |
| SubscriptionRefresh.StaysSettled | server/internal/billing/pgstore.go:234-273 | after Stripe's last change the row, once mirrored, stays mirrored and the applied generation never falls |
| SubscriptionRefresh.RefreshConverges | server/internal/billing/pgstore.go:214-274 | one refresh begun after Stripe's last change and applied makes the row mirror Stripe for good, whatever else is in flight, reordered or failing |
| SubscriptionRefresh.UndisturbedRefreshMirrors | server/internal/billing/pgstore.go:214-274 | a refresh nobody disturbs makes the row mirror Stripe and stamps it with the database's clock |
| SubscriptionRefresh.StripeChangeIsMirrored | server/internal/billing/pgstore.go:214-274 | whatever Stripe changes, the next undisturbed refresh brings it into the row |
| SubscriptionRefresh.FailuresAndLinks | server/internal/billing/pgstore.go:193-207 | a failed refresh leaves the row, and a link fills in a missing customer |
| SubscriptionRefresh.PaidSubscriptionDroppedRun | server/internal/billing/pgstore.go:217-253 | a new account on which the paid subscription is dropped |
| SubscriptionRefresh.SharedCounterKeepsPaid | server/internal/billing/pgstore.go:217-253 | with two subscriptions refreshing at once, the account ends up paid exactly if the guard keeps the canceled one out, or the paid one applied first and was let in, or reserved last |
| CheckoutLinking.StepKeepsLinks | server/internal/billing/pgstore.go:198-203 | no step of checkout, refresh or delete relinks an existing account or frees a spare customer |
| CheckoutLinking.NoStrayCandidate | server/internal/server/handlers_billing.go:42-112 | over every run, an unabandoned checkout ends with its candidate linked, neutralized or kept for an existing user's retry, except exactly when the account is deleted between the two look-ups of a failed write and nobody else neutralized it |
| CheckoutLinking.GoneIfDeletedBetween | server/internal/server/handlers_billing.go:91-107 | a checkout before its second look-up has lost its user exactly if the account was deleted since the first |
| CheckoutLinking.StrayCandidateRun | server/internal/server/handlers_billing.go:42-107 | a run that leaves a stray candidate |
| CheckoutLinking.SoundAlways | server/internal/server/handlers_billing.go:32-112 | every customer up for neutralization belongs to a user who is gone or has another one |
| CheckoutLinking.NeverNeutralizesALinkedCustomer | server/internal/server/handlers_billing.go:82-112 | a neutralized customer is linked to no existing account, then or later, ambiguous write errors included |
| CheckoutLinking.LinkIsPermanent | server/internal/billing/pgstore.go:193-207 | while the user exists, the linked customer never changes |
| CheckoutLinking.LinkedUserGetsNoCandidate | server/internal/server/handlers_billing.go:32-45 | a checkout of a user who has a customer never creates another |
| CheckoutLinking.UndisturbedCheckoutLinks | server/internal/server/handlers_billing.go:32-62 | an undisturbed checkout links its candidate, be it new or the one kept for the retry |
| CheckoutLinking.OvertakenCheckoutNeutralizes | server/internal/server/handlers_billing.go:47-57 | a checkout whose user got another customer keeps that one and neutralizes its own |
| CheckoutLinking.LateWriteLinks | server/internal/billing/pgstore.go:193-207 | a write that reported an error may still land and then links its customer |
| CheckoutLinking.RefreshLinks | server/internal/billing/pgstore.go:297-316 | a subscription update links the customer it carries when there is none |
| CheckoutLinking.AbandonedCheckoutEnds | server/internal/server/handlers_billing.go:40-57 | an abandoned checkout changes no row |
| CleanupOutbox.CommitKeepsPromiseIffCareful | server/internal/accountdata/accountdata.go:152-198 | a delete keeps every deleted account's customer covered exactly if it overwrites no job that is still needed |
| CleanupOutbox.SeparateDeletesAreCareful | server/internal/accountdata/accountdata.go:152-157 | deletes of one email that do not overlap never overwrite a needed job |
| CleanupOutbox.OutboxNeverDropsACustomer | server/internal/accountdata/accountdata.go:147-338 | crashes included, a deleted account's customer is neutralized or has a job throughout a run exactly if each delete overwrites no job still needed |
| CleanupOutbox.StripeIsCalledAfterCommit | server/internal/accountdata/accountdata.go:225-308 | over every run, overlapping deletes included, Stripe is called only for customers whose account delete has committed |
| CleanupOutbox.NilResultIsFinal | server/internal/accountdata/accountdata.go:300-338 | a cleanup that returned no error left its customer neutralized and not pending, for good |
| CleanupOutbox.OverlappingDeletesLoseACustomer | server/internal/accountdata/accountdata.go:187-198 | a run from the empty state: two overlapping deletes of one email lose the first customer |
| CleanupOutbox.OnlyEndedAccountsAreDeleted | server/internal/accountdata/accountdata.go:167-182 | over every run an account goes only by a commit, and only if it never met Stripe, its subscription is canceled or incomplete_expired, or an operator verified that its customer never had one |
| CleanupOutbox.EndedAccountIsDeleted | server/internal/accountdata/accountdata.go:147-225 | such a delete removes the account and queues its customer |
| CleanupOutbox.CleanupBegins | server/internal/accountdata/accountdata.go:293-307 | a cleanup of any customer can be started, and goes on only if a job is pending |
| CleanupOutbox.AnsweredCleanupIsDone | server/internal/accountdata/accountdata.go:300-338 | a cleanup Stripe answers neutralizes its customer and removes its job alone |
| CleanupOutbox.FailedCleanupKeepsItsJob | server/internal/accountdata/accountdata.go:308-325 | one that Stripe refuses keeps the job |
| CleanupOutbox.FinishedElsewhereIsDone | server/internal/accountdata/accountdata.go:314-336 | an error is forgiven when the job is gone |
| CleanupOutbox.CrashLosesTheProcessOnly | server/internal/accountdata/accountdata.go:147-338 | a crash loses no committed row |
| PasswordReset.TokenTable.Create | server/internal/auth/pgstore.go:284-325 | issuing inserts once, and otherwise reports whether the token is still usable by this user |
| PasswordReset.TokenTable.Reset | server/internal/auth/pgstore.go:338-369 | a reset is accepted exactly for a usable token and spends all of the user's unused tokens |
| PasswordReset.TokenSucceedsAtMostOnce | server/internal/auth/pgstore.go:345-354 | over any run of interleaved transactions no token is accepted twice |
| PasswordReset.NoExpiredTokenIsAccepted | server/internal/auth/pgstore.go:345-354 | over any run every accepted reset spent its token before it expired |
| PasswordReset.IssuedTokenCanBeSpent | server/internal/auth/pgstore.go:284-369 | an issued token resets its user's tokens and nobody else's |
| PasswordReset.OwnedTokensStandStill | server/internal/auth/pgstore.go:284-369 | while a reset holds its user's row no token of that user is issued or changes |
| PasswordReset.AbortLetsGo | server/internal/auth/pgstore.go:338-345 | a rolled back transaction changes no token |
| PasswordReset.TokensOnlyDie | server/internal/auth/pgstore.go:284-324 | repeated deliveries never revive a token or move its owner or expiry |
| PasswordReset.ResetKillsEveryToken | server/internal/auth/pgstore.go:355-368 | a successful reset kills for good every token the user then holds |
| PasswordReset.ResetQueue.Claim | server/internal/auth/pgstore.go:235-258 | takes the longest-waiting claimable unlocked request, or there is none |
| PasswordReset.ResetQueue.Complete | server/internal/auth/pgstore.go:260-271 | marks the request once and drops those finished over a day ago |
| PasswordReset.ResetQueue.Retry | server/internal/auth/pgstore.go:273-282 | reschedules an open request, giving up after five attempts |
| PasswordReset.ClaimsLeft | server/internal/auth/pgstore.go:235-282 | the claims a request still gets are bounded by its attempts left and the leases that run out |
| PasswordReset.ClaimsAreBounded | server/internal/auth/pgstore.go:227-282 | a request is claimed at most five times plus once per expired lease taken over |
| PasswordReset.PromptWorkersClaimFiveTimes | server/internal/auth/pgstore.go:235-282 | without an expired lease a request is claimed at most five times |
| PasswordReset.ResetQueue.Enqueue | server/internal/auth/pgstore.go:227-233 | a queued request waits unclaimed, due at once |
| PasswordReset.TakeTurn | server/internal/auth/pgstore.go:227-282 | every queue statement acts on a request as at most one event of the claim bound's model, or removes it once processed |
| PasswordReset.ProcessOne | server/internal/auth/auth.go:279-324 | whatever other workers do meanwhile, one worker turn leaves the claimed request processed, or unclaimed with a delay of one minute per attempt, at most an hour, or as the others left it if its closing statement fails |
| Documents.StoredDocument.constructor | server/internal/documents/store.go:377-411 | a new document has version 1 and its creator as editor and only contributor |
| Documents.StoredDocument.Update | server/internal/documents/store.go:534-603 | accepted exactly for a live document at the guarded version; an accepted body is one commit on top of the last |
| Documents.StoredDocument.WriteBody | server/internal/documents/store.go:537-544 | body, version, last editor and contribution change together |
| Documents.StoredDocument.RecordContribution | server/internal/documents/store.go:430-441 | one contributor row per identity, refreshed on repeats |
| Documents.StoredDocument.ChangeVisibility | server/internal/documents/store.go:621-730 | archive, share and unshare change only live documents, and archive only unshared ones |
| Documents.StoredDocument.UpdateOrExplain | server/internal/documents/store.go:534-603 | an update of body or star is one statement; a refused guard is reported as a conflict if the document is still there and as not found if it is gone |
| Documents.VersionCountsWrites | server/internal/documents/store.go:534-566 | over any run the version counts the accepted body writes, the last editor is the latest, contributors are exactly the actors; nothing else changes them |
| Documents.StarAndTimeFollowTheRun | server/internal/documents/store.go:534-548 | over any run the star is the last one an accepted update set, and the update time that of the last statement to take effect |
| Documents.OneWritePerVersion | server/internal/documents/store.go:530-548 | of all writes guarded by one version at most one is accepted |
| Documents.NeverArchivedAndShared | server/internal/documents/store.go:621-730 | no order of archives, shares and unshares leaves a document both archived and shared |
| Documents.ShareTimeIsTheFirst | server/internal/documents/store.go:675-681 | sharing again keeps the first share time |
| Documents.StoredDocument.ArchiveOrExplain | server/internal/documents/store.go:621-667 | the archive statement decides on its snapshot and on the row once locked, whatever commits in between |
| Documents.SharedAfter | server/internal/documents/store.go:675-721 | a document still live after a run is shared exactly if it was and no unshare came, or a share came that no unshare followed |
| Documents.LiveDocumentReportedMissing | server/internal/documents/store.go:628-667 | an archive reports an existing document missing exactly when a share that nobody takes back commits between snapshot and lock |
| Documents.MissingWhileSharedRun | server/internal/documents/store.go:628-667 | a new document shared while its archive waits is reported missing |
| DocumentQuota.StepKeepsQuota | server/internal/documents/store.go:357-414 | whoever counted under the owner lock still has room at commit |
| DocumentQuota.QuotaHolds | server/internal/documents/store.go:350-422 | unarchived documents never exceed the limit, or what the owner already had above it |
| DocumentQuota.UndisturbedCreate | server/internal/documents/store.go:350-422 | an undisturbed create saves its document exactly if there are fewer live ones than the limit |
| DocumentQuota.RefusedIffFull | server/internal/documents/store.go:360-372 | a create is refused exactly if the limit is reached when it counts |
| DocumentQuota.TakenPublicIdEndsTheCreate | server/internal/documents/store.go:377-411 | a public id somebody has ends the create without a document |
| DocumentQuota.AbortsAndArchivesMakeRoom | server/internal/documents/store.go:350-422 | an abort gives the owner's row back, and an archive takes its document off the count |
| DocumentPages.ListPage | server/internal/documents/store.go:178-189 | a page is the highest keys strictly below the cursor, in descending order |
| DocumentPages.NewestFirst | server/internal/documents/store.go:186-187 | the order of a list is by update time and then id, both descending |
| DocumentPages.ServePage | server/internal/documents/handler.go:237-247 | there is a next cursor exactly when documents remain, and it is the last key shown |
| DocumentPages.Walk | apps/web/app/use-editor-documents.ts:105-140 | every untouched document once, and without writers the whole list in order within ceil(n/limit) requests; only a document whose update time fell is shown twice, and one that falls below the cursor and stays there is shown again |
| DocumentPages.RepeatsFell | server/internal/documents/store.go:186-188 | two page requests show the same document only if its update time fell in between |
| DocumentPages.NothingShownTwice | server/internal/documents/store.go:186-188 | a document whose update time never falls cannot come back below the cursor |
| AgentRewrite.Rewrite | server/internal/documents/mcp.go:287-317 | exactly one commit in the caller's name, the change applied to the body right before it, or none; undisturbed, the first attempt decides; at most three attempts, and giving up means three other writes won |
| AgentRewrite.BytesAreUtf8 | server/internal/documents/mcp.go:367-372 | a body is measured by the length of its UTF-8 form |
| AgentRewrite.Attempt | server/internal/documents/mcp.go:291-315 | one attempt writes in the caller's name or says why not; undisturbed it decides |
| AgentRewrite.Edit | server/internal/documents/mcp.go:249-263 | a written edit replaced the leftmost match in the body right before it |
| AgentRewrite.AppendTo | server/internal/documents/mcp.go:270-282 | a written append is one append to the body right before it |
| AgentText.EditReplacesLeftmost | server/internal/documents/mcp.go:253-262 | accepted exactly if every match starts before the leftmost ends; everything before and after the leftmost match is kept |
| AgentText.EditRefusals | server/internal/documents/mcp.go:249-262 | a refused edit says that there is no passage, that it does not occur, or how many occurrences there are |
| AgentText.CountIsMost | server/internal/documents/mcp.go:254 | the count is the largest number of occurrences without overlaps |
| AgentText.CountIsReached | server/internal/documents/mcp.go:254 | and that many can be found |
| AgentText.OccursOncePromise | server/internal/documents/mcp.go:69-70 | the promised single occurrence holds in all documents exactly for passages without a border |
| AgentText.OverlapRun | server/internal/documents/mcp.go:253-258 | an edit is accepted in a document where its passage occurs twice |
| AgentText.AppendsJoinParagraphs | server/internal/documents/mcp.go:270-281 | any chain of appends is the newline-trimmed body and the additions joined by one blank line, with one final newline |
| AgentText.AdditionIsTrimmed | server/internal/documents/mcp.go:271 | the addition is the markdown without the newlines around it |
| AgentText.BlankAppendIsRefused | server/internal/documents/mcp.go:272-274 | an append is refused exactly if the markdown is white space all through |
| AgentText.WhiteSpace | server/internal/documents/mcp.go:272 | white space is Unicode's |
| EditorAutosave.EditorSession.UpdateBody | apps/web/app/use-editor-documents.ts:312-317 | typing sets the text and replaces the pending save |
| EditorAutosave.EditorSession.FireAutosave | apps/web/app/use-editor-documents.ts:244-252 | the save carries the pending body and the version known when it is sent |
| EditorAutosave.EditorSession.SaveAnswered | apps/web/app/use-editor-documents.ts:257-293 | an answer records the new version; only an unsuperseded one touches text, pending save or conflict |
| EditorAutosave.EditorSession.ResolveConflict | apps/web/app/use-editor-documents.ts:324-345 | theirs replaces the text, or mine is queued again on top of their version |
| EditorAutosave.EditorSession.BodyLoaded | apps/web/app/use-editor-documents.ts:220-242 | a loaded body brings its own version |
| EditorAutosave.EditorSession.ListRefreshed | apps/web/app/use-editor-documents.ts:198-207 | the list drops the body of a closed document with no pending save and an earlier update time |
| EditorAutosave.NoSilentOverwrite | apps/web/app/use-editor-documents.ts:244-345 | an accepted versioned autosave replaces exactly a version whose content this browser had received or written |
| EditorAutosave.AutosavesCarryAVersion | apps/web/app/use-editor-documents.ts:251-252 | once a version is known every autosave carries one |
| EditorDraft.ListedIsSound | apps/web/app/use-editor-documents.ts:105-120 | a document the list has shown is a sound start for every invariant of the tab |
| EditorDraft.SupersededAnswerKeepsText | apps/web/app/use-editor-documents.ts:253-280 | a superseded save stays superseded over every run, and its answer never alters text, pending save or conflict |
| EditorDraft.DraftStaysUnlessDropped | apps/web/app/use-editor-documents.ts:198-242 | the text is the last text typed throughout a run exactly if no refresh applies to the closed document and no other body arrives late |
| EditorDraft.TextIsAsTyped | apps/web/app/use-editor-documents.ts:220-345 | without list refreshes the text stays as last typed, whatever order answers arrive in, until theirs is taken |
| EditorDraft.DraftIsInHandUnlessLetGo | apps/web/app/use-editor-documents.ts:244-345 | a draft that stays on screen is accepted, in a conflict, or on its way, exactly until its save fails or another document takes the pending slot |
| EditorDraft.LetGoIsNeverSaved | apps/web/app/use-editor-documents.ts:244-300 | a draft with no unsent edit and no save left to process is never saved before the writer types or keeps mine |
| EditorDraft.LoadedBodyIsRealUnlessMislabelled | apps/web/app/use-editor-documents.ts:198-345 | a loaded document shows the last text typed or the content of the version in hand throughout a run, exactly if no superseded answer and no "keep mine" sets the version of another body |
| EditorUndisturbed.EditIsSaved | apps/web/app/use-editor-documents.ts:244-275 | an edit of the newest version is saved, and the tab holds the new version |
| EditorUndisturbed.OutdatedEditConflicts | apps/web/app/use-editor-documents.ts:276-291 | an edit of an older version writes nothing and waits in a conflict |
| EditorUndisturbed.TypingThroughASaveIsNoConflict | apps/web/app/use-editor-documents.ts:253-275 | the answer of a superseded save brings the version the next one needs |
| EditorUndisturbed.KeepingMinePublishesMine | apps/web/app/use-editor-documents.ts:337-344 | keeping mine puts the text on screen on top of theirs |
| EditorUndisturbed.TakingTheirsShowsTheirs | apps/web/app/use-editor-documents.ts:324-336 | taking theirs shows theirs and leaves the pending save as it is |
| EditorUndisturbed.PendingEditReplacesTheirs | apps/web/app/use-editor-documents.ts:332-336 | an unsent edit survives the choice and replaces theirs |
| EditorUndisturbed.OpenedDocumentIsLoaded | apps/web/app/use-editor-documents.ts:220-242 | an opened document shows the server's content |
| EditorUndisturbed.ListRefreshDropsBody | apps/web/app/use-editor-documents.ts:198-207 | a list refresh drops the body of a closed, unpending, older document and no other |
| EditorUndisturbed.TouchesMoveTimesOnly | apps/web/app/use-editor-sharing.ts:97-106 | sharing and starring move update times only |
| EditorTheirs.TheirsStays | apps/web/app/use-editor-documents.ts:244-345 | with nothing of mine left, theirs stays on screen and this tab changes nothing on the server until the writer acts |
| EditorTheirs.TakingTheirsDiscardsMine | apps/web/app/use-editor-documents.ts:332-336 | loading theirs discards mine over every further run exactly when no save can still be accepted and nothing under way changes the text |
| EditorLosses.SentSaveReplacesTheirs | apps/web/app/use-editor-documents.ts:244-336 | a run in which a save already sent replaces theirs although nothing is pending |
| EditorLosses.SlotTakenRun | apps/web/app/use-editor-documents.ts:296-300 | a run on which an edit elsewhere clears the debounce and the draft is never sent |
| EditorLosses.LostSaveRun | apps/web/app/use-editor-documents.ts:276-293 | a run on which a save fails, stays pending and is not sent again |
| EditorLosses.RefreshLosesRefusedDraft | apps/web/app/use-editor-documents.ts:198-209 | after a background refresh, keeping mine queues their text if the update time moved, and the draft if not |
| EditorLosses.RefusedDraftRun | apps/web/app/use-editor-documents.ts:198-345 | a run on which keeping mine publishes theirs |
| EditorLosses.LateAnswerShowsEmpty | apps/web/app/use-editor-documents.ts:257-272 | a late answer marks a refreshed document loaded with no body, under the version of the saved one |
| EditorLosses.LateAnswerRun | apps/web/app/use-editor-documents.ts:198-272 | a run on which that happens |
| EditorSearch.SearchSession.RunEffect | apps/web/app/use-editor-search.ts:55-63 | new props supersede and abort the running request and start a debounce |
| EditorSearch.SearchSession.TimerFires | apps/web/app/use-editor-search.ts:63-72 | the debounced first page is filed under the current key |
| EditorSearch.SearchSession.RequestMore | apps/web/app/use-editor-search.ts:103-111 | a further page supersedes and aborts the running request |
| EditorSearch.SearchSession.Settle | apps/web/app/use-editor-search.ts:73-129 | only the latest request of the current key changes the results |
| EditorSearch.OnlyCurrentResultsAreShown | apps/web/app/use-editor-search.ts:55-145 | documents shown come only from searches for the current user and query, none twice |
| EditorSearch.LatestAnswerIsShown | apps/web/app/use-editor-search.ts:73-124 | the latest answer's page is shown: a first one alone, a further one behind, without the documents already there and leaving none out |
| EditorSearch.UnknownSplits | apps/web/app/use-editor-search.ts:114-118 | a further page keeps its order |
| EditorSearch.LatestErrorEndsLoading | apps/web/app/use-editor-search.ts:84-129 | an error ends the loading and leaves what is shown |
| EditorSearch.UndisturbedSearchAsks | apps/web/app/use-editor-search.ts:55-72 | an undisturbed debounce asks for the current query's first page |
| EditorSearch.LoadMoreAsksBehindTheCursor | apps/web/app/use-editor-search.ts:103-111 | loading more asks for the page behind the cursor |
| EditorSearch.MoreCanBeLoaded | apps/web/app/use-editor-search.ts:103-104 | exactly behind a cursor of the current search that is not loading |
| EditorSearch.NothingWithoutASearch | apps/web/app/use-editor-search.ts:55-59 | a blank or overlong query, no user or a pause asks and shows nothing |
| EditorSearch.FiringStrands | apps/web/app/use-editor-search.ts:63-85 | a firing debounce leaves the search loading for nothing exactly when a loadMore overtook it and was already answered |
| EditorSearch.SearchesStrandOnlyWhenOvertaken | apps/web/app/use-editor-search.ts:55-130 | over every run an enabled search waits for nothing exactly after such a debounce |
| EditorSearch.StrandedUntilChange | apps/web/app/use-editor-search.ts:103-104 | such a search stays loading until the props change or a retry |
| EditorSearch.StrandingRun | apps/web/app/use-editor-search.ts:55-130 | a retry, a quick loadMore and its page lead there |
| EditorSearch.StrandingFromStart | apps/web/app/use-editor-search.ts:55-130 | that run from the first render on |
| RateLimits.MemoryLimiter.Allow | server/internal/server/ratelimit.go:104-135 | the answer and new map, and no window two windows old survives a call |
| RateLimits.MemoryLimiter.Sweep | server/internal/server/ratelimit.go:115-122 | exactly the expired entries go |
| RateLimits.MemoryAnswersLikeTable | server/internal/server/ratelimit.go:112-135 | sweeping never changes an answer |
| RateLimits.DatabaseLimiter.Allow | server/internal/server/ratelimit.go:104-111 | a disabled limit admits without touching a row |
| RateLimits.DatabaseLimiter.Consume | server/internal/server/ratelimit_store.go:32-78 | one saturating upsert after cleanup decides the answer |
| RateLimits.DatabaseLimiter.MaybeCleanup | server/internal/server/ratelimit_store.go:80-106 | within a minute of the last cleanup nothing is removed; otherwise one batch goes and the minute starts anew unless the batch was full |
| RateLimits.DatabaseLimiter.CleanupExpired | server/internal/server/ratelimit_store.go:108-127 | the first-expired unlocked rows go, at most a hundred |
| RateLimits.RowsAnswersLikeTable | server/internal/server/ratelimit_store.go:40-77 | saturating and cleaning up never change an answer |
| RateLimits.LimitersAgree | server/internal/server/ratelimit.go:104-135 | both limiters give every request the same answer and retry delay |
| RateLimits.AtMostTwiceTheLimit | server/internal/server/ratelimit.go:124-134 | on the plain table both limiters answer like, any interval one window long admits at most twice the limit per key |
| RateLimits.RetryDelayIsExact | server/internal/server/ratelimit.go:129-131 | on that table, a request is admitted exactly from the reported retry time on |
| RateLimits.LimitersAdmitAtMostTwice | server/internal/server/ratelimit.go:104-135 | the answers of either limiter admit at most twice the limit per key in any interval one window long |
| RateLimits.LimitersRetryDelayIsExact | server/internal/server/ratelimit.go:129-131 | the delay either limiter reports is the moment from which its next answer admits |
| RateLimits.LimitersRefuseOnlyUsedUpLimits | server/internal/server/ratelimit.go:104-135 | either limiter refuses a request only if its key was admitted as often as the limit within the window before; a limit or window below one refuses nothing |
| RateLimits.RetryAfterSeconds | server/internal/server/ratelimit.go:174-178 | the Retry-After header is the delay in seconds rounded up, at least one |

## Left out

- HTTP, JSON, cookies, bcrypt, HMAC and hashing: hashes and derived tokens are injective names; ids are compared for equality only.
- Database errors of a limiter (answered 503) and hash collisions of its keys.
- Postgres itself: a statement is atomic, row locks serialize writers, and a WHERE clause is checked again after waiting. Initial column values and cascades follow `server/internal/migrations`.
- `SubscriptionRefresh.RefreshConverges`: one subscription and one customer per account and a database clock that does not run back; unique-index errors count as failed refreshes. Price, creation time and period end are exact only when the update carries them.
- `BillingAccounts.DeliveryOrderIsIrrelevant`: for updates without event times only; refreshes share one generation counter, see `SharedCounterKeepsPaid`.
- `CheckoutLinking.NeverNeutralizesALinkedCustomer`: user ids are never reused, and a subscription update for a user names a customer Stripe created for that user.
- `CheckoutLinking`, `CleanupOutbox` and `SubscriptionRefresh` model the handlers and commands as steps on values, not as methods: each handler holds no state of its own between statements.
- `CleanupOutbox.OutboxNeverDropsACustomer`: a customer belongs to one account and is not reused after a delete; subscription statuses are compared as Stripe spells them.
- A delete without a Stripe client, which is refused for an account with a customer.
- The other rows a delete removes (reset requests, rate-limit rows, exports).
- `PasswordReset.ProcessOne`: the purge of old requests failing after the completed request was marked.
- Reset-attempt rate limits, sessions and mail delivery; accounts are not deleted in `PasswordReset`.
- `AgentRewrite.Rewrite`: the mutation rate limit before it and unexpected database errors.
- Document titles, tags and excerpts, full-text search and its ranking.
- `DocumentQuota.QuotaHolds`: for callers with a limit that does not change; the limit `-1` skips the count.
- `DocumentPages.Walk`: cursors keep time and id exactly; ids are not reused. That nothing is shown twice is promised if update times never fall, which Postgres does not quite grant: `now()` is when a transaction starts, so a write that waited for the row lock may stamp an earlier time than the write before it.
- `EditorAutosave`: one document; discarding blank documents on leaving them is not part of it; unversioned saves of the share and failed-delete paths count as another writer. A render and its effects are one step, so a callback never sees an older render.
- `EditorDraft.TextIsAsTyped`: without the background list refresh, which can drop an inactive document's body; `DraftStaysUnlessDropped` covers runs with it.
- `EditorSearch`: error texts; callbacks belong to the latest render; a search runs as the user it was made for.
- `RateLimits.RetryAfterSeconds`: exact integers instead of the floating-point seconds in the Go code.
- Stripe's and Resend's clients, webhook signatures, invoice parsing, plan precedence, exports, static files and all rendering.
