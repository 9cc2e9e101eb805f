# Verified model of the Nomiqa services

This project models the parts of the Nomiqa digital-card platform where a mistake would be hard to see
by reading one function: cards edited, published and reviewed by several people at once; subscriptions,
invoices and payments; the CSV export and the employee import; billing dates; rate limiting; seats;
contacts and their duplicates; reports; and public addresses. Everything stated below holds for every
input, or for every run of any number of clients.

How the model is laid out:

- A table that the services change row by row is a value (`CardTables.Tables`, `BillingTables.Tables`,
  `Seats.Tables`, `Contacts.Tables`) with one function for each transaction. Beside it stands a class that
  holds the rows as fields and changes them in place (`CardStore`, `BillingStore`, `SeatStore`,
  `ContactStore`). Each method is proved to turn the old view into what the function says, to keep the
  rows `Sound` where its callers do what the services do, and to have the effects they rely on.
- A protocol (`CardProtocol`, `BillingProtocol`, `Seats`, `Contacts`) is a machine whose steps are the
  reads and transactions of the calls, one client each, in any order. Clocks, ids, random picks and the
  payment gateway's answers come in as parameters of the steps. A transaction is atomic.
- What holds in every run is in `CardSafety`, `BillingSafety` and `BillingResults`, `SeatSafety` and
  `ContactSafety`. The rows stay `Sound` in every run (for seats: one pending invitation an address).
- What a value goes back to is in `CardEdits`, `CardReviews`, `BillingTerms` and `ContactSafety`: the edit, review,
  checkout or answer of the run that it came from.
- What a call comes to when nobody else moves is in `BillingCalls`.
- When exactly a promise holds is in `CardApprovals`, `CsvLineEnds`, `BillingResults`, `BillingRenewals`,
  `BillingSessions`, `SeatRuns` and `ContactRuns`. `CardExamples` and `BillingExamples` hold runs from the
  start that break one.
- Loops of the source are methods with loops (`Csv.ParseCsv`, `EmployeeImport.PartBody`,
  `ContactForms.ValidateAgainstForm`, `EventReport.BuildReport`, `Analytics.BuildSeries`,
  `Slugs.RandomSlugToken`).

Where the code does less than its comments or its design promise, the model follows the code, a lemma gives
the run that shows it, and another states exactly when the promise holds:

- A reviewer's `finish` writes the status without looking at it, so a request withdrawn in the meantime is
  applied and then marked approved (`CardExamples.WithdrawnYetApplied`, `CardApprovals.AppliedExactly`).
- A change request carries a revision in its payload besides the base revision the service notes, and only
  the payload's is compared inside the transaction (`CardExamples.AppliedOffItsBase`,
  `CardSafety.RequestCommittedOnce`).
- `update` checks that the default language is covered only when content is sent
  (`CardExamples.DefaultLanguageUncovered`, `CardTables.CoveredExactly`).
- `quoteChange` takes VAT at 5% whatever the configured rate (`Pricing.QuotesHonouredExactly`).
- `addInterval` keeps dates in order but not instants (`Calendar.InstantsCrossExactly`), and twelve months
  are not always a year (`Calendar.TwelveMonthsAreOneYear`).
- `expireOverdue` downgrades on what it read earlier, even someone who has paid since
  (`BillingExamples.JustPaidYetDowngraded`, `BillingResults.GraceHonouredExactly`). Nothing in the repository
  calls it: the worker expires subscriptions in its place (apps/worker/src/billing/cycle-handler.ts:95-120)
  and asks for the past-due status again in its update.
- `createCheckout` opens a payment for an invoice that is already settled (`BillingExamples.PaidTwice`,
  `BillingSessions.CheckoutOpensExactly`), and overlapping calls open two that can both be paid
  (`BillingSessions.OverlapOpensTwo`, `BillingSessions.SecondSessionExactly`); a short amount reported by the
  gateway is logged and makes no difference.
- `applyPaidInvoice` restarts the period each time it is applied (`BillingResults.AppliedAgain`).
- Overlapping renewals issue two invoices for one period (`BillingExamples.RenewedTwice`,
  `BillingRenewals.SecondInvoiceExactly`, `BillingRenewals.RenewedOnce`), and a renewal prepared early never
  enters the grace period later (`BillingRenewals.GraceReachedExactly`). `prepareRenewal` has no caller in
  the repository either; the worker enters the grace period itself, with the status as a condition of its
  update (apps/worker/src/billing/cycle-handler.ts:212-240).
- Invitations whose seat checks overlap overdraw the seats (`SeatSafety.TwoInvitesOverdraw`,
  `SeatRuns.OverdrawnByAny`); calls one at a time do not (`SeatRuns.OneAtATimeWithinLimit`). `reinstate`
  checks nothing (`SeatSafety.ReinstateExactly`).
- The scan worker writes its result over a job saved meanwhile, which can then be confirmed a second time
  (`ContactRuns.SecondContact`, `ContactRuns.SecondContactExactly`); a discarded scan can still be confirmed
  (`ContactRuns.DiscardedYetConfirmed`, `ContactRuns.DiscardedConfirmedExactly`).
- Overlapping forms from one new visitor give two unlinked contacts (`ContactRuns.TwoOriginals`,
  `ContactRuns.MissedExactly`).

## Model

| member | source | states |
|---|---|---|
| `CardSnapshots.SnapshotShows` | apps/api/src/cards/card-snapshot.ts:62-108 | in whatever order the links are read, the snapshot holds the contents, exactly the visible links, sorted by position, and the parsed columns of the card |
| `CardSnapshots.SnapshotDetermined` | apps/api/src/cards/card-snapshot.ts:62-108 | two snapshots of one card differ at most in media URLs and in the order of links that share a position |
| `CardSnapshots.UnblockedIsPresentable` | apps/api/src/cards/card-snapshot.ts:116-130 | nothing blocks publishing exactly when there is a name in the default language, a link, and no hidden link |
| `CardSnapshots.CollectFirsts` | apps/api/src/cards/card-snapshot.ts:175-203 | the pass with its set of seen keys keeps, of readable entries with the same key, the first |
| `CardSnapshots.ThemeReadExactly` | apps/api/src/cards/card-snapshot.ts:133-155 | each field of a theme is read exactly if its column holds an accepted text, a colour being a hash and six hexadecimal digits |
| `CardSnapshots.ThemeReadsBack` | apps/api/src/cards/card-snapshot.ts:133-155 | a well-formed theme is read back from its column as it was written |
| `CardSnapshots.ContactFormReadsBack` | apps/api/src/cards/card-snapshot.ts:165-206 | a form with known, unrepeated fields is read back from its column as it was written |
| `CardSnapshots.SectionsReadBack` | apps/api/src/cards/card-snapshot.ts:209-224 | so is a section order without repetitions |
| `CardSnapshots.SectionsWellFormed` | apps/api/src/cards/card-snapshot.ts:209-224 | whatever the column holds, the order read from it has known sections, each once |
| `CardTables.CardStore.Update` | apps/api/src/cards/cards.service.ts:331-436 | the transaction is refused and leaves every row as it was, or raises the revision by one and leaves in each of the nine columns the value sent for it or the old one, for each language sent its last content, and the links sent; the public page stays the same and the rows sound |
| `CardTables.CardStore.Publish` | apps/api/src/cards/cards.service.ts:490-531 | accepted exactly if the card still has the revision that was read and is not deleted; then the public page serves that snapshot, whatever it served before, and earlier publications stay; otherwise nothing changes |
| `CardTables.CardStore.Unpublish` | apps/api/src/cards/cards.service.ts:551-556 | afterwards there is no public page, also for a deleted card; body, revision and publications stay and the rows stay sound |
| `CardTables.CardStore.Remove` | apps/api/src/cards/cards.service.ts:580-584 | afterwards the card is deleted and has no public page; its body, revision and publications stay |
| `CardTables.CardStore.Offboard` | apps/api/src/teams/members.service.ts:360-372 | the page goes down exactly for the leaver's card when that is asked for, and otherwise serves what it did; only the leaver's card changes hands, to the heir, and a live one always does; no new revision |
| `CardTables.CardStore.Submit` | apps/api/src/branding/approvals.service.ts:135-167 | afterwards the new request is the requester's only pending one, even if there were several; others' requests, and everything of his but the status of pending ones, stay |
| `CardTables.CardStore.Withdraw` | apps/api/src/branding/approvals.service.ts:318-329 | succeeds exactly on the requester's own pending request; then he has none pending, and no other request changes |
| `CardTables.CardStore.Finish` | apps/api/src/branding/approvals.service.ts:331-347 | the status is written whatever it was; the payload and all other requests stay, and unless it is set to pending nobody has a request pending who had none |
| `CardTables.ReplaceContents` | apps/api/src/cards/cards.service.ts:359-383 | deleting and upserting locale by locale leaves exactly the edit's contents |
| `CardTables.ReplaceLinks` | apps/api/src/cards/cards.service.ts:385-423 | deleting, updating and creating link by link computes the link table of the edit, or stops at an unknown id |
| `CardTables.LinksReplacedInFull` | apps/api/src/cards/cards.service.ts:385-423 | that table holds exactly the edit's links under the ids it names or new ones; it is refused exactly when an id is not one of the card's |
| `CardTables.CoveredExactly` | apps/api/src/cards/cards.service.ts:324-329 | after an edit the default language has content if and only if the edit brings content or the language already had some |
| `CardProtocol.StartInv` | apps/api/src/cards/cards.service.ts:209-296 | a new card meets the invariant the next lemmas start from |
| `CardSafety.RunInv` | apps/api/src/cards/cards.service.ts:298-599 | every step of every client keeps the history, what clients hold, the publications and the requests consistent |
| `CardSafety.AsItStood` | apps/api/src/cards/cards.service.ts:334-353 | the version recorded for a revision is the card as it stood at that revision, at any moment of any run |
| `CardEdits.ColumnsAreLastSent` | apps/api/src/cards/cards.service.ts:334-357 | in every run each column has, at every revision, the value of the last committed edit that sent one, or else of the first version |
| `CardEdits.ChildrenAreLastSent` | apps/api/src/cards/cards.service.ts:359-423 | so have its contents, language by language, and its links, id by id |
| `CardSafety.PublicationsFaithful` | apps/api/src/cards/cards.service.ts:452-531 | every publication shows the card as it stood at its revision and was presentable, though the card is read in three steps; publication revisions never decrease |
| `CardSafety.NothingUnpublished` | apps/api/src/cards/cards.service.ts:882-889 | a published card that reports no unpublished changes has a latest snapshot that shows the live card |
| `CardSafety.PublicPageShowsOneVersion` | apps/api/src/cards/cards.service.ts:612-641 | in every run the rows are sound: the public page is up exactly while the card is published; it shows one committed version |
| `CardSafety.NoLostUpdate` | apps/api/src/cards/cards.service.ts:311-357 | the revision counts the committed edits; each was made on exactly the version it names, so no two share a base |
| `CardSafety.RequestCommittedOnce` | apps/api/src/branding/approvals.service.ts:304-312 | a request is committed at most once, with its own payload, on the revision the payload names, which is the noted base if and only if the payload names the base |
| `CardSafety.ApprovedWasCommitted` | apps/api/src/branding/approvals.service.ts:138-155 | an approved request has been committed; a requester has at most one pending request |
| `CardSafety.NeverPendingAgain` | apps/api/src/branding/approvals.service.ts:279-347 | a request that left pending never returns to it |
| `CardReviews.StatusWasDecided` | apps/api/src/branding/approvals.service.ts:279-316 | in every run a request is rejected only where it was refused while pending, stale only where it was approved on a card moved off its base, approved only where it was approved on its base |
| `CardReviews.DecisionCarriedOut` | apps/api/src/branding/approvals.service.ts:287-302 | whatever others do in between, a refusal makes the request rejected and an approval off its base makes it stale, and changes nothing else of it |
| `CardSafety.SettledStaysUnapplied` | apps/api/src/branding/approvals.service.ts:258-329 | a request settled while no reviewer is at work on it is never applied afterwards, whatever revision its payload names |
| `CardApprovals.AppliedExactly` | apps/api/src/branding/approvals.service.ts:279-347 | a settled request that was not applied and names no future revision can still be applied if and only if a reviewer is about to, the card still has the revision the payload names, and the payload passes the checks on it |
| `CardExamples.WithdrawnYetApplied` | apps/api/src/branding/approvals.service.ts:308-347 | a run in which a withdrawn request is applied and ends up approved |
| `CardExamples.AppliedOffItsBase` | apps/api/src/branding/approvals.service.ts:147-154 | a run in which a request is applied to a version that is not its base |
| `CardExamples.DefaultLanguageUncovered` | apps/api/src/cards/cards.service.ts:324-329 | an accepted edit that leaves the card without content in its default language |
| `Csv.ParseCsv` | apps/api/src/teams/employee-csv.ts:44-107 | the index loop, which sometimes advances by two, computes what the character machine reads; what that is for a file say the next two rows |
| `Csv.WrittenReadBack` | apps/api/src/teams/employee-csv.ts:44-107 | a file with lines ending in LF or CR LF, the last perhaps in nothing, and cells quoted where they must be or anywhere, is read as its table without blank rows, with or without a byte order mark |
| `CsvLineEnds.CrIgnoredExactly` | apps/api/src/teams/employee-csv.ts:44-107 | after an even number of quotes a carriage return changes what is read if and only if it stands between two quotes |
| `Csv.ReadBack` | apps/api/src/contacts/contact-csv.ts:78-94 | reading what was printed gives the table with each cell guarded and blank rows dropped, for every table, with any characters in its cells |
| `Csv.NoFormulaReadBack` | apps/api/src/contacts/contact-csv.ts:86-94 | no cell read back starts with a formula character |
| `Csv.LosslessExactlyWhenGuarded` | apps/api/src/contacts/contact-csv.ts:86-94 | the round trip gives the table itself if and only if it has no blank row and no cell that starts like a formula |
| `ContactExport.CustomKeys` | apps/api/src/contacts/contact-csv.ts:49-75 | the custom columns are exactly the keys that occur in some contact, each once, sorted |
| `ContactExport.ExportReadsBack` | apps/api/src/contacts/contact-csv.ts:49-75 | the export reads back as one header and one row per contact, all of one width, whatever was typed into the contacts |
| `ContactExport.BaseValuesFound` | apps/api/src/contacts/contact-csv.ts:49-75 | each contact's fixed values stand under their own headers, which differ |
| `ContactExport.JoinOneMore` | apps/api/src/contacts/contact-csv.ts:49-75 | tags stand in order with the separator between them |
| `ContactExport.CustomValueFound` | apps/api/src/contacts/contact-csv.ts:49-75 | a custom value stands in its contact's row under its own key's header |
| `EmployeeImport.MapHeaders` | apps/api/src/teams/employee-csv.ts:110-131 | each column is read from the first header cell that names it |
| `EmployeeImport.SpacesForUnderscores` | apps/api/src/teams/employee-csv.ts:110-131 | a header names a column also with spaces where the alias has underscores |
| `EmployeeImport.FieldsRead` | apps/api/src/teams/employee-csv.ts:163-190 | each field of a row is what the cell under its own column's header holds between white space |
| `EmployeeImport.ParseEmployeeCsv` | apps/api/src/teams/employee-csv.ts:144-220 | the import is refused exactly for an empty file, a missing e-mail column or too many rows; otherwise its lists are the accepted and the refused rows |
| `EmployeeImport.PartBody` | apps/api/src/teams/employee-csv.ts:163-218 | the pass with its set of seen e-mails accepts exactly the valid rows whose e-mail no earlier valid row has |
| `EmployeeImport.ImportPartitions` | apps/api/src/teams/employee-csv.ts:163-220 | each body row number is in exactly one of the two lists, and both are in file order |
| `EmployeeImport.EmailsDistinct` | apps/api/src/teams/employee-csv.ts:163-220 | accepted e-mails are pairwise distinct |
| `EmployeeImport.DuplicateExactly` | apps/api/src/teams/employee-csv.ts:163-220 | a valid row is reported as a duplicate if and only if an earlier accepted row has its e-mail |
| `Calendar.DayFromYearClosed` | apps/api/src/billing/pricing.ts:85-102 | the year numbers under the model's dates are those of ECMA-262, section 21.4.1 |
| `Calendar.CivilOf` | apps/api/src/billing/pricing.ts:86-87 | every day number is a valid Gregorian date whose number it is |
| `Calendar.CivilUnique` | apps/api/src/billing/pricing.ts:86-87 | and the only one |
| `Calendar.AddInterval` | apps/api/src/billing/pricing.ts:85-102 | overflowing and stepping back to day 0 gives the plain rule: same time of day, next month or same month next year, the old day or that month's last |
| `Calendar.OverflowLands` | apps/api/src/billing/pricing.ts:89-99 | the overflowed date is the target, or lies in the month after, whose day 0 is the target |
| `Calendar.NextPeriodIsLater` | apps/api/src/billing/pricing.ts:85-102 | the end is strictly later than the start, at the same time of day |
| `Calendar.PeriodEndMonotone` | apps/api/src/billing/pricing.ts:85-102 | a later date never gets an earlier end |
| `Calendar.InstantsCrossExactly` | apps/api/src/billing/pricing.ts:85-102 | an earlier instant gets the later end if and only if both dates are cut to one day and its time of day is the later |
| `Calendar.InstantsCross` | apps/api/src/billing/pricing.ts:85-102 | in every year 30 January 23:00 and 31 January 01:00 are such a pair |
| `Calendar.MonthlyRenewal` | apps/api/src/billing/subscriptions.service.ts:528-529 | n renewals pass n months; the day never grows, is the smallest of the start day and the visited months' lengths, and not below the smaller of it and 28 |
| `Calendar.TwelveMonthsAreOneYear` | apps/api/src/billing/subscriptions.service.ts:528-529 | twelve monthly renewals equal a yearly one if and only if the start is in February or not past the February in between |
| `Pricing.RoundedClosely` | apps/api/src/billing/pricing.ts:52 | the rounded quotient is within half of the exact one, ties upwards |
| `Pricing.RoundedIs` | apps/api/src/billing/pricing.ts:52 | and the only such whole number |
| `Pricing.AmountsAddUp` | apps/api/src/billing/pricing.ts:41-75 | refused exactly for a negative subtotal; otherwise the discount lies between 0 and the subtotal, the total is what is left plus VAT, and VAT is within half a baisa of exact |
| `Pricing.DiscountAsPromised` | apps/api/src/billing/pricing.ts:64-75 | a percentage up to 100% is taken within half a baisa, a fixed coupon takes the smaller of its amount and the subtotal |
| `Pricing.TotalMonotone` | apps/api/src/billing/pricing.ts:41-75 | a larger subtotal never has a smaller total, for any coupon, also above 100% |
| `Pricing.CouponNeverRaises` | apps/api/src/billing/pricing.ts:64-75 | no coupon raises a total; it is zero exactly when the discount is everything |
| `Pricing.CreditRunsOut` | apps/api/src/billing/pricing.ts:112-136 | unused credit lies between 0 and the amount paid, never grows with time, is everything before the period and nothing after it |
| `Pricing.CreditProportional` | apps/api/src/billing/pricing.ts:112-136 | in between it is proportional: within half a baisa of the exact share of the begun days left in the begun days of the period |
| `Pricing.QuotedLine` | apps/api/src/billing/subscriptions.service.ts:783-788 | unit price times seats differs from the net amount by at most half a baisa a seat |
| `Pricing.QuotesHonouredExactly` | apps/api/src/billing/subscriptions.service.ts:801-812 | every quote equals the invoice it leads to if and only if the configured VAT rate is the default |
| `BillingTables.FreeUntilIsThatDay` | apps/api/src/billing/subscriptions.service.ts:705 | the end of a free period, as a number of milliseconds, is midnight of 31 December 2999 |
| `BillingTables.BillingStore.BeginTrial` | apps/api/src/billing/subscriptions.service.ts:613-641 | succeeds exactly without a subscription row, so at most once; then plan, price and seats are those asked for, the trial's end is the period's, and the trial is the first and only event; invoices and payments stay, and the rows stay sound |
| `BillingTables.BillingStore.Apply` | apps/api/src/billing/subscriptions.service.ts:341-400 | plan, price and seats are the invoice's, active from now until the new end, with no deadline and no cancellation; of the invoices only this one changes, and only in its link and period; a coupon is counted only when it is newly redeemed, and for a settled invoice the rows stay sound |
| `BillingTables.BillingStore.CancelNow` | apps/api/src/billing/subscriptions.service.ts:426-448 | plan, price and seats stay; an immediate cancellation ends the period now; a scheduled one keeps status and period, and resuming restores the row exactly if none was scheduled before; the rows stay sound either way |
| `BillingTables.BillingStore.ResumeNow` | apps/api/src/billing/subscriptions.service.ts:480-493 | no cancellation is scheduled afterwards; status and period stay, so an immediate cancellation is not undone; the rows stay sound |
| `BillingTables.BillingStore.StartGrace` | apps/api/src/billing/subscriptions.service.ts:644-661 | an active or trialing subscription gets a deadline in seven days and keeps its plan; one already past due keeps its deadline; the rows stay sound |
| `BillingTables.BillingStore.DowngradeToFree` | apps/api/src/billing/subscriptions.service.ts:692-731 | there is an active free subscription for one seat until the end of 2999, without price, deadline or coupon; invoices, payments and redemptions stay; the rows stay sound |
| `BillingTables.BillingStore.SettlePayment` | apps/api/src/billing/invoices.service.ts:317-338 | the payment is paid and its invoice settled in full; a second time changes nothing, a settled invoice is never touched, other payments and invoices stay, and the rows stay sound |
| `BillingTables.BillingStore.IssueInvoice` | apps/api/src/billing/invoices.service.ts:66-141 | refused exactly for a negative subtotal, which the loop over the lines adds up; otherwise one invoice is added, settled exactly if nothing is to be paid; the rows stay sound |
| `BillingTables.BillingStore.CreateCheckout` | apps/api/src/billing/invoices.service.ts:154-243 | undisturbed, it returns a live payment if the invoice has one, and otherwise adds one for the whole amount, failed if the gateway refuses; two live payments never arise; the rows stay sound |
| `BillingTables.BillingStore.FindReusable` | apps/api/src/billing/invoices.service.ts:158-181 | finds the newest payment that can still be paid, exactly if there is one |
| `BillingTables.BillingStore.CloseExpired` | apps/worker/src/billing/cycle-handler.ts:155-167 | exactly the pending payments past their expiry are closed |
| `BillingSafety.RunKeeps` | apps/api/src/billing/subscriptions.service.ts:227-734 | every interleaving keeps subscription, events, invoices, payments and what clients hold consistent; invoices and payments only grow |
| `BillingSafety.RunInv` | apps/api/src/billing/subscriptions.service.ts:227-734 | from a new organisation every run keeps the invariant, and with it the rows sound |
| `BillingResults.PlanAccountedFor` | apps/api/src/billing/subscriptions.service.ts:227-403 | in every run plan, price and seats together are the free ones, those of one settled invoice, or of the trial's plan; the price is null exactly when the plan is free; a trial is only ever the first event |
| `BillingTerms.SubscribedAsAsked` | apps/api/src/billing/subscriptions.service.ts:227-403 | in every run plan, price and seats together are the free ones or were asked for by one checkout, for a trial or with a settled invoice that names them |
| `BillingTerms.BilledAsAsked` | apps/api/src/billing/subscriptions.service.ts:227-582 | every invoice, renewals included, is for plan, price and seats that one checkout asked for |
| `BillingResults.DeadlineExactlyWhenPastDue` | apps/api/src/billing/subscriptions.service.ts:412-497 | unless an immediate cancellation is under way, past due if and only if a grace end is set, and the period start precedes its end; a scheduled cancellation has a time |
| `BillingResults.DueExactly` | apps/api/src/billing/subscriptions.service.ts:585-599 | in every run a subscription has been past due for seven days if and only if its row is past due and the deadline has passed |
| `BillingResults.GraceHonouredExactly` | apps/api/src/billing/subscriptions.service.ts:585-599 | a downgrade on an earlier read hits a subscription that is due if and only if the row still is overdue; it is unless a step in between ended the lapse, and right after such a step it never is |
| `BillingExamples.JustPaidYetDowngraded` | apps/api/src/billing/subscriptions.service.ts:585-599 | a run from a new organisation in which a payer is active on the plan and the next step downgrades it |
| `BillingResults.AppliedAgain` | apps/api/src/billing/subscriptions.service.ts:338-363 | applying an invoice again leaves the subscription as it is if and only if it happens at the same instant; the coupon is not counted again |
| `BillingResults.PaidOnceForGood` | apps/api/src/billing/invoices.service.ts:255-341 | between any two moments amounts stay, what is settled stays settled by the same payment, settled means paid in full, and a paid payment stays paid |
| `BillingExamples.PaidTwice` | apps/api/src/billing/invoices.service.ts:154-243 | a run from a new organisation after which one invoice has two paid payments |
| `BillingSessions.CheckoutOpensExactly` | apps/api/src/billing/invoices.service.ts:158-243 | for any invoice, settled or not, the call adds a payment if and only if none is live, and otherwise changes no row |
| `BillingSessions.OneLiveSession` | apps/api/src/billing/invoices.service.ts:148-153 | in every run in which no two clients are inside the call for one invoice, an invoice never has two payments that can be paid |
| `BillingSessions.SecondSessionExactly` | apps/api/src/billing/invoices.service.ts:158-224 | after a client that found nothing to reuse has stored its session, another payment of the invoice can be paid too if and only if a session was stored on it since and is still live |
| `BillingSessions.OverlapOpensTwo` | apps/api/src/billing/invoices.service.ts:158-224 | as soon as two clients have found nothing to reuse, their next steps give the invoice two |
| `BillingRenewals.SecondInvoiceExactly` | apps/api/src/billing/subscriptions.service.ts:531-566 | a renewal's invoice joins an unapplied one for the same period if and only if another was issued between its check and its issue and is still unapplied |
| `BillingRenewals.RenewedOnce` | apps/api/src/billing/subscriptions.service.ts:509-582 | in every run in which no two clients renew one period at once, a second invoice for it is issued only after the earlier ones were applied |
| `BillingRenewals.OverlapDoubles` | apps/api/src/billing/subscriptions.service.ts:531-566 | as soon as two clients have passed the check for one period, their next steps give it two invoices |
| `BillingExamples.RenewedTwice` | apps/api/src/billing/subscriptions.service.ts:531-566 | a run from a new organisation that does |
| `BillingRenewals.GraceReachedExactly` | apps/api/src/billing/subscriptions.service.ts:541-582 | a renewal prepared after the period's end goes on to the grace period if and only if nothing was issued for it yet, the amount is positive and the session is opened |
| `BillingResults.RedeemedOnce` | apps/api/src/billing/subscriptions.service.ts:815-847 | however often invoices with a coupon are applied, its counter rises at most once |
| `BillingCalls.ConfirmUndisturbed` | apps/api/src/billing/invoices.service.ts:255-341 | undisturbed, a confirmation settles and applies what the gateway calls paid, records any other final answer, does nothing without one, and applies again what was paid before |
| `BillingCalls.CancelUndisturbed` | apps/api/src/billing/subscriptions.service.ts:412-470 | undisturbed, a cancellation is refused exactly without a subscription or on a canceled one, and otherwise is scheduled or makes the plan free at once |
| `BillingCalls.ResumeUndisturbed` | apps/api/src/billing/subscriptions.service.ts:472-497 | undisturbed, a cancellation is taken back exactly while it is scheduled and the period has not ended |
| `BillingCalls.ExpiredClosed` | apps/worker/src/billing/cycle-handler.ts:155-167 | the worker's step voids exactly the pending payments past their expiry, and touches nothing else |
| `RateLimit.RateLimiter.CanActivate` | apps/api/src/common/rate-limit.guard.ts:59-97 | the counter is raised as INCR and EXPIRE NX do, and the request admitted exactly within the limit |
| `RateLimit.CountersCount` | apps/api/src/common/rate-limit.guard.ts:59-73 | a counter holds every arrival of its window and outlives the window |
| `RateLimit.WindowAdmits` | apps/api/src/common/rate-limit.guard.ts:59-97 | a window admits exactly the smaller of the limit and the arrivals |
| `RateLimit.IntervalAdmitsTwice` | apps/api/src/common/rate-limit.guard.ts:59-97 | any interval of one window's length admits at most twice the limit |
| `RateLimit.TwiceIsReached` | apps/api/src/common/rate-limit.guard.ts:59-97 | and for every limit some arrivals reach it |
| `RateLimit.RetryReachesNextWindow` | apps/api/src/common/rate-limit.guard.ts:85-94 | waiting as long as a refusal says leads into the very next window |
| `Seats.SeatStore.CreateInvitation` | apps/api/src/teams/invitations.service.ts:132-155 | the address's pending invitations are revoked, the new one is pending, all others stay; at any moment it takes one seat if it is live, and gives one back if the address had a live one; each address keeps at most one pending invitation |
| `Seats.SeatStore.RevokeInvitation` | apps/api/src/teams/invitations.service.ts:180-188 | succeeds exactly on a pending invitation; at any moment it gives back a seat exactly if the invitation is live |
| `Seats.SeatStore.AcceptInvitation` | apps/api/src/teams/invitations.service.ts:266-280 | whatever its status, the invitation is accepted and its seat, if live, traded for one taken by a person not active before |
| `Seats.SeatStore.OffboardMember` | apps/api/src/teams/members.service.ts:345-354 | a seat is given back exactly if the person was active, and nothing else changes |
| `Seats.SeatStore.ReinstateMember` | apps/api/src/teams/members.service.ts:410-431 | a known person takes a seat exactly if not active before |
| `Seats.InviteTaken` | apps/api/src/teams/invitations.service.ts:132-155 | the seat count after inviting, for every table with at most one pending invitation per address and every moment |
| `SeatSafety.NextWeight` | apps/api/src/teams/invitations.service.ts:90-326 | no step adds to seats taken plus seats calls under way may still take, except a passed check within what the limit leaves |
| `SeatSafety.SeatsBounded` | apps/api/src/teams/invitations.service.ts:310-326 | with at most k calls that may still take a seat nobody counts, and nobody joining between the two counts of a check, members and live invitations exceed the limit by at most k - 1; each address has at most one pending invitation |
| `SeatRuns.OneAtATimeWithinLimit` | apps/api/src/teams/invitations.service.ts:310-326 | if no two calls are under way at once, members and live invitations never exceed the limit |
| `SeatRuns.AcceptNeverRefused` | apps/api/src/teams/invitations.service.ts:264 | and nobody who accepts is refused for lack of a seat |
| `SeatRuns.OverdrawnByAny` | apps/api/src/teams/invitations.service.ts:100-168 | for every limit from 2 and every k, a run from the start with k calls outstanding ends exactly k - 1 above the limit |
| `SeatSafety.ReinstateExactly` | apps/api/src/teams/members.service.ts:410-431 | reinstating keeps within the limit if and only if the person has a seat already or one is free |
| `SeatSafety.AcceptExactly` | apps/api/src/teams/invitations.service.ts:236-285 | undisturbed, somebody invited becomes a member if and only if the seats taken are within the limit |
| `SeatSafety.SeatsComeBack` | apps/api/src/teams/members.service.ts:345-354 | revoking, offboarding and expiry take effect at once and give back a seat exactly if one was taken |
| `SeatSafety.TwoInvitesOverdraw` | apps/api/src/teams/invitations.service.ts:100-168 | two overlapping invitations take two seats when one is left |
| `ContactForms.ValidateAgainstForm` | apps/api/src/contacts/contact-capture.service.ts:223-274 | a submission passes if and only if nothing is wrong with it; the reported faults are exactly what is wrong, and only non-empty values of the form's own custom fields are kept |
| `Contacts.ContactStore.FindDuplicate` | apps/api/src/contacts/contact-capture.service.ts:283-308 | the link is that of an earliest live contact with the address or number, or the contact itself; there is one exactly when some live contact matches |
| `Contacts.ContactStore.ConfirmScan` | apps/api/src/scans/scans.service.ts:224-318 | a saved job gives its contact again and changes nothing, any other a new one with the address, number and link and with the marketing consent answered; links stay flat and consents complete |
| `Contacts.ContactStore.Discard` | apps/api/src/scans/scans.service.ts:325-334 | succeeds exactly on a job neither saved nor discarded |
| `Contacts.ContactStore.CreateExternal` | apps/api/src/integrations/public-api.service.ts:97-184 | reports a duplicate exactly when there is a match; the contact has the address, number and link and the marketing consent answered; links stay flat and consents complete |
| `Contacts.ContactStore.AddByHand` | apps/api/src/contacts/contacts.service.ts:232-281 | a contact typed in has no consent rows and no link, and leaves links flat and consents complete |
| `Contacts.ContactStore.Edit` | apps/api/src/contacts/contacts.service.ts:284-350 | no other contact changes; link, time, source and consents stay |
| `Contacts.ContactStore.Remove` | apps/api/src/contacts/contacts.service.ts:352-376 | the contact no longer matches anybody, though links to it stay; no other contact changes |
| `ContactSafety.LinksAreFlat` | apps/api/src/contacts/contact-capture.service.ts:90-130 | in every interleaving a link leads to a contact without a link, captured no later |
| `ContactSafety.ConsentsComplete` | apps/api/src/contacts/contact-capture.service.ts:133-159 | a contact not typed in has exactly one storage and one marketing consent, one typed in has none |
| `ContactSafety.ConsentsAsGiven` | apps/api/src/contacts/contact-capture.service.ts:90-159 | in every run a contact was captured by one step, with the address and number sent; its marketing consent is granted if and only if that step brought a yes, refused if and only if it brought a no |
| `ContactSafety.JobMovesExactly` | apps/worker/src/scans/handler.ts:62-147 | which step can move a scan's job from which status to which: the worker's marks and results from any, a failure only from unfinished work, a discard not from saved; and none back to waiting |
| `ContactSafety.JobsBegin` | apps/worker/src/scans/handler.ts:30-44 | a new job waits unless it was read already, and a worker takes it up exactly while it is unfinished |
| `ContactSafety.ContactsChange` | apps/api/src/contacts/contacts.service.ts:284-376 | an edit or removal changes the one contact and no other, and an edit spares a removed one |
| `ContactRuns.SecondContactExactly` | apps/worker/src/scans/handler.ts:117-135 | a scan that has become one contact can become another if and only if a worker still is to write to its job |
| `ContactRuns.ScanYieldsOne` | apps/api/src/scans/scans.service.ts:231-294 | in every run in which no worker is still at a job while it is saved, its scan becomes at most one contact, and is saved exactly when it has |
| `ContactRuns.SecondContact` | apps/worker/src/scans/handler.ts:117-135 | a worker's late write lets a scan become a second contact |
| `ContactRuns.DiscardedConfirmedExactly` | apps/api/src/scans/scans.service.ts:231-294 | a discarded scan gets a contact in a run if and only if the run confirms it |
| `ContactRuns.DiscardedYetConfirmed` | apps/api/src/scans/scans.service.ts:231-236 | one that does |
| `ContactRuns.MissedExactly` | apps/api/src/contacts/contact-capture.service.ts:90-130 | a form's contact is unlinked if and only if nothing matched at its lookup, and although something matches at its insert if and only if a step in between added or edited it |
| `ContactRuns.UndisturbedFormLinked` | apps/api/src/contacts/contact-capture.service.ts:90-130 | so a form that nothing comes between is linked exactly if something matches |
| `ContactRuns.TwoOriginals` | apps/api/src/contacts/contact-capture.service.ts:90-130 | two overlapping forms with one new address both count as the first |
| `EventReport.BuildReport` | apps/api/src/events/event-report.service.ts:62-134 | every figure of the report counts its contacts, every member's, day's and answer's line too; the rate and the cost a lead are within half a unit of exact |
| `EventReport.ValuesExactly` | apps/api/src/events/event-report.service.ts:148-162 | a field counts as filled exactly if it is one of the event's own and holds a text with more than white space |
| `EventReport.FiguresCount` | apps/api/src/events/event-report.service.ts:75-84 | the totals count the qualified, duplicate and scanned contacts |
| `EventReport.MembersCount` | apps/api/src/events/event-report.service.ts:91-103 | each member's line counts that member's contacts, and there is one exactly if there are any |
| `EventReport.DaysCount` | apps/api/src/events/event-report.service.ts:105-108 | each day of the series counts the contacts captured on it |
| `EventReport.AnswersCount` | apps/api/src/events/event-report.service.ts:86-89 | each field's buckets count the contacts with that answer |
| `EventReport.MembersAddUp` | apps/api/src/events/event-report.service.ts:74-109 | leads, qualified leads and duplicates are the sums over the members |
| `EventReport.DaysAddUp` | apps/api/src/events/event-report.service.ts:105-108 | leads are the sum over the days |
| `EventReport.AnswersAddUp` | apps/api/src/events/event-report.service.ts:86-89 | a field's buckets add up to the contacts that filled it |
| `EventReport.RateBounds` | apps/api/src/events/event-report.service.ts:123 | the qualification rate lies between 0 and 100% |
| `EventReport.PartsWithinWhole` | apps/api/src/events/event-report.service.ts:74-109 | no field is filled by more contacts than are qualified, and no member has more of anything than the event |
| `Analytics.BuildSummary` | apps/api/src/analytics/analytics.service.ts:288-326 | each figure is the total of its metric |
| `Analytics.BuildSeries` | apps/api/src/analytics/analytics.service.ts:334-360 | one point a day; each of its four figures is the total of its own metric on that day |
| `Analytics.DaysAndRest` | apps/api/src/analytics/analytics.service.ts:334-360 | the days' totals and what lies outside make up the total |
| `Analytics.RangeCovered` | apps/api/src/analytics/analytics.service.ts:43-46 | every instant of the queried range falls on a day of the series |
| `Analytics.QueriedExactly` | apps/api/src/analytics/analytics.service.ts:62-71 | the rows summed up are exactly the stored ones of the range, each as often as it is stored |
| `Analytics.Overview` | apps/api/src/analytics/analytics.service.ts:43-72 | the series ends today, and its views and clicks are the summary's |
| `Analytics.CampaignReport` | apps/api/src/presence/campaigns.service.ts:198-275 | each total and each day's figure is that of its own metric, and the series' views and visitors are the totals' |
| `Slugs.MatchesExactly` | packages/validation/src/primitives.ts:87 | the schema's pattern accepts exactly the non-empty strings of slug characters without a hyphen at either end or two in a row |
| `Slugs.SlugifyNameIdempotent` | packages/validation/src/card.ts:245-257 | the result is empty or in the grammar, at most 40 long, and its own result |
| `Slugs.NamesExactly` | packages/validation/src/card.ts:245-257 | the possible results are exactly the empty string and the slugs of at most 40 characters |
| `Slugs.EmptyExactly` | packages/validation/src/card.ts:245-257 | the result is empty if and only if nothing rewrites to a letter or digit |
| `Slugs.SlugIsTheWords` | packages/validation/src/card.ts:245-257 | the result is the text's runs of letters and digits with hyphens between them, cut to the length and freed of hyphens at the cut |
| `Slugs.RandomSlugToken` | apps/api/src/cards/card-slug.ts:42-48 | the token has seven characters, the picked ones, all of the alphabet |
| `Slugs.BaseIsTheName` | apps/api/src/cards/card-slug.ts:51-64 | an address begins with the name's own slug, its first 32 characters but for hyphens at the cut; only a name without a letter or digit gets the fallback |
| `Slugs.CardSlugValid` | apps/api/src/cards/card-slug.ts:51-64 | for every name and token the address meets the grammar, the length and the reserved words of the schema |
| `Slugs.WorkspaceSlugValid` | apps/api/src/organizations/slug.ts:16-38 | for every e-mail address so does the workspace's, within 32 characters |

## Left out

- Text is a sequence of Unicode characters; lengths and cuts in UTF-16 code units are modelled only where the text is ASCII.
- Lower-casing, Unicode decomposition and the row schema of the import are parameters; of the first two only that they leave slug characters alone is used.
- Numbers are unbounded integers; the limits of floating-point numbers and of JavaScript time values are not modelled.
- A transaction is atomic; what READ COMMITTED allows inside overlapping transactions is not modelled, nor is the aborted transaction behind a caught unique conflict in `redeemCoupon`.
- Redis failures and clock differences between servers in the rate limiter.
- Storage of media: URLs are opaque values, and copies, pruning and signed links are not part of this model.
- Locked fields and card policies, permission and scope checks, and the plan features a call requires.
- Template versions, plans and prices are the values a call has looked up; changes of the catalogue are not modelled.
- The blockers of a plan change, the seat minimum of a checkout and the validation of coupons, which only refuse a call before it begins.
- The free-plan fallback and the reading of plan limits: the seat limit is a fixed number.
- The worker's own renewal notices, grace entries and expiries, which repeat the modelled transactions with a condition in the update; and the employee import job, which invites without a seat check.
- Invoice numbers, billing addresses, audit rows, outbox events, e-mails and logs.
- Names of members and the order of lines in the event report, top links and sources in the overview.
- The check of qualifier answers against an event's definition, which works like that of a contact form.
- Tokens and their hashes, the public lookup by slug, and uniqueness of slugs.
- Members without a row above are steps of the proofs.
- Seats.SeatStore.OffboardMember: an owner and the actor are not protected, because those refusals depend on roles.
- SeatSafety.SeatsBounded: for k above 1 it asks that nobody joins between the two counts of a check, since a count of members out of date lets more through.
- CardSafety.SettledStaysUnapplied: one direction; the exact condition is in CardApprovals.AppliedExactly, which leaves out payloads naming a revision the card does not have yet.
- BillingTables.BillingStore.CreateCheckout: the whole call with nobody in between; what happens when others move is in the protocol.
