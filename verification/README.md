# Epistole: what a send, a consent and a crash can do

A Dafny 4.11 model of the newsletter server's core, with proofs about every run of it.
`dafny verify dfyconfig.toml` checks the whole project.

The server keeps subscribers, sends, delivery rows and rate counters in one journaled store, fans a
newsletter out to every Active subscriber under an hourly and a daily cap, and changes consent on
signed tokens that are never used up and go stale only through a generation number. Three of these
share one state, so they are one model: the `/send` protocol, the durability of the store, and the
consent rows. Two more stand by themselves: the canonicalisation of the store's path, and the codecs.

## How it is built

- **Values.** `Records` (rows, tokens, clock readings), `Journals` (tables as the replay of one log with
  a synced mark), `Plans` (what one call should attempt), `Pages` (what a consent endpoint answers).
- **The protocol.** `Protocol.Step` is a total function from a server state and an event to a server
  state. One `/send` call is fifteen kinds of act (read, wait for the lock, two reads, decide, two
  inserts, sign, hand over, ...), and acts of any number of calls interleave freely. Store errors,
  timeouts, kills, power losses, the relay's verdict and the clock are carried by the events, so "every
  run" is "every sequence of events", and a theorem about `Exec(w, es)` is about all of them.
- **The program.** `Stores.Store` and `Apps.App` are classes whose methods have the shape of the
  handlers. What the outside world does to an operation is an argument. `App` keeps a ghost trace of
  protocol events, and `App.Valid()` says that the store holds what that trace leads to, so every theorem
  about runs holds of every history of handler calls.
- **Invariants and results.** `Frames` (what each event leaves alone); `Budgets`, `Windows`, `Tightness`
  (caps and repetitions); `Durability`, `Retries`, `Repeats` (what lasts, who is mailed again);
  `Standings`, `Revivals`, `Consent`, `ConsentResults`, `Rewrites` (tokens); `Contents`, `ContentResults`,
  `Anchoring` (one id, one newsletter). Continuations that have to exist are built in `Restarts`,
  `Reissues` and `Reaches`, and runs that meet a bound or break a claim in `Witnesses` and
  `Counterexamples`, out of `Runs`, `Serials` and `Unused`. `Turns` and `Fanouts` connect handler code to
  protocol events, and `Replies` says when a call answers Ok and what each recipient then has. `Effects`,
  `Links` and `Suppressions` say what consent commits do to a row, in the row's own fields, how long a link
  works and how long an opt-out holds. `Orders` and `Sets` are about key order and finite sets.
- **By themselves.** `Paths`, `Exactness` and `Chains`; `Base64`, `Decimals`, `Tokens`; `Keys`; `Cidr`;
  `Quotients` for arithmetic.

## What holds, and where it stops

- **Caps.** Over every run, overlapping calls included, the messages stamped in one hour (or day) are
  at most the cap plus one for each call that ended between hand-off and ledger sync. The bound is met
  with equality for every hour, every valid cap and every number of such calls; for a day the bound is
  the smaller of the daily cap and 24 hourly ones, plus what the store started with beyond its hours,
  and it is met too. The comment at `src/store/rate_limit.rs:40-45` puts the risk at one extra send per
  lost count; what a power loss takes is bounded by the calls it cut.
- **At most once.** True for calls on one id that do not overlap, plus one for each call that ended
  exposed, and with every number of these the bound is met (`AtMostOnceIsTight`). The condition on overlap
  cannot be dropped: the ledger check takes no lock, and two overlapping calls, with nothing failing, send
  twice. Once no call on the id is under way, and overlap allowed from then on, some continuation mails a
  recipient again exactly if its ledger row is not durable (`MailedAgainIff`).
- **One id, one newsletter.** False as `src/handlers/send.rs:340-350` and `src/store/send.rs:161-163` put
  it: a record whose sync failed is reused by the retry without being synced, and a power loss then frees
  the id for other content (`OneIdTwoContents`). For calls on the id that do not overlap, one subject and
  body go out under it, now and in every continuation, exactly when the synced mark covers the record and
  all that went out so far had the record's subject and body (`OneIdOneContent`). Likewise the record in
  the tables is what goes out from now on exactly when the mark covers it (`RecordGoesOutIff`). All calls
  on the id agree whenever none is cut off between the insert and the sync of the record with the process
  surviving (`UnstrandedOneContent`).
- **Stale tokens.** False if a power loss undoes an unsubscription that was stored but whose sync failed
  (`StaleTokenWrites`). Exactly when: call twice a row's generation, plus one while it is Active, its
  standing. Presented at a given moment, a token can write in some continuation, power losses included,
  exactly when it has not expired by then and the durable standing of its address is at most twice the
  token's generation, plus one for an unsubscribe token (`CanStillWriteIff`). So an acknowledged
  unsubscription shuts out every older token for good, whatever is lost (`UnsubscribedStaysShut`), a token
  whose write was acknowledged is spent (`UsedTokenIsSpent`), and the rows stored for an address rise in
  standing along the journal of every run (`SurvivingWritesRise`). All confirm tokens of one generation
  write once together, plus once for each power loss that takes their address back
  (`WritesWithinLosses`). What counts transitions is stated for an address that no power loss takes back,
  whatever happens to others; writes that acknowledge or leave no trace guarantee that
  (`AcknowledgingIsLossless`).
- **Links and opt-outs.** A confirm link works for 86400 seconds, a newsletter's for 3650 days, in every
  continuation in which the row is what it was minted from (`ConfirmLinkWorks`, `NewsletterLinkWorks`). An
  acknowledged opt-out, by link or by complaint, holds until somebody asks for a link for the address, but for
  one case: a confirm link already out at the very generation the opt-out led to (`UnsubscribedHoldsIff`).
- **Answers.** `/send` refuses an id whose record has other content, and otherwise answers Ok exactly if
  nothing goes wrong that ends it (`PostSend`); which faults these are depends on how far each recipient's
  turn gets (`GoesOnIff`). The webhook, the purge and the consent commits have their exact conditions too.
- **Retries.** Over every run at all, the ledger of a send keeps its durable rows and gains rows of addresses
  Active in the meantime only. One call that finds headroom completes it, whatever happened before
  (`CompleteSend`), and daily calls finish in the recipients divided by the hourly cap, rounded up
  (`RetryDaily`); both answer Ok if nothing goes wrong and the id is not another newsletter's.
- **Refusals.** A window's refusal is final exactly when its durable count is at the cap.
- **Paths.** `src/store/path.rs:72-81` says its bound of forty hops rejects the same paths the kernel would.
  It does not: each hop has the kernel's own forty links behind it, so a chain to a directory is accepted
  up to eighty links (`ChainLimit`), and past forty a link below the chain can survive into the answer
  (`LinkSurvives`). An accepted path leads where its answer says exactly when the path meets no further
  link below those the code follows in person (`AcceptedExactIff`), for such a chain below its
  directory (`ChainExactIff`). On every path the kernel can resolve, the answer is the resolution.

Where code and prose differ the model follows the code. `ARCHITECTURE.md` predates generations and
commits by POST. `src/handlers/subscribe.rs:77-78` says confirm tokens minted after an opt-out are refused;
`src/handlers/confirm.rs:171-192` honours them. `src/store/rate_limit.rs:34-38` says counters are
incremented durably and that the caller stops at the first refusal; the inserts are buffered and the loop
goes on, every later recipient being checked and deferred.

## Assumptions

- A consent handler's read and write are one step. Its lock-free race with another request on the same
  address is not modelled. The ledger check of `/send` is a separate step, with no lock.
- A token that verifies was minted by the server: the MAC is an arbitrary function, and
  `App.Authentic` states unforgeability as what a handler is given.
- The store at start holds rows under the lower-cased email, Pending rows at generation 0, and counters
  within the configured caps. Generations and counters are unbounded natural numbers; the 64-bit widths
  appear in the token codec only.
- Text is a sequence of bytes, one `char` a byte. Lower-casing is ASCII.
- A read error changes nothing. A failed insert may or may not have reached the journal. A failed sync
  leaves its record buffered. A power loss keeps any prefix of the journal at or beyond the mark.
- A suppression needs a ledger row of its address in the tables and may then happen at any moment, not only
  right after its webhook's ledger write. No run that a result says exists takes advantage of that:
  `StaleTokenWrites` suppresses right after an acknowledged report, and the others take addresses down by
  their own links.
- Clock readings are arguments: they need not advance, and there is always an hour in which nothing has
  been counted yet.
- Any text can be an address; whether one is well formed is an argument of `Subscribe`. There is always an
  address nobody has used yet (`Unused.NewAddress`), on which the existence halves of `OneIdOneContent` and
  `RecordGoesOutIff` rest. They and those of `CanStillWriteIff` and `MailedAgainIff` take caps a configuration can
  have, `1 <= hour <= day`.

## Model

| member | source | states |
|---|---|---|
| Journals.AppendViews | src/store.rs:34-37 | all keyspaces share one log: a new record changes the newest view by itself and no earlier view at all |
| Journals.RecoverViews | src/store.rs:18-29 | recovery shows exactly the prefix it kept, now all of it durable |
| Durability.AcknowledgedSurvives | src/store.rs:132-138 | once a put answers Ok, its record and every earlier record of any keyspace stay in place through every later run, whatever power losses it contains |
| Durability.LossLeavesSurvivors | src/store.rs:23-37 | what a power loss can leave is exactly the prefixes of the cross-keyspace write history that reach the synced mark |
| Budgets.CountersWithinCaps | src/store/rate_limit.rs:57-82 | no counter is above its cap in any state of any run, under any interleaving and any failure |
| Budgets.HandOffsWithinCap | src/handlers/send.rs:261-309 | over every run, overlapping calls included, hand-offs stamped in one hour or day are at most its cap plus the calls ended between hand-off and ledger sync |
| Tightness.CapBoundIsTight | src/store/rate_limit.rs:40-45 | for all valid caps, every hour of every day and every n there is a run with n such calls and exactly cap + n hand-offs |
| Tightness.DayBound | src/store/rate_limit.rs:57-82 | over every run a day's hand-offs are at most such calls plus the smaller of its cap and 24 hourly caps, these increased by what the starting store counts for the day beyond its hours |
| Tightness.DayBoundIsTight | src/store/rate_limit.rs:40-45 | from a store that has counted nothing, for all valid caps, every day and every n, some run hands over exactly that many with n such calls |
| Budgets.AtMostOnce | src/store/send.rs:213-242 | without overlapping calls on the id, a recipient gets at most one message plus one per call ended between hand-off and ledger sync |
| Tightness.AtMostOnceIsTight | src/store/send.rs:213-242 | for all valid caps and every n a run without overlapping calls interrupts n calls and hands one recipient 1 + n messages of one send |
| Repeats.MailedAgainIff | src/handlers/send.rs:251-259 | with no call on the id under way, and calls free to overlap from then on, some continuation hands the recipient a further message exactly if the ledger row is not durable |
| Budgets.SendWithinLedger | src/handlers/send.rs:303-309 | under the same condition a send's hand-offs are at most its ledger rows, plus those calls, plus the one in flight |
| Counterexamples.OverlapSendsTwice | src/handlers/send.rs:253-259 | two overlapping calls send one recipient twice with nothing failing or interrupted |
| Windows.RefusalFinal | src/store/rate_limit.rs:61-63 | a window stays at its cap along every continuation exactly when its durable count is at the cap |
| Windows.CountNeverFalls | src/store/rate_limit.rs:65-80 | along every continuation without a power loss no count falls |
| Windows.AdmittedAreCounted | src/store.rs:70-79 | while no counter write fails and nothing crashes, a day's counter rises by exactly the reservations granted, however they interleave |
| Windows.DayWithinHours | src/store/rate_limit.rs:59-80 | in every run, from any starting store, a day's counter rises by at most what its hours' rise together, up to now and to every recoverable state; so it stays within their sum if it started within |
| Windows.DayEqualsHours | src/store/rate_limit.rs:65-81 | while no counter write fails and nothing crashes it rises by exactly that, less the reservations between their two inserts |
| ContentResults.OneIdOneContent | src/handlers/send.rs:340-374 | over every run whose calls on the id do not overlap, one id means one subject and body in it and in all its continuations exactly when the record is durable by now and everything sent so far had its subject and body |
| ContentResults.RecordGoesOutIff | src/handlers/send.rs:357-386 | what the tables hold under the id is what goes out under it in every such continuation exactly when the synced mark covers it |
| ContentResults.RecordSurvivesIff | src/store/send.rs:159-179 | without overlapping calls a record is left as it is by every power loss exactly when the synced mark covers it |
| Anchoring.UnstrandedIsAnchored | src/store/send.rs:173-178 | if no call on the id is cut off between inserting and syncing its record while the process lives, every reused record is durable |
| Anchoring.UnstrandedOneContent | src/handlers/send.rs:357-386 | hence in such runs one id means one newsletter |
| Counterexamples.OneIdTwoContents | src/handlers/send.rs:364-374 | after a failed sync, a retry and a power loss, two subjects go to one recipient under one id, for all valid caps |
| Revivals.CanStillWriteIff | src/handlers/confirm.rs:142-198 | for every run, every token minted in it and every moment, some continuation, power losses included, lets the token presented then write exactly when it has not expired and the durable standing of its address is at most the one it writes at |
| Revivals.AcknowledgedWriteKills | src/store/subscriber.rs:115-126 | once a consent write is acknowledged, no token of the address that writes below the standing it stored writes again in any continuation, whatever is lost |
| Revivals.UnsubscribedStaysShut | src/handlers/unsubscribe.rs:213-243 | once an unsubscription is acknowledged, every token of an older generation is dead in every continuation, whatever is lost |
| Revivals.UsedTokenIsSpent | src/handlers/confirm.rs:163-170 | a token whose write was acknowledged never writes again, whatever is lost |
| Revivals.SurvivingWritesRise | src/handlers/unsubscribe.rs:225-238 | in the journal of every run the rows stored for one address rise strictly in generation and activity |
| ConsentResults.GenerationTellsStaleness | src/handlers/subscribe.rs:178-191 | while no power loss takes back a change of its own address, a token's generation is never ahead of its row's, and equals it exactly when the address has not gone into Unsubscribed since the row was read at mint; an unsubscribe token's row exists and is not Pending |
| ConsentResults.CommitWritesIff | src/handlers/confirm.rs:142-198 | under the same condition a presentable confirm token writes exactly when the row is not Active and nothing went into Unsubscribed since mint; an unsubscribe token, exactly when the row is Active and the same |
| ConsentResults.StaleTokenNeverWrites | src/handlers/unsubscribe.rs:213-243 | under the same condition a token read before a transition into Unsubscribed changes nothing in any continuation, as often as it is presented, acknowledged or not |
| Rewrites.WritesWithinLosses | src/handlers/confirm.rs:171-192 | over every run all confirm tokens of one address and generation write at most once together, and so do all unsubscribe tokens, but for once more after each power loss that takes the address back |
| Rewrites.OneWritePerGeneration | src/handlers/unsubscribe.rs:225-238 | so while none does, at most once |
| ConsentResults.ConfirmsBalance | src/handlers/unsubscribe.rs:225-238 | under the same condition generation counts the transitions into Unsubscribed; from an absent row confirm writes are as many, plus one while Active |
| ConsentResults.WriteArms | src/handlers/confirm.rs:145-162 | under the same condition `apply` only takes Active rows down, and the arm that creates a row creates generation 0, purges or not |
| ConsentResults.AcknowledgingIsLossless | src/store/subscriber.rs:115-126 | an address whose own consent writes either acknowledge or leave no trace satisfies that condition, whatever else fails |
| Counterexamples.StaleTokenWrites | src/handlers/webhooks.rs:97-147 | a complaint about a recorded delivery whose suppression is not synced, a link, a power loss and a second complaint: the older confirm token reactivates the address, for all caps |
| Apps.App.RetryDaily | src/handlers/send.rs:76-81 | with the validated caps, m `/send` calls on different days leave n - m * hourly of n recipients, so all are reached exactly when m is at least n / hourly rounded up; all of them answer Ok if nothing goes wrong and the id is not another newsletter's; given up at an error, the ledger has kept its rows and gained some recipients' |
| Apps.App.CompleteSend | src/handlers/send.rs:340-350 | whatever happened since the ledger was `known` and nothing was under way, a `/send` that finds headroom, and answers Ok as it does if nothing goes wrong and the content agrees, leaves `known`, every Active address, and nobody who was not Active in the meantime |
| Retries.LedgerOnlyFills | src/handlers/send.rs:251-309 | from a settled state, over every run whatever (consent changes, webhooks, purges, power losses included), the send's ledger keeps its rows and gains rows of addresses that were Active in the meantime only |
| Retries.RowSurvivesIff | src/store/send.rs:213-242 | from any reachable state a ledger row outlives every run exactly when the synced mark covers it |
| Turns.SlotRun | src/store/rate_limit.rs:50-82 | lock, two reads, decision, two inserts and unlock, step by step, come to the reservation's answer and journal |
| Turns.MailRun | src/handlers/send.rs:274-301 | signing, composing and handing over, step by step, with a timeout at either await, come to one status, one token and at most one hand-off |
| Turns.RecordRun | src/store/send.rs:228-242 | the two steps of a ledger write come to a put and leave the call exposed exactly if they fail after a hand-off |
| Turns.ResolveRun | src/handlers/send.rs:357-386 | the three steps of settling a record come to reuse, refusal or a durable new record |
| Fanouts.TurnGoesOn | src/handlers/send.rs:243-315 | a recipient is skipped exactly for its ledger row, deferred exactly for lack of headroom, and otherwise costs one slot in each window, one ledger row and at most one hand-off, all durable |
| Fanouts.TurnBreaks | src/handlers/send.rs:251-309 | a turn that ends the call leaves behind nothing, part of a slot, a slot, or a slot with the row, and at most one hand-off |
| Stores.Store.Open | src/store.rs:89-122 | opens exactly when the path guard accepts the path and the database and its four keyspaces open, a store error otherwise; the opened store shows what recovery left, all durable |
| Stores.Store.PersistAcknowledged | src/store.rs:132-138 | on success the mark is at the end of the journal; contents never change |
| Stores.Store.Reopen | src/store.rs:18-29 | after a power loss the keyspaces show the journal prefix that was kept |
| Stores.Store.SubscriberGet | src/store/subscriber.rs:84-100 | the row under the lower-cased email, or a store error |
| Records.LowerFolds | src/store/subscriber.rs:84-100 | two emails have one key exactly if they agree letter by letter up to ASCII case, and no key has an upper-case letter |
| Stores.Store.SubscriberPut | src/store/subscriber.rs:115-126 | success means inserted and synced; on failure the journal holds exactly what landed |
| Stores.Store.ActiveSubscribers | src/store/subscriber.rs:188-203 | exactly the Active rows, in strict key order |
| Orders.SnapshotUnique | src/store/subscriber.rs:188-203 | that list is determined by the keyspace's contents |
| Stores.Store.ExpiredKeys | src/store/subscriber.rs:149-163 | exactly the keys of rows that have been Pending for 86400 seconds or longer, in strict key order; an error exactly when some row, expired or not, cannot be read |
| Stores.Store.PurgeExpiredPending | src/store/subscriber.rs:144-175 | Ok exactly if every row can be read, every removal works and the sync, if anything was removed, does; then every such row is removed and counted; cut short, it has removed some of them in key order and nothing else; an unreadable row anywhere removes none |
| Stores.PurgeCompletes | src/store/subscriber.rs:165-173 | the removals of an uninterrupted purge take away the expired rows and nothing else |
| Stores.PurgeResumes | src/store/subscriber.rs:135-138 | a purge cut short anywhere, even with part of its removals lost, and run again ends where one later uninterrupted purge ends |
| Stores.Store.SendGet | src/store/send.rs:142-157 | the record under the id, or a store error |
| Stores.Store.SendPut | src/store/send.rs:169-179 | success means inserted and synced; on failure the journal holds exactly what landed |
| Stores.Store.DeliveryGet | src/store/send.rs:198-211 | the ledger row of the id and lower-cased email, or a store error |
| Stores.Store.DeliveryPut | src/store/send.rs:228-242 | success means inserted and synced; on failure the journal holds exactly what landed |
| Stores.Store.RecentSends | src/store/send.rs:127-134 | the largest ids, as many as asked for or as there are, strictly descending; an error exactly when a record among these cannot be read |
| Stores.Store.RateGet | src/store/rate_limit.rs:9-27 | the count, zero for a window never written |
| Stores.Store.TryReserveSendSlot | src/store/rate_limit.rs:50-82 | with both reads working, refused exactly when a window is full and granted exactly when both have room and both inserts work; an error otherwise; the journal gains exactly the records that landed |
| Stores.SlotGranted | src/store/rate_limit.rs:65-81 | a granted slot is one more in each window, both still within their caps, nothing else moved or synced |
| Stores.SlotWithheld | src/store/rate_limit.rs:59-63 | a refused slot changes nothing; a failed one leaves at most the hour's count, and only then the day's |
| Apps.App.ReserveSlot | src/handlers/send.rs:261-272 | waiting for the lock and reserving keep store and protocol in step, with the reservation's answer |
| Apps.App.DeliverToRecipient | src/handlers/send.rs:243-315 | one recipient's turn has exactly the outcome and the resulting server state of the protocol's steps, every failure and timeout included |
| Apps.App.ResolveSend | src/handlers/send.rs:357-386 | other content is refused, changing nothing; otherwise it works exactly if the read does and, for a new id, the durable write, and the keyspace then holds what it held and one record under the id |
| Replies.GoesOnIff | src/handlers/send.rs:251-309 | one recipient's turn ends the call exactly if the ledger read fails, or, for a recipient without a row, the lock wait is dropped or a counter read fails, or, for one attempted, a counter write, the signature, the relay's await or the durable row does; refusal by the relay never ends it |
| Apps.App.FanOut | src/handlers/send.rs:137-158 | the loop runs to its end exactly if no turn ends it, and has then attempted exactly the first min(unledgered, headroom) recipients in key order and served and mailed these alone; cut short, it has recorded and mailed some recipients, at most once each, and changed nothing else |
| Apps.App.PostSend | src/handlers/send.rs:100-176 | other content under the id is refused before anything is done; otherwise it answers Ok exactly if the record, the recipients and every turn go through, judged by what goes wrong outside; then each attempted recipient has a durable ledger row with what the relay said, a ten-year link at its generation and, if it could be composed, one message, in key order, and nobody else has anything; the counters are those of the plan; on an error it was mailed at most once to some recipients |
| Apps.App.Subscribe | src/handlers/subscribe.rs:57-126 | nothing changes but the set of minted tokens, which gains one for the lower-cased address, 86400 seconds ahead, at its row's generation or 0; it is minted even if the mail then fails |
| Links.ConfirmLinkWorks | src/handlers/subscribe.rs:178-191 | in every continuation the link can be presented for 86400 seconds and not after, and then, while the row is what it was and not Active, an Active row is stored, at its generation or new at 0 |
| Links.NewsletterLinkWorks | src/handlers/send.rs:274-281 | in every continuation the link of a newsletter can be presented for 3650 days and not after, and then, while the row is what the fan-out read, it is stored Unsubscribed one generation further |
| Links.SignedLinkPresents | src/handlers/confirm.rs:127-140 | the text of a signed link is taken by the endpoint of its kind as the token signed until it expires, and by the other endpoint, or later, as no token |
| Apps.App.ConfirmGet | src/handlers/confirm.rs:73-113 | the preview page, with no change of state |
| Apps.App.ConfirmPost | src/handlers/confirm.rs:123-200 | for every raw token: without a valid confirm token the invalid page; an Active row stays and is called confirmed, a row at another generation refuses the token, and any other address gets an Active row, field by field as stored, and the success page exactly if the write is durable |
| Apps.App.UnsubscribeGet | src/handlers/unsubscribe.rs:104-145 | the preview page, with no change of state |
| Apps.App.ApplyUnsubscribe | src/handlers/unsubscribe.rs:203-244 | for every raw token: without a valid unsubscribe token the invalid page; an Unsubscribed row stays, any other row at the token's generation goes Unsubscribed one generation further, with the success page exactly if the write is durable, and everything else refuses the token |
| Apps.App.OneClick | src/handlers/unsubscribe.rs:178-196 | a body other than `One-Click` is refused before the token is looked at and changes nothing; otherwise the same transition |
| Pages.PreviewAgrees | src/handlers/unsubscribe.rs:90-103 | GET shows the interstitial exactly when POST would write, and otherwise the same page, for both endpoints, every raw token, moment and store |
| Pages.PageTellsState | src/handlers/unsubscribe.rs:213-243 | a commit shows its success page exactly if the address then stands as asked, Active after `/confirm` and Unsubscribed after the other, and the invalid page otherwise |
| Pages.CommitTwice | src/handlers/confirm.rs:163-170 | committing one raw token again stores nothing and shows the same page |
| Apps.App.PostEvent | src/handlers/webhooks.rs:82-120 | no ledger row appears or disappears; an unknown delivery is refused and changes nothing; Ok exactly if every access it needs works, and then the row has the status reported and the new time, and an Active subscriber row is Unsubscribed one generation further exactly for a complaint or a hard bounce |
| Apps.App.SuppressSubscriber | src/handlers/webhooks.rs:136-147 | called for an address with a delivery on record, as its one caller does: Ok exactly if the read works and, for an Active row, the durable write; then an Active row is Unsubscribed at the given time one generation further, and every other row is what it was |
| Suppressions.SuppressionTakesDown | src/handlers/webhooks.rs:136-147 | over every run, after an acknowledged suppression of an address with a delivery on record the address is not Active and no other row has changed |
| Suppressions.UnsubscribedHoldsIff | src/handlers/unsubscribe.rs:213-243 | over every run, an acknowledged transition into Unsubscribed holds in every continuation, whatever is lost, purged, reported or presented, until somebody asks for a link for the address: it can be Active again before that exactly if a confirm link minted at the very generation it led to is already out |
| Apps.App.Purge | src/store/subscriber.rs:144-175 | the startup purge changes no row and removes only rows that had been Pending for 86400 seconds or longer; it answers Ok exactly if nothing fails, and then none of these is left and it has counted them; it commutes with running it again later |
| Apps.App.PowerLossAndRestart | src/store.rs:18-29 | after a power loss store and protocol agree on the prefix that was kept |
| Apps.App.HistoryWithinCaps | src/store/rate_limit.rs:29-49 | whatever handlers ran and however their I/O ended, counters are within their caps and hand-offs within cap plus interrupted calls |
| Apps.App.HistoryAtMostOnce | src/handlers/send.rs:251-259 | with handlers run one at a time, a recipient gets at most one message of a send plus one per call ended between hand-off and ledger sync |
| Paths.CanonicalizeBounded | src/store/path.rs:83-148 | the two loops and the bounded recursion compute the canonical form |
| Paths.GuardAgainstNestedKeyspace | src/store/path.rs:23-47 | accepts exactly paths with a canonical form none of whose proper ancestors is named `partitions` |
| Paths.KernelPathsCanonicalise | src/store/path.rs:49-67 | every path the kernel can resolve, missing tail included, has as canonical form exactly the place it resolves to; that place holds no link and is its own canonical form |
| Paths.AcceptedResolvesAlike | src/store/path.rs:122-147 | whatever is accepted, on any filesystem, cyclic or not, resolves like the answer for every allowance of links |
| Paths.AnswerExactIff | src/store/path.rs:144-147 | on every filesystem and path, an accepted answer is the place resolution names exactly when no link is left in it |
| Exactness.AcceptedExactIff | src/store/path.rs:107-147 | for every accepted path, hop by hop and without a look at the answer: it leads where the answer says exactly when each link followed in person has no further link of the path on the way below where it leads |
| Paths.GuardExact | src/store/path.rs:30-46 | on a path the kernel can resolve, the guard refuses exactly those that lead strictly below a component named `partitions` |
| Chains.ChainLimit | src/store/path.rs:72-81 | a chain of n links to a directory is accepted exactly up to 80 and resolved by the kernel exactly up to 40; a broken chain is accepted exactly up to 40 |
| Chains.ChainExactIff | src/store/path.rs:101-147 | behind a chain of 41 to 80 links every path is accepted, and its answer is where the path leads exactly when the filesystem has no link along that path below the chain's directory |
| Chains.LinkSurvives | src/store/path.rs:101-120 | below a chain of 41 to 80 links a link is put back unread and stays in the answer |
| Chains.CanonicalFormWithLink | src/store/path.rs:107-120 | such a filesystem exists |
| Tokens.VerifySign | src/token.rs:144-184 | what was signed verifies to exactly itself until it expires and not after, for every kind, email, expiry and generation |
| Tokens.VerifiesIff | src/token.rs:144-184 | a raw token verifies to t exactly when it is the canonical base64url of a payload, a dot and that of the payload's MAC, the payload is t's kind letter, canonical email and decimal expiry and generation between bars, all within their types, and t has not expired |
| Tokens.ParsesIff | src/token.rs:161-179 | a payload parses to a token exactly if its fields spell one that the field types can hold |
| Tokens.PayloadInjective | src/token.rs:112-123 | tokens with one payload are one token |
| Tokens.FewFieldsRejected | src/token.rs:161-179 | a payload with fewer than four fields is never accepted, however it is signed |
| Base64.DecodeEncode | src/token.rs:116-132 | decoding undoes encoding for every byte string |
| Base64.EncodeDecode | src/token.rs:146-151 | only the canonical spelling decodes |
| Base64.EncodeGroups | src/token.rs:116-132 | three bytes are a 24-bit number spelled by four digits of the alphabet of RFC 4648, one or two at the end by two or three, without padding |
| Decimals.I64RoundTrip | src/token.rs:170-174 | every signed 64-bit expiry survives print and parse |
| Decimals.U64RoundTrip | src/token.rs:175-179 | every unsigned 64-bit generation survives print and parse |
| Decimals.ParseUnsignedIff | src/token.rs:175-179 | an unsigned integer parses from its decimal text, zeros and one `+` allowed in front, and from nothing else |
| Decimals.ParseI64Iff | src/token.rs:170-174 | a signed 64-bit integer likewise, with either sign |
| Keys.BucketTextInjective | src/handlers/send.rs:322-335 | for every date the clock can show, hours and days have one key exactly when they are one window, hours never colliding with days |
| Keys.HourExtendsDay | src/handlers/send.rs:322-335 | an hour's key extends by two characters the key of its day and of no other day |
| Keys.BucketTextReads | src/handlers/send.rs:322-335 | for years of four digits the keys are ten and eight numerals that read year, month, day and hour in this order |
| Keys.RowTextInjective | src/store/send.rs:185-187 | ledger keys agree exactly when id and lower-cased email do |
| Keys.PrefixSelects | src/store/send.rs:181-187 | the prefix `<send_id>/` selects exactly one send's rows |
| Keys.RowsAdjacent | src/store/send.rs:181-184 | nothing of another send sorts between two rows of one send |
| Keys.IdTextOrder | src/send_id.rs:31-38 | Crockford text order of 128-bit ids is numeric order, and the text is injective |
| Keys.NewestDescends | src/store/send.rs:113-134 | the newest sends stand in strictly descending key order |
| Cidr.ContainsIff | src/config.rs:148-163 | a peer is in a range exactly when the families agree and the addresses agree after division by 2 to the host bits, for every prefix of both widths |
| Cidr.MaskValue | src/config.rs:225-242 | the shifted word is 2^width - 2^(width - prefix), zero prefix included |
| Cidr.NestedOrApart | src/config.rs:148-163 | ranges that share an address nest, the longer prefix inside |
| Cidr.MappedPeer | src/config.rs:149-154 | a peer reported as `::ffff:a.b.c.d` is in the same ranges as a.b.c.d |
| Cidr.UnmappedPeer | src/config.rs:157-162 | no other IPv6 peer is in an IPv4 range |
| Cidr.HostHoldsOne | src/config.rs:166-179 | a bare address is a range of exactly one address |
| Cidr.ZeroPrefixHoldsFamily | src/config.rs:225-233 | prefix zero holds its whole family and nothing of the other |
| Cidr.ParseRangeIff | src/config.rs:184-212 | a text after the slash parses to a range exactly if it is a decimal that spells the range's prefix, within the width of the canonical network |
| Cidr.ParseRangeIs | src/config.rs:166-212 | a bare address parses to the range of that one address, and `address/n` to n bits of the canonical network exactly if this has so many |
| Cidr.ParsedHolds | src/config.rs:148-212 | what `address/n` holds: the peers of its family that agree with it after division by 2 to the remaining bits |
| Cidr.MappedNetwork | src/config.rs:184-212 | a network written as `::ffff:a.b.c.d` parses like a.b.c.d |
| Cidr.UntrustedIgnoresHeader | src/lib.rs:126-148 | for a peer in no configured range the key is the canonical peer whatever the header says |
| Cidr.TrustedReadsLastEntry | src/lib.rs:142-157 | from a trusted peer the key is the entry after the last comma whatever stands before it, and the canonical peer without a header or a readable entry |

## Left out

- HTTP plumbing, bearer checks, body limits, tracing, the per-IP limiter: wrappers over libraries.
- Mail transport and message composition: the relay is an accept/reject verdict with a log of hand-offs.
- Markdown rendering and page templates: rendered HTML is an argument and a page is an enumeration value.
- HMAC, SHA and constant-time comparison: the MAC is an arbitrary function of key and bytes.
- JSON encoding, store error texts, the error text of a delivery row: rows are values.
- The ULID generator: ids are caller input here; its code is in the `ulid` crate.
- Secret strength, placeholder blocklist, bind policy, email syntax, archive pages: single-function checks.
- Apps.App.Subscribe: takes the address already trimmed and the outcome of its syntax check as an argument, because both are library calls.
- Apps.App.DeliverToRecipient: whether signing works is an argument; the text of a signed link is the subject of `Tokens`.
- Apps.App.PostEvent: takes the address already trimmed, for the same reason.
- Apps.App.PostSend: handlers run one at a time here; interleaved calls are the subject of the protocol results, which need no such order.
- Apps.App.SuppressSubscriber: private to the webhook, so it asks for the delivery its caller has just found and updated.
- Apps.App.RetryDaily: no other handler runs between the daily calls; what others may do to a send in between is the subject of `CompleteSend` and `LedgerOnlyFills`.
- ConsentResults.StaleTokenNeverWrites: like its four neighbours with the same condition, says nothing of an address a power loss has taken back; `Revivals.CanStillWriteIff` decides every run for every token.
- Apps.App.ConfirmPost: a handler's read and write are one step against other handlers, so a race of two requests on one address is not captured.
- Paths.CanonicalizeBounded: paths and link targets hold no `..`, which the walk upward would drop (`src/store/path.rs:113-115`), and `lstat`, `realpath` and `readlink` answer from one unchanging filesystem.
- Stores.Store.TryReserveSendSlot: the lock is not an object here; that steps of rivals interleave only outside it is part of the protocol's steps.
