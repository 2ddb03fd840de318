# Cribn wallet, payments and hostel listings — a Dafny model

Cribn is a campus platform with:

- a cedi wallet, topped up and withdrawn through Paystack;
- paid event tickets sold through Stripe Checkout;
- hostel listings.

This project models its payment core and the client code around it, and proves what that code promises. The modules are:

- **PaystackWebhook** (`paystack-webhook`). It recomputes the request signature as the lower-case hex of SHA-512 over secret and body. A mismatch is refused with 400. Otherwise it dispatches on the event name and updates, in place, every `wallet_transactions` row whose `paystack_reference` matches the event: completed with the gateway id, or failed. The table is an `array` updated by a loop (`UpdateWhereReference`), proved against the function `Reconcile`.
- **PaystackTopUp**, **PaystackWithdrawal** and **PurchaseTicket** (the other three edge functions). Each is a method over the ledger (`seq` of rows in, `seq` out). The gateway replies are inputs, and the outbound gateway calls are returned as a trace. The proofs show:
  - which guard fires;
  - which calls are made, and with which fields;
  - that at most one row is appended, and only after the gateway succeeded.
- **Ledger**: the row types, the pesewa conversion and the locally stamped references.
- **UseWallet** and **UseUserScores** (the two hooks). Their state (`wallet`, `transactions`, `scores`, `badges`, `loading`) lives in classes whose methods update it. The pure parts are functions:
  - the filter-to-type-set rule;
  - the two level ladders.
- **WalletPage**: the icon, colour, sign and title of a transaction row; the computed and drawn levels; and the history tab, which refetches through the hook.
- **HostelCard**: the image carousel (a class over `currentImageIndex`), the amenity truncation, and the contact links.
- **HostelFilters** (a stateless panel): pure functions over the selected amenities and the filter values.
- **CreateHostelDialog**: the listing form and its file list (a class), the ten-file cap, the upload loop with its storage paths and `hostel_media` rows, and the submit.
- **WithdrawalDialog**: the ordered guards, the account details sent, and the form reset on success (a class).
- **Text**, **Seqs** and **Wrappers**: the JavaScript string and array operations the code relies on (`toString(radix)`, `padStart`, `slice`, `substr`, `toUpperCase`, `replace`, `split().pop()`, `parseInt`, `filter`), plus Option and Result.

Parameters stand in for everything the code reaches outside itself:

- SHA-512;
- `JSON.parse`;
- `Date.now()`;
- the text of `Math.random().toString(36)`;
- the Paystack and Stripe replies;
- the store's query and insert outcomes;
- storage uploads and their public URLs.

Amounts are integers of the smallest unit (pesewas, or cents for Stripe). A number the client code parses as NaN is `None`, which a JSON body carries as `null`.

## Model

| member | source | states |
|---|---|---|
| Ledger.TypeNameInjective | src/hooks/useWallet.tsx:20 | the five declared type names are distinct, so the stored text determines the type |
| Ledger.ToPesewas | src/hooks/useWallet.tsx:100 | `amount * 100` keeps NaN as NaN; otherwise it is 100 times the cedis, positive exactly when the cedis are |
| Ledger.StampedReference | supabase/functions/paystack-topup/index.ts:47 | a stamped reference begins with its kind (`topup_` or `withdrawal_`) and is longer than the kind |
| Ledger.StampedReferenceInjective | supabase/functions/paystack-topup/index.ts:47 | within one kind, the reference determines the timestamp and the first eight characters of the user id |
| Ledger.TopUpAndWithdrawalReferencesDiffer | supabase/functions/paystack-withdrawal/index.ts:70 | a top-up reference never equals a withdrawal reference |
| Seqs.Filter | src/components/HostelFilters.tsx:45 | `filter` keeps exactly the elements that pass, and never lengthens the list |
| Seqs.FilterAppend | src/components/HostelFilters.tsx:45 | filtering distributes over concatenation, so relative order is kept |
| Seqs.FilterKeepsAll | src/components/HostelFilters.tsx:45 | a list whose every element passes comes back unchanged |
| Seqs.FilterIdempotent | src/components/HostelFilters.tsx:45 | filtering twice with the same predicate equals filtering once |
| Seqs.FilterCounts | src/components/HostelFilters.tsx:45 | each kept value keeps its multiplicity; each dropped value has none |
| Seqs.RemoveAt | src/components/CreateHostelDialog.tsx:85 | removing an index in range drops exactly that position and shifts the rest down in order; an index out of range changes nothing |
| Text.RadixString | supabase/functions/paystack-webhook/index.ts:25 | `toString(radix)` writes at least one digit of that base, with no leading zero |
| Text.ParseRadixString | supabase/functions/paystack-webhook/index.ts:25 | reading the digits written by `toString(radix)` gives back the number |
| Text.RadixStringInjective | supabase/functions/paystack-webhook/index.ts:25 | different numbers are written differently |
| Text.PadStart | supabase/functions/paystack-webhook/index.ts:25 | `padStart` reaches the width with fill characters in front and keeps the text as a suffix |
| Text.JoinPairsAt | supabase/functions/paystack-webhook/index.ts:26 | joining two-character parts puts part i at positions 2i and 2i+1 |
| Text.Prefix | supabase/functions/paystack-topup/index.ts:47 | `slice(0, n)` is the first n characters of a longer text, and the whole text when it has n or fewer |
| Text.Substr | supabase/functions/purchase-ticket/index.ts:56 | `substr(start, length)` has at most `length` characters: the exact slice when the text is long enough, the rest of the text from `start` when it ends sooner, and empty when `start` is past the end |
| Text.ToUpperCase | supabase/functions/purchase-ticket/index.ts:56 | upper-casing keeps the length and maps each character independently |
| Text.IndexOf | src/pages/Wallet.tsx:255 | `indexOf` is -1 exactly when the character is absent, otherwise its first position |
| Text.ReplaceFirst | src/pages/Wallet.tsx:255 | `replace` with a one-character pattern changes only the first occurrence |
| Text.LastSegmentShape | src/components/CreateHostelDialog.tsx:96 | `split('.').pop()` holds no '.', is a suffix of the name, and is preceded by '.' unless it is the whole name |
| Text.LastSegmentWithoutSeparator | src/components/CreateHostelDialog.tsx:96 | a name with no '.' is its own extension |
| Text.ParseIntDecimal | src/components/CreateHostelDialog.tsx:133-136 | `parseInt` of a non-negative integer's decimal text gives the integer back |
| Text.SeparatedPairInjective | src/components/CreateHostelDialog.tsx:97 | text joined around a separator absent from the left parts splits back uniquely |
| PaystackWebhook.HexPair | supabase/functions/paystack-webhook/index.ts:25 | a byte is written as two characters |
| PaystackWebhook.ByteHexIsPair | supabase/functions/paystack-webhook/index.ts:25 | `toString(16).padStart(2, '0')` is exactly the high and low hex digits of the byte |
| PaystackWebhook.HexEncodeAt | supabase/functions/paystack-webhook/index.ts:24-26 | the expected signature has two characters per digest byte; byte i is at positions 2i (high digit) and 2i+1 (low digit) |
| PaystackWebhook.HexEncodeLength | supabase/functions/paystack-webhook/index.ts:24-26 | the expected signature is twice as long as the digest |
| PaystackWebhook.HexEncodeLowerCase | supabase/functions/paystack-webhook/index.ts:24-26 | every character of the expected signature is one of 0-9 and a-f |
| PaystackWebhook.PairDeterminesByte | supabase/functions/paystack-webhook/index.ts:25 | the two hex digits determine the byte |
| PaystackWebhook.HexEncodeInjective | supabase/functions/paystack-webhook/index.ts:24-26 | different digests give different expected signatures |
| PaystackWebhook.SettleMatching | supabase/functions/paystack-webhook/index.ts:44-51 | the update touches exactly the rows whose reference matches, and leaves the length and every other row alone |
| PaystackWebhook.UpdateWhereReference | supabase/functions/paystack-webhook/index.ts:44-51 | the in-place update of the table array leaves it equal to the reference-matched update of its old contents |
| PaystackWebhook.HandleWebhook | supabase/functions/paystack-webhook/index.ts:15-90 | the handler's response and the table after it are those of `Reconcile` on the table before, including the case where the store does not apply the update |
| PaystackWebhook.RejectsForgedSignature | supabase/functions/paystack-webhook/index.ts:28-31 | a signature other than the expected one gives 400 and changes no row |
| PaystackWebhook.AcceptedSignatureFixesDigest | supabase/functions/paystack-webhook/index.ts:20-31 | one signature is accepted for two bodies only if their SHA-512 digests agree |
| PaystackWebhook.ParseFailureIsServerError | supabase/functions/paystack-webhook/index.ts:84-90 | a verified body that does not parse gives 500 and changes no row |
| PaystackWebhook.SuccessCompletesMatchingRows | supabase/functions/paystack-webhook/index.ts:42-64 | when the store applies the update, `charge.success` and `transfer.success` give 200, complete every matching row with the event's id, and change nothing else |
| PaystackWebhook.FailureMarksMatchingRows | supabase/functions/paystack-webhook/index.ts:66-76 | when the store applies the update, `charge.failed` and `transfer.failed` give 200 and mark every matching row failed, keeping its gateway id; other rows are unchanged |
| PaystackWebhook.UnhandledEventIgnored | supabase/functions/paystack-webhook/index.ts:41-82 | any other event name gives 200 and changes no row |
| PaystackWebhook.ReplayIsIdempotent | supabase/functions/paystack-webhook/index.ts:41-77 | delivering the same request twice gives the same response and table as delivering it once |
| PaystackWebhook.ResponseIgnoresUpdateOutcome | supabase/functions/paystack-webhook/index.ts:44-79 | the update's error is never read: the response is the same whether or not the store applied it, and an unapplied update changes no row |
| PaystackWebhook.LaterFailureOverwritesCompletion | supabase/functions/paystack-webhook/index.ts:69-75 | with no guard on the current status, a failure after a success turns a completed row into a failed one that keeps its gateway id |
| PaystackTopUp.Channels | supabase/functions/paystack-topup/index.ts:55 | the channels are `['card']` exactly for `bank_card`, and `['mobile_money']` otherwise |
| PaystackTopUp.HandleTopUp | supabase/functions/paystack-topup/index.ts:26-99 | A user without an email, or a missing or non-positive amount, is refused before any gateway call. Otherwise exactly one initialisation call is made. It carries the email, the amount, GHS, the stamped reference, the callback URL, the metadata and the channels. A failed reply raises its message (default "Failed to initialize payment") and inserts no row. A successful reply returns its URL and reference, and appends one pending `top_up` row with the gateway reference. The response is the same whether or not that insert succeeded. |
| PaystackWithdrawal.RecipientType | supabase/functions/paystack-withdrawal/index.ts:44 | `ghipss` exactly for `bank_transfer`, `mobile_money` otherwise |
| PaystackWithdrawal.BankCode | supabase/functions/paystack-withdrawal/index.ts:47 | a supplied bank code is kept; otherwise `MTN` for `mtn_momo` and `VOD` for every other destination |
| PaystackWithdrawal.HandleWithdrawal | supabase/functions/paystack-withdrawal/index.ts:26-118 | Without an email, or with an invalid amount, there is no call and no row. The first call always creates the recipient. A refused recipient stops it: no transfer and no row. Otherwise the transfer pays that recipient code from the balance, with a `withdrawal_` reference. Only when both succeed is one pending `withdrawal` row appended. It carries both codes and "Withdrawal to " plus the account name. |
| PurchaseTicket.TicketCodeShape | supabase/functions/purchase-ticket/index.ts:56 | for any base-36 random text, the code is `TIX-` then at most eight characters of [0-9A-Z]; exactly eight when the text has eight fraction digits |
| PurchaseTicket.HandlePurchase | supabase/functions/purchase-ticket/index.ts:30-119 | Without an email, or with an absent event id or a zero or absent amount, there are no Stripe calls. A negative amount passes. Otherwise the customer is the first one listed. `customer_email` is sent only when there is no customer. The session has a single line item with quantity 1 at the given amount, and its metadata carries the ticket code. The ticket row is written only after the session exists, with the same code, the price and the session id. The URL is returned exactly when the row was written. |
| UseWallet.TypeSet | src/hooks/useWallet.tsx:71-77 | `spending` selects {spending, withdrawal}; `earning` selects {earning, top_up, refund}; `all` and no filter select every type |
| UseWallet.SpendingAndEarningPartitionTypes | src/hooks/useWallet.tsx:71-77 | each declared type is selected by exactly one of the spending and earning filters, and by `all` and by no filter |
| UseWallet.QueryMembership | src/hooks/useWallet.tsx:65-77 | a row is listed exactly when it is in the table, is the user's, and is of a selected type |
| UseWallet.FiltersSplitHistory | src/hooks/useWallet.tsx:71-77 | the spending and earning histories together have as many rows as the unfiltered history |
| UseWallet.WalletHook.constructor | src/hooks/useWallet.tsx:33-35 | the hook starts with no wallet, no transactions, and `loading` set |
| UseWallet.WalletHook.FetchWallet | src/hooks/useWallet.tsx:39-59 | nothing happens without a user. With a user, the wallet is set to the user's single wallet row when the store answers and there is exactly one such row. After a store error, or with zero or several rows, it is unchanged. |
| UseWallet.WalletHook.FetchTransactions | src/hooks/useWallet.tsx:61-92 | nothing happens without a user. With a user, a successful query replaces the list with the user's rows of the selected types, and an error keeps the old list. `loading` is cleared either way. |
| UseWallet.WalletHook.InitiateTopUp | src/hooks/useWallet.tsx:94-117 | with no user or no wallet, it returns null and invokes nothing. Otherwise it makes one invocation carrying the amount converted to pesewas and the wallet's id. The result is the reply's data, or null on error. |
| UseWallet.WalletHook.InitiateWithdrawal | src/hooks/useWallet.tsx:119-143 | the same guards and error handling as a top-up; the invocation carries the destination, the account details and the wallet id |
| UseUserScores.Reached | src/hooks/useUserScores.tsx:82-96 | the rung is between 0 and 4: 0 exactly below the first threshold, 4 exactly from the last |
| UseUserScores.CribnRung | src/hooks/useUserScores.tsx:82-88 | the Cribn rung is one of five |
| UseUserScores.RunnerRung | src/hooks/useUserScores.tsx:90-96 | the runner rung is one of five |
| UseUserScores.GetCribnLevel | src/hooks/useUserScores.tsx:82-88 | the level is the name and colour of the rung of thresholds 50/200/500/1000 the score has reached (Newbie, Beginner, Intermediate, Advanced, Expert) |
| UseUserScores.GetRunnerLevel | src/hooks/useUserScores.tsx:90-96 | the level is the name and colour of the rung of thresholds 100/500/1000/2000 the score has reached (Inactive, New Runner, Active Runner, Pro Runner, Super Runner) |
| UseUserScores.LevelsMonotone | src/hooks/useUserScores.tsx:82-96 | a higher score never gives a lower level on either ladder |
| UseUserScores.LevelNamesDetermineRung | src/hooks/useUserScores.tsx:82-96 | two scores share a level name exactly when they share a rung, and one level name always has one colour |
| UseUserScores.LowestBoundaries | src/hooks/useUserScores.tsx:86-95 | 49 is Newbie and 50 is Beginner; 99 is Inactive and 100 is New Runner |
| UseUserScores.ScoresHook.constructor | src/hooks/useUserScores.tsx:35-37 | no scores, no badges, and `loading` set |
| UseUserScores.ScoresHook.FetchScores | src/hooks/useUserScores.tsx:41-61 | nothing without a user; the user's single scores row when the store answers and there is exactly one such row; unchanged after a store error or with zero or several rows |
| UseUserScores.ScoresHook.FetchBadges | src/hooks/useUserScores.tsx:63-80 | nothing without a user; otherwise the user's badges on success, unchanged on error, and `loading` cleared either way |
| WalletPage.TransactionIcon | src/pages/Wallet.tsx:28-40 | up arrow exactly for top_up, earning and refund; down arrow exactly for spending and withdrawal |
| WalletPage.TransactionColor | src/pages/Wallet.tsx:42-54 | green exactly for top_up, earning and refund; red exactly for spending and withdrawal |
| WalletPage.AmountSign | src/pages/Wallet.tsx:264 | the sign is '-' or '+' |
| WalletPage.IconAgreesWithColour | src/pages/Wallet.tsx:28-54 | the icon and the colour classify every type text alike, the default included |
| WalletPage.SignAgreesWithColour | src/pages/Wallet.tsx:264 | the amount is negative exactly when it is drawn red |
| WalletPage.SignFollowsFilterTabs | src/pages/Wallet.tsx:264 | for each declared type, the sign is '-' exactly when the spending tab selects it and '+' exactly when the earning tab does. No declared type falls to the neutral icon. |
| WalletPage.FallbackLabel | src/pages/Wallet.tsx:255 | the label keeps the type's length, turns its first '_' into a space, and upper-cases every other character |
| WalletPage.FallbackLabelAtUnderscore | src/pages/Wallet.tsx:255 | a type text whose first '_' sits between a and b is labelled as upper-cased a, a space, and upper-cased b |
| WalletPage.FallbackLabelOfTopUp | src/pages/Wallet.tsx:255 | `top_up` is shown as "TOP UP" |
| WalletPage.Title | src/pages/Wallet.tsx:255 | a non-empty description is the title; a missing or empty one gives the fallback label of the type |
| WalletPage.ComputedLevels | src/pages/Wallet.tsx:88-89 | with a scores row, the computed levels are the cribn and runner levels of its two scores; they are always names of their ladders |
| WalletPage.ShownLevels | src/pages/Wallet.tsx:136-161 | the cribn badge always shows the computed cribn level; the runner badge is drawn exactly for a scores row with errands completed, and then shows the runner level of its score |
| WalletPage.NoScoresShowsLowestLevels | src/pages/Wallet.tsx:88-89 | without scores the page computes Newbie and Inactive, the levels of a zero score, and draws only the Newbie badge |
| WalletPage.WalletScreen.constructor | src/pages/Wallet.tsx:22 | the tab starts at `all` |
| WalletPage.WalletScreen.HandleFilterChange | src/pages/Wallet.tsx:56-59 | the tab is stored and the hook refetches with that same filter. After a successful fetch, every listed row is from the table and of a type the selected tab admits. |
| HostelCard.ImagesMembership | src/components/HostelCard.tsx:44 | a medium is among the images exactly when the hostel has media, holds it, and its type is `image` |
| HostelCard.ImagesKeepOrder | src/components/HostelCard.tsx:44 | the images of concatenated media are the images of each part in turn |
| HostelCard.PreviousIndex | src/components/HostelCard.tsx:84 | the previous button keeps an index in range |
| HostelCard.NextIndex | src/components/HostelCard.tsx:88 | the next button keeps an index in range |
| HostelCard.PreviousAndNextAreInverse | src/components/HostelCard.tsx:84-88 | previous then next, or next then previous, returns to the same image |
| HostelCard.AdvanceWithinOneLap | src/components/HostelCard.tsx:88 | pressing next k ≤ count times moves k forward, wrapping past the last image once |
| HostelCard.CarouselCycles | src/components/HostelCard.tsx:88 | count presses of next return to the start, and every image is reached in fewer |
| HostelCard.Counter | src/components/HostelCard.tsx:76-80 | the counter is drawn exactly when there is more than one image, and then shows the 1-based index over the count, the index never above the count |
| HostelCard.ImageCarousel.constructor | src/components/HostelCard.tsx:42 | the carousel starts at image 0 |
| HostelCard.ImageCarousel.ShowPrevious | src/components/HostelCard.tsx:84 | the index steps back with wrap-around and stays in range |
| HostelCard.ImageCarousel.ShowNext | src/components/HostelCard.tsx:88 | the index steps forward with wrap-around and stays in range |
| HostelCard.ShownAmenities | src/components/HostelCard.tsx:131 | the badges show the first min(4, n) amenities, in order |
| HostelCard.HiddenAmenities | src/components/HostelCard.tsx:137-141 | "+k more" is drawn exactly when there are more than 4; then shown plus k is the total |
| HostelCard.AmenityLabel | src/components/HostelCard.tsx:134 | the label keeps the length, the first '_' becomes a space and every other character is kept; an amenity without '_' is shown as it is |
| HostelCard.AmenityLabelAtUnderscore | src/components/HostelCard.tsx:134 | `a_b`, with no '_' in `a`, is drawn as `a b` |
| HostelCard.ContactUrl | src/components/HostelCard.tsx:47-64 | a WhatsApp link exists exactly when the WhatsApp number is present, and a phone link exactly when the phone number is. The number is recovered after `https://wa.me/` or `tel:`. In-app messaging opens nothing. |
| HostelCard.DrawnButtonsOpenLinks | src/components/HostelCard.tsx:150-171 | a WhatsApp or phone button is drawn exactly when pressing it opens a link |
| HostelFilters.AmenityChange | src/components/HostelFilters.tsx:41-47 | checking appends the amenity at the end with no duplicate check; unchecking removes it and keeps every other selected amenity |
| HostelFilters.RemoveAmenity | src/components/HostelFilters.tsx:49-51 | removing drops the amenity and keeps every other one |
| HostelFilters.UncheckRemovesEveryOccurrence | src/components/HostelFilters.tsx:44-51 | unchecking removes every occurrence, keeps each other amenity as often as before, and equals removing it |
| HostelFilters.UncheckKeepsOrder | src/components/HostelFilters.tsx:45 | unchecking distributes over any split of the list, so order is kept |
| HostelFilters.CheckThenUncheckRestores | src/components/HostelFilters.tsx:41-46 | checking then unchecking an amenity that was not selected restores the list |
| HostelFilters.ClearAllFilters | src/components/HostelFilters.tsx:53-57 | clearing gives an empty search, the range [0, 5000] and no amenities |
| HostelFilters.InactiveExactlyWhenCleared | src/components/HostelFilters.tsx:59 | within the slider's bounds, no filter is active exactly when the filters are the cleared ones |
| HostelFilters.FindOption | src/components/HostelFilters.tsx:110 | `find` returns the first option with that value, or nothing exactly when no option has it |
| HostelFilters.BadgeLabel | src/components/HostelFilters.tsx:110-113 | an unknown amenity shows its raw value; a known one shows the caption of the first option with that value |
| CreateHostelDialog.HostelData | src/components/CreateHostelDialog.tsx:131-142 | a new listing is pending and unverified with no coordinates, and carries the form's name, description, address, amenities, both contact numbers and preferred contact |
| CreateHostelDialog.TypedNumbersAreConverted | src/components/CreateHostelDialog.tsx:133-136 | prices typed as whole cedis are stored as 100 times as many pesewas; room counts are stored as typed |
| CreateHostelDialog.EmptyPriceIsNaN | src/components/CreateHostelDialog.tsx:133 | an empty price field is NaN, not zero |
| CreateHostelDialog.StoragePathsDistinct | src/components/CreateHostelDialog.tsx:96-97 | two files at different positions never get the same path, whatever the clock reads |
| CreateHostelDialog.MediaType | src/components/CreateHostelDialog.tsx:112 | `video` exactly when the MIME type starts with `video/`, `image` otherwise |
| CreateHostelDialog.UploadPaths | src/components/CreateHostelDialog.tsx:94-97 | file i is uploaded to `userId/hostelId/now-i.ext`, with its own clock reading |
| CreateHostelDialog.UploadPathsDistinct | src/components/CreateHostelDialog.tsx:94-101 | no two files of an upload share a path |
| CreateHostelDialog.MediaEntries | src/components/CreateHostelDialog.tsx:109-114 | row i belongs to the hostel, has its file's public URL and media type, and display order i |
| CreateHostelDialog.MediaEntriesDescribeFiles | src/components/CreateHostelDialog.tsx:105-114 | each media row points at the public URL of its own file's upload path. It is a video exactly when the MIME type starts with `video/` and an image exactly otherwise, and its display order is its position. |
| CreateHostelDialog.FirstFailure | src/components/CreateHostelDialog.tsx:103 | every upload before the first failure succeeded, and that one failed |
| CreateHostelDialog.FirstFailureIsFirst | src/components/CreateHostelDialog.tsx:103 | a position preceded only by successes, and failing unless it is the end, is the first failure |
| CreateHostelDialog.UploadEach | src/components/CreateHostelDialog.tsx:94-115 | the loop uploads files in order and stops after the first failed upload; with no failure it has every path and every media row |
| CreateHostelDialog.UploadMediaFiles | src/components/CreateHostelDialog.tsx:88-124 | Without a user it fails before any upload. A failed upload stops at the first failing file. An upload was attempted for every path up to and including the failing file, all but the last succeeded, and no media row is written. When every upload succeeds, all rows go to one insert. It succeeds when there are no files (then no insert is made) or when the insert succeeds. |
| CreateHostelDialog.HostelDialog.constructor | src/components/CreateHostelDialog.tsx:42-56 | an empty form (preferred contact `whatsapp`), no files, not uploading |
| CreateHostelDialog.HostelDialog.HandleAmenityChange | src/components/CreateHostelDialog.tsx:64-70 | the form's amenities take the same toggle as the filter panel's; nothing else changes |
| CreateHostelDialog.HostelDialog.HandleFileUpload | src/components/CreateHostelDialog.tsx:72-82 | a pick that would pass ten files alerts and changes nothing; otherwise the files are appended in order; the list never exceeds ten |
| CreateHostelDialog.HostelDialog.RemoveFile | src/components/CreateHostelDialog.tsx:84-86 | exactly the file at the index goes, and the rest keep their order |
| CreateHostelDialog.HostelDialog.HandleSubmit | src/components/CreateHostelDialog.tsx:126-175 | It asks to create the listing built from the form. Media are uploaded exactly when the create succeeded and there are files. That upload succeeds exactly when there is a user, every file uploads and the media insert succeeds. Only a fully successful submit resets the form and the files and closes the dialog. Otherwise they stay as they were. `uploading` is false at the end. |
| CreateHostelDialog.HostelDialog.ResetForm | src/components/CreateHostelDialog.tsx:150-165 | after a successful submit the form is empty, the file list is empty and the dialog is closed |
| WithdrawalDialog.CheckWithdrawal | src/components/WithdrawalDialog.tsx:33-59 | the guards fire in order (invalid amount, then no wallet or amount×100 over the balance, then a missing account field), and the request goes on exactly when none fires |
| WithdrawalDialog.AcceptedWithdrawalFitsBalance | src/components/WithdrawalDialog.tsx:33-59 | an accepted numeric amount is positive, fits the balance in pesewas, and has both account fields |
| WithdrawalDialog.TypedAmountChecks | src/components/WithdrawalDialog.tsx:33-59 | for a typed whole number n, the request goes on exactly when 0 < n, n×100 ≤ balance, and both account fields are filled |
| WithdrawalDialog.AccountDetailsFor | src/components/WithdrawalDialog.tsx:63-67 | the bank code is sent exactly for a bank transfer; the account number and name always |
| WithdrawalDialog.WithdrawalForm.constructor | src/components/WithdrawalDialog.tsx:17-23 | empty fields, destination `mtn_momo`, not loading |
| WithdrawalDialog.WithdrawalForm.HandleWithdrawal | src/components/WithdrawalDialog.tsx:33-87 | A refused request changes nothing and invokes nothing. Otherwise the hook is asked with the parsed amount, the destination and the account details. `loading` is false afterwards. Without a user nothing is invoked. It succeeds exactly when there is a user and the invocation delivers. Only then does it clear the amount and account fields and close the dialog. |

## Left out

**Outside the code:**

- Cryptography: SHA-512 (`crypto.subtle.digest`) and the text encoding in front of it are a function parameter. Only the hex encoding and the comparison are modelled.
- `JSON.parse` of the webhook body and `req.json()` of the other handlers are inputs. A malformed request body is not modelled, nor is a missing `Authorization` header (`replace` is then called on `null` and throws into the catch-all 500).
- CORS and `OPTIONS` preflight responses, `console` logging, toasts, `alert` and `window.open` are left out.
- React effects and re-rendering are left out, as is the `useAuth` context. The user is a constructor argument.
- The Supabase client and the Paystack and Stripe APIs are left out. Their results are parameters:
  - query success, including a store error on the `.single()` wallet and scores reads;
  - insert outcome;
  - whether the webhook's update was applied (its error is never read);
  - gateway replies;
  - the customer list;
  - the session;
  - storage upload outcomes and public URLs.

**Not modelled:**

- The store's own columns are not modelled: `id`, `created_at`, `updated_at`, `earned_at`, and the `updated_at` the webhook writes. The `order('created_at')` and `order('earned_at')` sort is not modelled either, so query results are in table order.
- Floating point is not modelled. Client amounts are whole cedis, so `toFixed` formatting and `average_rating` are left out.
- Unicode: upper-casing covers ASCII letters only, and the `capitalize` CSS class on amenity labels is left out.
- `parseInt` is modelled as an optional sign and leading decimal digits. Leading whitespace and other radix prefixes are not modelled.
- A top-up body without `payment_method`, or a withdrawal body without `destination`, is not modelled. The model's method and destination are strings, so the stored row's `payment_method` always carries one, where the source would store `null`.
- A Paystack reply with `status: true` but no `data` object makes the top-up and withdrawal handlers throw and answer with their catch-all 500. The reply datatypes always carry `data` on success, so that case is not modelled. The ticket handler's Stripe client returns typed objects or throws, and a throw is its modelled error path.
- `handleInputChange` in the hostel dialog (a generic field setter) is not modelled. So are the intermediate `uploading = true` state and the in-app messaging placeholder, which only logs.

**Deliberately weaker contracts:**

- WithdrawalDialog.CheckWithdrawal: `parseFloat` of the amount field is read as a whole number of cedis (`parseInt`), so a fractional amount such as "12.5" is checked as 12, and exponent notation such as "1e3", which `parseFloat` reads as 1000, is checked as 1. The dialog's number input and `*100` are modelled only for whole cedis.
- WithdrawalDialog.WithdrawalForm.HandleWithdrawal: it sends the whole-cedi reading of the amount, for the same reason.
- UseWallet.WalletHook.InitiateTopUp: the `amount * 100` conversion is stated for whole cedis. A fractional cedi amount, which yields a float in pesewas, is not modelled.
- UseWallet.WalletHook.InitiateWithdrawal: the same conversion as the top-up.
- CreateHostelDialog.UploadMediaFiles: a failure carries a fixed message in place of the storage or insert error object.
- HostelCard.ImageCarousel.ShowPrevious: it is stated only when there is more than one image, because the buttons are drawn only then.
- HostelCard.ImageCarousel.ShowNext: the same as ShowPrevious.

**Where the code differs from what its design describes (the model follows the code):**

- The webhook answers 500, not 200, when a verified body fails to parse or a handled event lacks `data`.
- The webhook updates every matching row whatever its current status. There is no "pending only" guard.
- A ticket code has at most eight characters after `TIX-`, and fewer when the random text is short.
- Settling a transaction does not change any wallet balance.
