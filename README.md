# plugs-payment: ledgers, withdrawal settlement and wechat V2 reconciliation

A Dafny model of the payment plugin's core:

- **The two ledgers** (`BalanceService`, `IntegralService`). Each is a table of signed entries keyed by `(unid, code)`, with `unlock`, `cancel` and soft-delete flags. `create` upserts a row by code behind an insufficient-funds guard. `unlock`, `cancel` and `remove` patch one flag through `set`. `recount` recomputes an account's aggregates `lock`, `used`, `total` and `usable` and merges them into the account's `extra` map, or into a caller's buffer. The balance `recountAll` computes the same figures over every account. The integral `recountAll` does not follow the integral `recount`: it neither truncates to whole units nor leaves `lock` out of `usable` (`IntegralService.RecountDiffersFromRecountAll`).
- **The settlement pass** (`payment:trans`). It walks the online withdrawal jobs. A job awaiting payout (status 3) is submitted to the gateway and moves to status 4. A job awaiting confirmation (status 4) is queried: it settles (status 5) and unlocks its balance debit, or fails (status 0) and cancels it. Each job's failure is caught on its own, the loop goes on, and the pass counts the failures.
- **The transfer aggregates** (`UserTransfer::types`, `UserTransfer::amount`).
- **The wechat V2 reconciliation rules**:
  - the acknowledgement of payment and refund notifications;
  - the update of the refund record;
  - the refund request's zero-amount short-circuit and yuan-to-fen conversion;
  - the fee conversion and success test of order creation.

Money is in integer cents (fen). PHP `intval` is modelled as truncation toward zero (`Money.WholeUnits`, `Money.Truncated`, `WechatPaymentV2.Fen`). Things outside the model are function parameters:

- the gateway and its SDK calls;
- the merchant configuration (`getConfig`);
- the parent-class hooks;
- the clock (`now`).

The model cannot see what such a call does. It covers every answer the call could give.

Modules: `Wrappers`, `Money` and `Accounts` (common.dfy); `Ledger` (the filtered sums and the upsert shared by both ledgers, ledger.dfy); `BalanceService`; `IntegralService`; `PaymentTransfer` and `UserTransfer` (user_transfer.dfy); `Trans`; `WechatPaymentV2` (wechat_v2.dfy).

Consequences of the code that the model makes explicit:

- **A locked debit counts twice in recount.** It is in `used` (BalanceService.php:132) as well as in `lock` (line 131). Take account 7 with a released credit of 100 and a locked debit of 40. Before the unlock it has `total 100, used 40, lock -40, usable 100`, and after it `lock 0, usable 60` (`BalanceService.LockedDebitExample`).
- **The funds guard** counts the row that the upsert then overwrites.
  - A retried debit can be refused. See `BalanceService.DebitRetryRefused`.
  - Replacing a credit by a debit can drive the live sum below zero. See `Ledger.OverwriteCanOverdraw`.

  A debit that passes the guard keeps the live sum non-negative only for a new code (`Ledger.GuardedCreateKeepsFunds`).
- **The body of order creation** is always `orderTitle`: `$orderRemark` is never assigned in `create`. See `WechatPaymentV2.PrepayFor`.

## Model

| member | source | states |
|---|---|---|
| `Money.WholeUnits` | src/service/IntegralService.php:143-145 | `intval` of a cent amount in whole units: truncation toward zero, within one unit of the exact quotient, with its sign |
| `Money.Truncated` | src/command/Trans.php:106 | the truncated amount is a multiple of 100, no larger in magnitude than the input, less than 100 away from it, with the same sign |
| `Accounts.Merge` | src/service/BalanceService.php:140 | `array_merge` onto `extra`: the merged keys are both key sets, the new keys win, and every other key of `extra` keeps its value |
| `Ledger.Tally` | src/service/BalanceService.php:129-141 | `lock` = sum of active unlocked-0 rows, `used` = minus the sum of active debits (locked ones included), `total` = sum of active credits, `usable = total - used - lock`, equal to the live sum minus `lock`; `used, total >= 0` |
| `Ledger.VoidIsAbsent` | src/service/BalanceService.php:130 | a cancelled or deleted row contributes to none of the four aggregates: the tally is that of the table without it |
| `Ledger.VoidingRemoves` | src/service/BalanceService.php:96-110 | cancelling with a non-zero flag, or deleting, a row gives the tally of the table with that row removed |
| `Ledger.UnlockReleases` | src/service/BalanceService.php:84-87 | unlocking an active locked row lowers `lock` by its amount, raises `usable` by it, and leaves `used` and `total` unchanged |
| `Ledger.OtherAccountUntouched` | src/service/BalanceService.php:130 | a change to another account's row leaves this account's aggregates as they were |
| `Ledger.Touched` | src/service/BalanceService.php:84-110 | a patch never changes a row's owner, code or amount |
| `Ledger.FindLive` | src/service/BalanceService.php:54-55 | the first row with this `(unid, code)` and `deleted = 0`; none exists when it answers `None` |
| `Ledger.FindCode` | src/service/BalanceService.php:152-153 | the first row with this code and `deleted = 0`, whatever its owner; none exists when it answers `None` |
| `Ledger.FindCodeStable` | src/service/BalanceService.php:152-153 | `get`'s lookup depends only on the code and delete columns, so unlocking or cancelling a row never moves it |
| `Ledger.Slot` | src/service/BalanceService.php:55-58 | the row the upsert writes is within the table or just past its end |
| `Ledger.PutLands` | src/service/BalanceService.php:53-68 | after the upsert the first live row of `(unid, code)` holds the new amount and lock flag, an overwritten row keeps its cancel flag, and every other row is unchanged |
| `Ledger.PutKeepsUnique` | src/service/BalanceService.php:53-68 | the upsert keeps at most one live row per `(unid, code)` |
| `Ledger.PutIdempotent` | src/service/BalanceService.php:53-68 | upserting the same values twice is the same as once |
| `Ledger.PutLiveSum` | src/service/BalanceService.php:49-68 | the account's live sum after the upsert: plus the amount for a new row, minus the old and plus the new for an overwritten uncancelled row, unchanged for an overwritten cancelled row |
| `Ledger.GuardedCreateKeepsFunds` | src/service/BalanceService.php:48-51 | for a new code, a debit that passes the guard leaves a non-negative live sum non-negative |
| `Ledger.OverwriteCanOverdraw` | src/service/BalanceService.php:48-68 | overwriting a credit of 100 by a debit of 100 passes the guard and leaves the live sum at -100 |
| `BalanceService.Upsert` | src/service/BalanceService.php:53-68 | the saved table projects onto `Ledger.PutRow`; the written row is in range and every other row is unchanged |
| `BalanceService.UpsertWrites` | src/service/BalanceService.php:58-66 | the row at the slot carries the new name, amount, remark, lock flag, `status = 1` and `unlock_time = now`, over what was there |
| `BalanceService.UpsertIdempotent` | src/service/BalanceService.php:53-68 | repeating a `create`'s write with the same arguments and time changes nothing more |
| `BalanceService.UpsertKeepsUnique` | src/service/BalanceService.php:53-68 | the upsert keeps `(unid, code)` unique among live rows and the written row is the one later lookups find |
| `BalanceService.Apply` | src/service/BalanceService.php:84-110 | `unlock`, `cancel` and `remove` write only their flag and its time; name, remark and status stay |
| `BalanceService.PatchKeepsUnique` | src/service/BalanceService.php:165-170 | patching a row keeps `(unid, code)` unique among live rows |
| `BalanceService.DebitRetryRefused` | src/service/BalanceService.php:48-51 | with 100 on the account, a debit of 60 passes the guard once and is refused after it was written |
| `BalanceService.LockedDebitExample` | src/service/BalanceService.php:129-139 | a locked debit of 40 against a credit of 100 gives lock -40, used 40, total 100, usable 100, and after the unlock lock 0, usable 60 |
| `BalanceService.MergeRecountTwice` | src/service/BalanceService.php:140 | recounting an account twice leaves the keys of the second recount: the first one's keys are all replaced |
| `BalanceService.PaymentBalance.Get` | src/service/BalanceService.php:150-156 | fails with the invalid-code error exactly when no row with this code is undeleted; otherwise the row found has this code and is undeleted |
| `BalanceService.PaymentBalance.RecountAll` | src/service/BalanceService.php:176-184 | the four aggregates over every account; `usable = total - used - lock`; nothing is written |
| `BalanceService.PaymentBalance.Recount` | src/service/BalanceService.php:119-142 | with a buffer: no account check, the keys go into the buffer, accounts unchanged; without one: a missing account fails and nothing changes, otherwise the `balance_*` keys are merged into that account's `extra` |
| `BalanceService.PaymentBalance.Create` | src/service/BalanceService.php:43-75 | a missing account and a debit beyond the live sum fail and change nothing; otherwise the row is upserted and the account recounted, and an unsaved new row fails with the change-failed error |
| `BalanceService.PaymentBalance.Set` | src/service/BalanceService.php:165-170 | an unknown code fails and changes nothing; otherwise only the found row is patched, every row keeps its owner, code and amount, and the owner is recounted (failing if it has no account) |
| `BalanceService.PaymentBalance.Unlock` | src/service/BalanceService.php:84-87 | `set` with the unlock flag and time |
| `BalanceService.PaymentBalance.Cancel` | src/service/BalanceService.php:96-99 | `set` with the cancel flag and time |
| `BalanceService.PaymentBalance.Remove` | src/service/BalanceService.php:107-110 | `set` with the delete flag and time |
| `IntegralService.Divisor` | src/service/IntegralService.php:41-42 | the rate is the configured one when it is at least 1, and 1 when it is empty or below 1; always at least 1 |
| `IntegralService.Ratio` | src/service/IntegralService.php:39-44 | the ratio times the divisor is the input, and it lies between 0 and the input |
| `IntegralService.Upsert` | src/service/IntegralService.php:78-83 | the saved table projects onto `Ledger.PutRow`; the written row is in range and every other row is unchanged |
| `IntegralService.UpsertRecordsSums` | src/service/IntegralService.php:70-76 | the written row records `amount_prev` = the live sum before and `amount_next` = that sum plus the amount; `unlock_time` is `now` only on an unlocked row |
| `IntegralService.RetryStartsFromNext` | src/service/IntegralService.php:63-83 | retrying a new code rewrites the same row, and the retry's `amount_prev` is the first write's `amount_next` |
| `IntegralService.UpsertKeepsUnique` | src/service/IntegralService.php:78-83 | the upsert keeps `(unid, code)` unique among live rows and the written row is the one later lookups find |
| `IntegralService.Apply` | src/service/IntegralService.php:98-124 | `unlock`, `cancel` and `remove` write only their flag and its time; name and the recorded sums stay |
| `IntegralService.Recounted` | src/service/IntegralService.php:142-151 | `lock`, `used` and `total` are the whole-unit truncations of the sums, `used` in absolute value, and `usable = total - used` leaves `lock` out; `usable` is within two units of the live sum |
| `IntegralService.UnlockKeepsUsable` | src/service/IntegralService.php:143-151 | unlocking a row never changes the integral `usable` |
| `IntegralService.RecountDiffersFromRecountAll` | src/service/IntegralService.php:188-196 | one locked credit of 100 gives `recount` usable 100 and `recountAll` usable 0 |
| `IntegralService.PaymentIntegral.Get` | src/service/IntegralService.php:162-168 | fails with the invalid-code error exactly when no row with this code is undeleted; otherwise the row found has this code and is undeleted |
| `IntegralService.PaymentIntegral.RecountAll` | src/service/IntegralService.php:188-196 | the untruncated four aggregates over every account, `usable = total - used - lock`; nothing is written |
| `IntegralService.PaymentIntegral.Recount` | src/service/IntegralService.php:133-154 | with a buffer: no account check, the `integral_*` keys go into the buffer; without one: a missing account fails, otherwise the keys are merged into its `extra` |
| `IntegralService.PaymentIntegral.Create` | src/service/IntegralService.php:57-89 | a missing account and a debit beyond the live sum fail and change nothing; a failed save fails with the change-failed error and writes nothing; otherwise the row is upserted and the account recounted |
| `IntegralService.PaymentIntegral.Set` | src/service/IntegralService.php:177-182 | an unknown code fails and changes nothing; otherwise only the found row is patched and its owner is recounted |
| `IntegralService.PaymentIntegral.Unlock` | src/service/IntegralService.php:98-101 | `set` with the unlock flag and time |
| `IntegralService.PaymentIntegral.Cancel` | src/service/IntegralService.php:110-113 | `set` with the cancel flag and time |
| `IntegralService.PaymentIntegral.Remove` | src/service/IntegralService.php:121-124 | `set` with the delete flag and time |
| `UserTransfer.Types` | src/service/UserTransfer.php:34-37 | no name gives the whole table; a known name its label; an unknown name itself |
| `UserTransfer.BankChannelUnlabelled` | src/service/UserTransfer.php:21-27 | the `wechat_banks` channel the settlement pass pays has no label and is shown by its name |
| `UserTransfer.Amount` | src/service/UserTransfer.php:44-58 | the four results `[total, count, audit, locks]` are non-negative |
| `UserTransfer.AmountRestricts` | src/service/UserTransfer.php:46-50 | for `unid > 0` the four sums are those over that user's rows alone |
| `UserTransfer.OwnedSum` | src/service/UserTransfer.php:47-50 | each band's sum restricted to `unid` equals the unrestricted sum over the user's rows |
| `UserTransfer.BandsPartition` | src/service/UserTransfer.php:47-50 | the signed sums satisfy `status >= 1` = `1 <= status < 3` + `status = 3` + `status >= 4` |
| `UserTransfer.BandSumNonNegative` | src/service/UserTransfer.php:52-55 | with non-negative amounts every band sum is non-negative |
| `UserTransfer.AmountPartition` | src/service/UserTransfer.php:47-57 | with non-negative amounts `total = audit + locks + count` |
| `Trans.Payout` | src/command/Trans.php:106 | the payout is a multiple of 100 fen; for `amount >= charge` it is the net amount truncated to whole yuan |
| `Trans.Request` | src/command/Trans.php:177-188 | the wallet request (and the bank request of lines 101-108) carries the payout and the job code as trade number; bank jobs get the bank request |
| `Trans.CreateTransfer` | src/command/Trans.php:57-83 | a missing configuration or a failed submission raises its exception (the per-job `catch` writes only the change time and message), and nothing else raises; an accepted submission (both codes `SUCCESS`) moves the job to status 4 with the configured appid and openid, the gateway's trade number, `trade_time = payment_time ?? now` and "创建微信提现成功", and writes no other field; a refused reply writes only the change time and `err_code_des ?? "线上提现失败"` |
| `Trans.QueryConfig` | src/command/Trans.php:199-200 | the query uses the merchant part of the configuration with the appid and openid the job recorded |
| `Trans.QueryTransferBank` | src/command/Trans.php:197-225 | a missing configuration or a failed query raises; an answered query (both codes `SUCCESS`) always asks for a ledger follow-up, and exactly those do: status `SUCCESS` writes status 5, `trade_time = pay_succ_time ?: now`, the change time and "微信提现打款成功", and asks for unlock and recount; `FAILED` or `BANK_FAIL` writes status 0, the change time and "微信提现打款失败", and asks for cancel and recount; any other status only recounts and writes nothing; an unanswered query changes nothing and raises nothing |
| `Trans.QueryTransferWallet` | src/command/Trans.php:234-251 | a missing configuration or a failed query raises, and nothing else does; an answered query (both codes `SUCCESS`) settles the job, and exactly those do: status 5, `trade_time = payment_time`, the change time and "微信提现打款成功！", then unlock and recount; there is no failure branch, and an unanswered query changes nothing |
| `Trans.Visit` | src/command/Trans.php:55-80 | status moves only 3 to 4 and 4 to 5 or 0; the job's identity and amounts are never written; an unlock follows exactly 4 to 5, a cancel exactly 4 to 0; an exception writes only the change time and message |
| `Trans.FinishedNotRevisited` | src/command/Trans.php:52 | a job settled or failed in a pass is not selected again |
| `Trans.ConfirmationNeverResubmits` | src/command/Trans.php:57-80 | a job awaiting confirmation is never submitted again, whatever the gateway would answer |
| `Trans.CountSelected` | src/command/Trans.php:52-53 | the reported total is at most the number of jobs |
| `Trans.RaisedCount` | src/command/Trans.php:81-85 | the jobs whose visit threw are among the selected ones |
| `Trans.PatchOf` | src/command/Trans.php:212-221 | a settled job's follow-up is the unlock patch with flag 1, a failed job's the cancel patch with flag 1 |
| `Trans.Settlement.Release` | src/command/Trans.php:212 | `unlock(code)` or `cancel(code)` with flag 1: the outcome of balance `set`, and no row's code, delete flag or set unlock/cancel flag changes |
| `Trans.ReleaseFailure` | src/service/BalanceService.php:119-165 | `unlock`/`cancel` then `recount(unid)` throws "无效的操作编号！" exactly for an unknown code, otherwise "账号不存在！" exactly when the row owner's or the job's account is missing, and nothing when the row is found and both accounts exist |
| `Trans.FollowFailure` | src/command/Trans.php:212-223 | a follow-up throws only one of the two ledger messages; none without a follow-up; a recount alone fails exactly when the job's account is missing |
| `Trans.FollowFailureStable` | src/command/Trans.php:55-85 | whether and how a follow-up throws is the same on any later ledger of the pass: unlocks, cancels and recounts keep every code, delete flag and owner, and the set of accounts |
| `Trans.SettledFrom` | src/command/Trans.php:212-223 | the outcome of balance `set` followed by `recount(unid)` is the settled outcome: it throws exactly as `ReleaseFailure` says; only the found row is patched, every amount stays, its owner's and the job account's `balance_*` keys are those of the new tally when nothing threw, other accounts are untouched, an unknown code changes nothing |
| `Trans.Settlement.Settle` | src/command/Trans.php:212-223 | `unlock(code)` or `cancel(code)` then `recount(unid)` ends in the settled outcome above, failing exactly when the code is unknown or the row owner's or the job's account is missing, and no row's code, delete flag or set unlock/cancel flag changes |
| `Trans.Settlement.Follow` | src/command/Trans.php:212-223 | the follow-up throws exactly the exception `FollowFailure` gives on the ledger before it; unlock or cancel then recount: the row `get(code)` finds gets unlock (or cancel) flag 1 and its time, and no other row changes; on success the job's account, and the row's owner, hold the `balance_*` keys of the new tally, and other accounts are unchanged; an unknown code fails with the invalid-code message and changes nothing; a recount alone fails exactly when the account is missing |
| `Trans.Settlement.Step` | src/command/Trans.php:55-85 | one job: only that row changes, to its visit's outcome; a ledger failure after the save overwrites only the change time and message, so the saved status stays; the row is marked failed exactly when it is selected, its visit did not throw and its follow-up throws, with that exception's message; a job with no follow-up leaves the ledger and accounts as they were; a settled or failed job's balance row is unlocked or cancelled as `Follow` states, and on success the job's account holds the new `balance_*` keys |
| `Trans.Settlement.Handle` | src/command/Trans.php:55-85 | a selected job: the saved row is its visit's outcome, or that outcome with a ledger failure's time and message over it; it is marked failed exactly when its visit did not throw and its follow-up throws, and then holds that exception's message; the ledger changes only as the follow-up states, and a follow-up that did not throw leaves the row unlocked or cancelled |
| `Trans.Settlement.Turn` | src/command/Trans.php:55-85 | one turn of the loop keeps its invariant: the first `i + 1` jobs hold their outcomes, exactly the jobs whose follow-up throws on the starting ledger are marked failed, the error count is the thrown visits plus those failures so far, and the ledger keeps its amounts and released rows |
| `Trans.Settlement.Execute` | src/command/Trans.php:49-87 | total = the number of selected jobs; unselected jobs unchanged; each selected job ends as its visit saved it, or with a ledger failure's message over it; error = thrown visits + failed follow-ups, and a follow-up fails exactly when `FollowFailure` says so on the ledger the pass started from, so error = `RaisedCount` + `FailCount`; the ledger keeps every amount and changes only rows of released codes; every settled job whose follow-up did not throw has its balance row unlocked, every failed one its row cancelled, and no unlock or cancel flag is cleared |
| `WechatPaymentV2.Fen` | src/service/payment/wechat/WechatPaymentV2.php:162 | yuan to fen truncated toward zero: within one fen below (above, for negatives) the exact value |
| `WechatPaymentV2.FenOfCents` | src/service/payment/wechat/WechatPaymentV2.php:121 | in exact arithmetic, a whole number of fen divided by 100 converts back to itself (PHP's doubles can differ: `intval(floatval("0.57") * 100)` is 56) |
| `WechatPaymentV2.FenMonotonic` | src/service/payment/wechat/WechatPaymentV2.php:161-162 | a larger yuan amount never converts to fewer fen |
| `WechatPaymentV2.UpdateOf` | src/service/payment/wechat/WechatPaymentV2.php:120-122 | the hook gets the order code, the transaction and the cash and coupon fees in yuan, which convert back to the notified fen, in exact arithmetic (PHP's doubles can lose a fen) |
| `WechatPaymentV2.FindRefund` | src/service/payment/wechat/WechatPaymentV2.php:127 | the first refund row with this code; none exists when it answers `None` |
| `WechatPaymentV2.Settled` | src/service/payment/wechat/WechatPaymentV2.php:129-136 | the found row gets refund status 1, the refund id, the notified status, the account or `''`, the formatted time and the encoded notice; its codes stay |
| `WechatPaymentV2.Notify` | src/service/payment/wechat/WechatPaymentV2.php:116-140 | a paid order (both codes `SUCCESS`) is acknowledged `SUCCESS` when the booking hook succeeds, `ERROR` when it refuses, and not at all (the exception) when it throws, with no refund change; a completed refund for another code gets HTTP 500, an unknown one `ERROR`, both with no change; a found one is settled and `syncRefund` is called with its record code, and the reply is `SUCCESS` unless `syncRefund` throws, in which case the saved row stays; everything else is acknowledged `SUCCESS` with no change |
| `WechatPaymentV2.RefundRequestFor` | src/service/payment/wechat/WechatPaymentV2.php:158-165 | the refund fee is `Fen(amount)`, the total fee `Fen(payment_amount)`, and the reason is sent only when non-empty |
| `WechatPaymentV2.Refund` | src/service/payment/wechat/WechatPaymentV2.php:151-175 | a non-positive amount answers "no refund needed" with no record and no request; otherwise the refund is recorded, and the request is sent exactly when recording succeeded; an exception of `syncRefund` or of the SDK is the result's error; a sent request is accepted exactly when `return_code ?? result_code` is `SUCCESS` or `PROCESSING`, and refused with `err_code_des ?? result_code` |
| `WechatPaymentV2.RefundWithinPayment` | src/service/payment/wechat/WechatPaymentV2.php:161-162 | a refund of at most the paid amount requests at most the paid fee |
| `WechatPaymentV2.PrepayFor` | src/service/payment/wechat/WechatPaymentV2.php:61-72 | the body is the order title, the fee `Fen(payAmount)`, and an empty openid is dropped |
| `WechatPaymentV2.Create` | src/service/payment/wechat/WechatPaymentV2.php:56-88 | a failed leave-amount check fails with no request; otherwise success exactly when the reply has both codes `SUCCESS` and the payment record is written, with "创建支付成功！"; a refused reply fails with `err_code_des` or the default message |
| `WechatPaymentV2.CreateIgnoresRemark` | src/service/payment/wechat/WechatPaymentV2.php:56-61 | `payRemark` affects neither the request nor the result |
| `WechatPaymentV2.CreateFeeExact` | src/service/payment/wechat/WechatPaymentV2.php:68 | in exact arithmetic, an amount in whole fen is requested as exactly that many fen (with PHP's doubles, 0.57 yuan is requested as 56 fen) |

## Left out

- I/O: the database, the WeChat SDK, certificate files, `sysdata` and the queue progress messages. The model reads the table rows as sequences and gets the SDK replies through function parameters.
- `Trans::getConfig` and `withAppidAndOpenid` are one function from `unid` to a configuration or an exception message. The certificate writes and account-binding lookups inside them are not modelled.
- `WechatPaymentV2::query` and `init` are not modelled. They lie outside the notify, refund and create rules.
- The parent-class hooks are parameters whose results are all the model knows:
  - `updateAction`, `syncRefund` and `createAction`;
  - `checkLeaveAmount`, `withNotifyUrl` and `withUserField`.
  
  `withUserUnid` and `Payment::withPaymentCode` are reduced to the values they supply. An exception from `withUserUnid` is not modelled. Which argument order of `updateAction` is right is not resolved.
- Floating point: amounts are integer cents, and the yuan amounts of the gateway are reals. Double rounding is not modelled, so the round trips of `WechatPaymentV2.FenOfCents`, `WechatPaymentV2.UpdateOf` and `WechatPaymentV2.CreateFeeExact` hold in exact arithmetic only. In PHP, `intval(floatval("0.57") * 100)` is 56.
- `Trans.Payout`: the payout `intval(amount - charge_amount) * 100` (Trans.php:106) is computed on exact cents. PHP subtracts doubles first: 2.30 - 0.30 is 1.9999999999999998, so PHP pays 100 fen where the model pays 200.
- `IntegralService.PaymentIntegral.Recount`: the `round(..., 2)` of `usable` is the identity on the truncated whole-unit sums. It is not modelled separately.
- Missing array keys: reply fields that the code reads without `??` are always present in the model, including the wallet query's `payment_time` and the refund notice fields. PHP's warning on a missing key is not modelled.
- `WechatPaymentV2.Refund`: when both `err_code_des` and `result_code` are missing the message is `""`. PHP would raise a type error instead.
- Time: one opaque `now` per pass or call stands for every `date()` it runs. `strtotime` reformatting and JSON encoding are the function parameters `formatTime` and `encode`.
- The `extra` values are integers (cents), and other attribute kinds are not modelled.
- `Accounts.Merge`: `extra` keys are strings. PHP's `array_merge` renumbers integer-like keys such as `"5"`, so such a key of `extra` would not keep its place or value. This is not modelled.
- `WechatPaymentV2.Refund`: `syncRefund(pcode, &rcode, amount, reason)` fills the refund code through a reference argument. The model has the hook return that code inside `Recorded` and drops the reference.
- Concurrency: the race between the guard's live-sum read and the write is not modelled. Everything is sequential.
- `Trans.Settlement.Execute`: the final `balance_*` keys of the accounts are stated per job by `Trans.Settlement.Step` (and `Follow`), not for the whole pass. A later job of the same account recounts it again.
- `Trans.Settlement.Step`: it and `Handle` relay `Follow`'s facts about the job's own account and balance row. It does not relay the promise that accounts other than the job's and the row owner's are untouched.
