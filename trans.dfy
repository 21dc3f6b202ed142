/**
 * The settlement pass (`payment:trans`): every online withdrawal awaiting payout
 * is submitted to the wechat gateway, and every one awaiting confirmation is
 * queried; a confirmed payout unlocks its balance debit, a failed one cancels it.
 *
 * The gateway, the merchant configuration and the account bindings are outside
 * the model: they are the functions of a `Gateway`. A pass visits each job once,
 * so a function of the request is as general as any answer the gateway could give.
 */
module Trans {
  import opened Wrappers
  import opened Money
  import opened Accounts
  import opened Ledger
  import opened BalanceService
  import opened PaymentTransfer

  /** The part of the payout configuration the pass reads or stores. */
  datatype Config = Config(appid: string, openid: string, mchId: string)

  /** The two payout requests, with the fields the pass fills in. */
  datatype PayoutRequest =
    | ToBank(partnerTradeNo: string, encBankNo: string, encTrueName: string, bankCode: string, amount: int, desc: string)
    | ToWallet(openid: string, amount: int, partnerTradeNo: string, clientIp: string, checkName: string, desc: string)

  datatype CreateReply = CreateReply(
    returnCode: string, resultCode: string, partnerTradeNo: string,
    paymentTime: Option<string>, errCodeDes: Option<string>)

  datatype BankReply = BankReply(returnCode: string, resultCode: string, status: string, paySuccTime: Option<string>)

  datatype WalletReply = WalletReply(returnCode: string, resultCode: string, paymentTime: string)

  /**
   * `config(unid)` is `getConfig`; `Err` carries the message of the exception it
   * throws (no merchant configured, no bound openid). The other three are the SDK
   * calls, `Err` again being the exception's message.
   */
  datatype Gateway = Gateway(
    config: int -> Result<Config, string>,
    submit: (Config, PayoutRequest) -> Result<CreateReply, string>,
    queryBank: (Config, string) -> Result<BankReply, string>,
    queryWallet: (Config, string) -> Result<WalletReply, string>)

  /** The rows the pass selects: the two online channels, awaiting payout or confirmation. */
  predicate Selected(j: Job) {
    (j.kind == "wechat_banks" || j.kind == "wechat_wallet") && (j.status == 3 || j.status == 4)
  }

  /** `intval(amount - charge_amount) * 100`: the payout in cents, whole yuan only. */
  function Payout(j: Job): (c: int)
    ensures c % 100 == 0
    ensures j.amount >= j.charge ==> 0 <= c <= j.amount - j.charge < c + 100
  {
    Truncated(j.amount - j.charge)
  }

  /** What the ledger must do once the job row is saved. */
  datatype Followup = Nothing | RecountOnly | UnlockThenRecount | CancelThenRecount

  /**
   * The result of visiting one job before the ledger is touched: the row as
   * saved, the ledger follow-up, and the message of an exception, if one was
   * thrown (then the row only records the message).
   */
  datatype Plan = Plan(job: Job, followup: Followup, raised: Option<string>)

  /** The `catch` branch: the message becomes the row's change description. */
  function Raise(j: Job, now: string, msg: string): Plan {
    Plan(j.(changeTime := now, changeDesc := msg), Nothing, Some(msg))
  }

  function Request(j: Job, cfg: Config): (req: PayoutRequest)
    ensures req.amount == Payout(j) && req.partnerTradeNo == j.code
    ensures j.kind == "wechat_banks" <==> req.ToBank?
  {
    if j.kind == "wechat_banks" then
      ToBank(j.code, j.bankCode, j.bankUser, j.bankWseq, Payout(j), "微信银行卡提现")
    else
      ToWallet(cfg.openid, Payout(j), j.code, "127.0.0.1", "NO_CHECK", "微信余额提现！")
  }

  /** The row fields a visit never writes. */
  predicate SameJob(a: Job, b: Job) {
    && a.code == b.code && a.unid == b.unid && a.kind == b.kind
    && a.amount == b.amount && a.charge == b.charge
    && a.bankCode == b.bankCode && a.bankUser == b.bankUser && a.bankWseq == b.bankWseq
  }

  /** The gateway accepts the payout: configured, submitted, and both codes `SUCCESS`. */
  predicate Accepted(gw: Gateway, j: Job) {
    && gw.config(j.unid).Ok?
    && var cfg := gw.config(j.unid).value;
    && gw.submit(cfg, Request(j, cfg)).Ok?
    && var rep := gw.submit(cfg, Request(j, cfg)).value;
    && rep.returnCode == "SUCCESS" && rep.resultCode == "SUCCESS"
  }

  /**
   * A job awaiting payout (status 3): submit it; an accepted submission moves the
   * row to status 4 with the gateway's trade data, a refused one records the
   * refusal and stays at 3.
   */
  function CreateTransfer(gw: Gateway, j: Job, now: string): (p: Plan)
    ensures SameJob(j, p.job) && p.followup == Nothing
    ensures Accepted(gw, j) ==>
              && var cfg := gw.config(j.unid).value;
              && var rep := gw.submit(cfg, Request(j, cfg)).value;
              && p.job.status == 4 && p.raised.None?
              && p.job.appid == cfg.appid && p.job.openid == cfg.openid
              && p.job.tradeNo == rep.partnerTradeNo && p.job.tradeTime == rep.paymentTime.GetOr(now)
              && p.job.changeDesc == "创建微信提现成功"
              && p.job.(status := j.status, appid := j.appid, openid := j.openid, tradeNo := j.tradeNo,
                        tradeTime := j.tradeTime, changeTime := j.changeTime, changeDesc := j.changeDesc) == j
    ensures !Accepted(gw, j) ==> p.job.status == j.status
    ensures gw.config(j.unid).Ok? && gw.submit(gw.config(j.unid).value, Request(j, gw.config(j.unid).value)).Ok? && !Accepted(gw, j) ==>
              var rep := gw.submit(gw.config(j.unid).value, Request(j, gw.config(j.unid).value)).value;
              p == Plan(j.(changeTime := now, changeDesc := rep.errCodeDes.GetOr("线上提现失败")), Nothing, None)
    ensures p.raised.Some? ==> p.job == j.(changeTime := now, changeDesc := p.raised.value)
    ensures p.raised.None? ==> p.job.changeTime == now
    ensures gw.config(j.unid).Err? ==> p == Raise(j, now, gw.config(j.unid).error)
    ensures gw.config(j.unid).Ok? && gw.submit(gw.config(j.unid).value, Request(j, gw.config(j.unid).value)).Err? ==>
              p == Raise(j, now, gw.submit(gw.config(j.unid).value, Request(j, gw.config(j.unid).value)).error)
    ensures p.raised.Some? <==>
              gw.config(j.unid).Err? || gw.submit(gw.config(j.unid).value, Request(j, gw.config(j.unid).value)).Err?
  {
    match gw.config(j.unid)
    case Err(m) => Raise(j, now, m)
    case Ok(cfg) =>
      match gw.submit(cfg, Request(j, cfg))
      case Err(m) => Raise(j, now, m)
      case Ok(rep) =>
        if rep.returnCode == "SUCCESS" && rep.resultCode == "SUCCESS" then
          Plan(j.(status := 4, appid := cfg.appid, openid := cfg.openid, tradeNo := rep.partnerTradeNo,
                  tradeTime := rep.paymentTime.GetOr(now), changeTime := now, changeDesc := "创建微信提现成功"),
               Nothing, None)
        else
          Plan(j.(changeTime := now, changeDesc := rep.errCodeDes.GetOr("线上提现失败")), Nothing, None)
  }

  /** PHP's `?:` on the payment time: a missing, empty or "0" value counts as false. */
  predicate Falsy(t: Option<string>) {
    t.None? || t.value == "" || t.value == "0"
  }

  /**
   * The query configuration: the merchant part from `getConfig`, the appid and
   * openid the row recorded when it was submitted.
   */
  function QueryConfig(cfg: Config, j: Job): (q: Config)
    ensures q.appid == j.appid && q.openid == j.openid && q.mchId == cfg.mchId
  {
    cfg.(appid := j.appid, openid := j.openid)
  }

  /**
   * A bank payout awaiting confirmation (status 4): a confirmed payout settles
   * (status 5) and unlocks the debit, a failed one fails the job (status 0) and
   * cancels it; any other answered state only recounts the account.
   */
  function QueryTransferBank(gw: Gateway, j: Job, now: string): (p: Plan)
    ensures SameJob(j, p.job)
    ensures p.job.appid == j.appid && p.job.openid == j.openid && p.job.tradeNo == j.tradeNo
    ensures p.job.status in {j.status, 5, 0}
    ensures p.followup == UnlockThenRecount ==> p.job.status == 5
    ensures p.followup == CancelThenRecount ==> p.job.status == 0
    ensures p.job.status != j.status ==> p.followup in {UnlockThenRecount, CancelThenRecount}
    ensures p.followup != Nothing ==>
              && gw.config(j.unid).Ok?
              && var q := gw.queryBank(QueryConfig(gw.config(j.unid).value, j), j.tradeNo);
              && q.Ok? && q.value.returnCode == "SUCCESS" && q.value.resultCode == "SUCCESS"
              && (p.followup == UnlockThenRecount <==> q.value.status == "SUCCESS")
              && (p.followup == CancelThenRecount <==> q.value.status in {"FAILED", "BANK_FAIL"})
    ensures p.raised.Some? ==> p.followup == Nothing && p.job == j.(changeTime := now, changeDesc := p.raised.value)
    ensures p.raised.None? && p.followup in {Nothing, RecountOnly} ==> p.job == j
    ensures gw.config(j.unid).Err? ==> p == Raise(j, now, gw.config(j.unid).error)
    ensures gw.config(j.unid).Ok? && gw.queryBank(QueryConfig(gw.config(j.unid).value, j), j.tradeNo).Err? ==>
              p == Raise(j, now, gw.queryBank(QueryConfig(gw.config(j.unid).value, j), j.tradeNo).error)
    ensures p.followup != Nothing <==>
              && gw.config(j.unid).Ok?
              && var q := gw.queryBank(QueryConfig(gw.config(j.unid).value, j), j.tradeNo);
              && q.Ok? && q.value.returnCode == "SUCCESS" && q.value.resultCode == "SUCCESS"
    ensures gw.config(j.unid).Ok? && gw.queryBank(QueryConfig(gw.config(j.unid).value, j), j.tradeNo).Ok? ==>
              && var q := gw.queryBank(QueryConfig(gw.config(j.unid).value, j), j.tradeNo).value;
              && p.raised.None?
              && (q.returnCode == "SUCCESS" && q.resultCode == "SUCCESS" && q.status == "SUCCESS" ==>
                    p.job == j.(status := 5, tradeTime := (if Falsy(q.paySuccTime) then now else q.paySuccTime.value),
                                changeTime := now, changeDesc := "微信提现打款成功"))
              && (q.returnCode == "SUCCESS" && q.resultCode == "SUCCESS" && q.status in {"FAILED", "BANK_FAIL"} ==>
                    p.job == j.(status := 0, changeTime := now, changeDesc := "微信提现打款失败"))
  {
    match gw.config(j.unid)
    case Err(m) => Raise(j, now, m)
    case Ok(cfg) =>
      var qc := QueryConfig(cfg, j);
      match gw.queryBank(qc, j.tradeNo)
      case Err(m) => Raise(j, now, m)
      case Ok(q) =>
        if q.returnCode == "SUCCESS" && q.resultCode == "SUCCESS" then
          if q.status == "SUCCESS" then
            Plan(j.(status := 5, appid := qc.appid, openid := qc.openid,
                    tradeTime := if Falsy(q.paySuccTime) then now else q.paySuccTime.value,
                    changeTime := now, changeDesc := "微信提现打款成功"),
                 UnlockThenRecount, None)
          else if q.status in {"FAILED", "BANK_FAIL"} then
            Plan(j.(status := 0, changeTime := now, changeDesc := "微信提现打款失败"), CancelThenRecount, None)
          else
            Plan(j, RecountOnly, None)
        else
          Plan(j, Nothing, None)
  }

  /** A wallet payout awaiting confirmation: an answered query settles it and unlocks the debit. */
  function QueryTransferWallet(gw: Gateway, j: Job, now: string): (p: Plan)
    ensures SameJob(j, p.job)
    ensures p.job.appid == j.appid && p.job.openid == j.openid && p.job.tradeNo == j.tradeNo
    ensures p.followup in {Nothing, UnlockThenRecount}
    ensures p.job.status in {j.status, 5}
    ensures p.followup == UnlockThenRecount ==> p.job.status == 5
    ensures p.job.status != j.status ==> p.followup == UnlockThenRecount
    ensures p.followup == UnlockThenRecount <==>
              && gw.config(j.unid).Ok?
              && var q := gw.queryWallet(QueryConfig(gw.config(j.unid).value, j), j.tradeNo);
              && q.Ok? && q.value.returnCode == "SUCCESS" && q.value.resultCode == "SUCCESS"
    ensures p.raised.Some? ==> p.followup == Nothing && p.job == j.(changeTime := now, changeDesc := p.raised.value)
    ensures p.raised.None? && p.followup == Nothing ==> p.job == j
    ensures gw.config(j.unid).Err? ==> p == Raise(j, now, gw.config(j.unid).error)
    ensures gw.config(j.unid).Ok? && gw.queryWallet(QueryConfig(gw.config(j.unid).value, j), j.tradeNo).Err? ==>
              p == Raise(j, now, gw.queryWallet(QueryConfig(gw.config(j.unid).value, j), j.tradeNo).error)
    ensures p.raised.Some? <==>
              gw.config(j.unid).Err? || gw.queryWallet(QueryConfig(gw.config(j.unid).value, j), j.tradeNo).Err?
    ensures p.followup == UnlockThenRecount ==>
              var q := gw.queryWallet(QueryConfig(gw.config(j.unid).value, j), j.tradeNo).value;
              p.job == j.(status := 5, tradeTime := q.paymentTime, changeTime := now, changeDesc := "微信提现打款成功！")
  {
    match gw.config(j.unid)
    case Err(m) => Raise(j, now, m)
    case Ok(cfg) =>
      var qc := QueryConfig(cfg, j);
      match gw.queryWallet(qc, j.tradeNo)
      case Err(m) => Raise(j, now, m)
      case Ok(q) =>
        if q.returnCode == "SUCCESS" && q.resultCode == "SUCCESS" then
          Plan(j.(status := 5, appid := qc.appid, openid := qc.openid, tradeTime := q.paymentTime,
                  changeTime := now, changeDesc := "微信提现打款成功！"),
               UnlockThenRecount, None)
        else
          Plan(j, Nothing, None)
  }

  /** The status moves a visit may make: 3 to 4, and 4 to 5 or 0. */
  predicate Advances(before: int, after: int) {
    if before == 3 then after in {3, 4}
    else if before == 4 then after in {4, 5, 0}
    else after == before
  }

  /** The body of the loop, up to the ledger follow-up. */
  function Visit(gw: Gateway, j: Job, now: string): (p: Plan)
    ensures SameJob(j, p.job) && Advances(j.status, p.job.status)
    ensures p.raised.Some? ==> p.followup == Nothing && p.job == j.(changeTime := now, changeDesc := p.raised.value)
    ensures p.followup == UnlockThenRecount <==> j.status == 4 && p.job.status == 5
    ensures p.followup == CancelThenRecount <==> j.status == 4 && p.job.status == 0
    ensures j.status != 3 && j.status != 4 ==> p == Plan(j, Nothing, None)
  {
    if j.status == 3 then CreateTransfer(gw, j, now)
    else if j.status == 4 then
      if j.kind == "wechat_banks" then QueryTransferBank(gw, j, now) else QueryTransferWallet(gw, j, now)
    else Plan(j, Nothing, None)
  }

  /** A job that settles or fails in a pass is not selected by a later pass. */
  lemma FinishedNotRevisited(gw: Gateway, j: Job, now: string)
    requires Selected(j)
    ensures Visit(gw, j, now).followup in {UnlockThenRecount, CancelThenRecount} ==> !Selected(Visit(gw, j, now).job)
    ensures Selected(Visit(gw, j, now).job) <==> Visit(gw, j, now).job.status in {3, 4}
  {
  }

  /** A job awaiting confirmation is never submitted again, whatever `submit` would answer. */
  lemma ConfirmationNeverResubmits(gw: Gateway, other: (Config, PayoutRequest) -> Result<CreateReply, string>, j: Job, now: string)
    requires j.status == 4
    ensures Visit(gw.(submit := other), j, now) == Visit(gw, j, now)
  {
  }

  /** The number of rows the pass selects: its `total`. */
  function CountSelected(jobs: seq<Job>): (n: nat)
    ensures n <= |jobs|
  {
    if jobs == [] then 0
    else CountSelected(jobs[..|jobs| - 1]) + (if Selected(jobs[|jobs| - 1]) then 1 else 0)
  }

  /** The selected rows whose visit threw before the ledger was touched. */
  function RaisedCount(gw: Gateway, jobs: seq<Job>, now: string): (n: nat)
    ensures n <= CountSelected(jobs)
  {
    if jobs == [] then 0
    else
      var last := jobs[|jobs| - 1];
      RaisedCount(gw, jobs[..|jobs| - 1], now) + (if Selected(last) && Visit(gw, last, now).raised.Some? then 1 else 0)
  }

  /** A visit that unlocks or cancels the job's balance debit. */
  predicate Releases(gw: Gateway, j: Job, now: string) {
    Selected(j) && Visit(gw, j, now).followup in {UnlockThenRecount, CancelThenRecount}
  }

  /** The codes whose balance debit the pass unlocks or cancels. */
  function Released(gw: Gateway, jobs: seq<Job>, now: string): set<string> {
    if jobs == [] then {}
    else
      var last := jobs[|jobs| - 1];
      Released(gw, jobs[..|jobs| - 1], now) + (if Releases(gw, last, now) then {last.code} else {})
  }

  /** The raised count of a prefix grows by the next row. */
  lemma PrefixStep(gw: Gateway, jobs: seq<Job>, i: nat, now: string)
    requires i < |jobs|
    ensures RaisedCount(gw, jobs[..i + 1], now) ==
              RaisedCount(gw, jobs[..i], now) + (if Selected(jobs[i]) && Visit(gw, jobs[i], now).raised.Some? then 1 else 0)
  {
    assert jobs[..i + 1][..i] == jobs[..i];
  }

  /** The messages a ledger follow-up can fail with. */
  const FollowMessages: set<string> := {Message(InvalidCode), Message(AccountNotFound)}

  /**
   * The exception `unlock(code)` or `cancel(code)` then `recount(unid)` raises, from
   * the table `es` and the account ids `keys` before it: an unknown code, then a
   * missing account of the row's owner, then a missing account of the job's user.
   */
  function ReleaseFailure(j: Job, es: seq<Entry>, keys: set<int>): (r: Option<string>)
    ensures r.None? <==> exists i :: FindCode(Rows(es), j.code) == Some(i) && es[i].unid in keys && j.unid in keys
    ensures FindCode(Rows(es), j.code).None? ==> r == Some(Message(InvalidCode))
    ensures FindCode(Rows(es), j.code).Some? && r.Some? ==> r == Some(Message(AccountNotFound))
  {
    match FindCode(Rows(es), j.code)
    case None => Some(Message(InvalidCode))
    case Some(i) => if es[i].unid in keys && j.unid in keys then None else Some(Message(AccountNotFound))
  }

  /** The exception a follow-up raises, or `None`; a recount alone fails only on a missing account. */
  function FollowFailure(f: Followup, j: Job, es: seq<Entry>, keys: set<int>): (r: Option<string>)
    ensures r.Some? ==> r.value in FollowMessages
    ensures f == Nothing ==> r == None
    ensures f == RecountOnly ==> (r.None? <==> j.unid in keys)
  {
    match f
    case Nothing => None
    case RecountOnly => if j.unid in keys then None else Some(Message(AccountNotFound))
    case _ => ReleaseFailure(j, es, keys)
  }

  /** The ledger follow-up of selected job `j` throws. */
  ghost predicate Failing(gw: Gateway, now: string, j: Job, es: seq<Entry>, keys: set<int>) {
    var p := Visit(gw, j, now);
    Selected(j) && p.raised.None? && FollowFailure(p.followup, j, es, keys).Some?
  }

  /**
   * Row `after` of job `before` was marked `failed` exactly when its follow-up throws
   * on table `es` and accounts `keys`, and then holds that exception's message.
   */
  ghost predicate FailedAs(gw: Gateway, now: string, before: Job, es: seq<Entry>, keys: set<int>, after: Job, failed: bool) {
    && (failed <==> Failing(gw, now, before, es, keys))
    && (failed ==> Some(after.changeDesc) == FollowFailure(Visit(gw, before, now).followup, before, es, keys))
  }

  /** The number of jobs whose follow-up throws, every one on table `es` and accounts `keys`. */
  ghost function FailCount(gw: Gateway, jobs: seq<Job>, now: string, es: seq<Entry>, keys: set<int>): (n: nat)
    ensures n <= |jobs|
  {
    if jobs == [] then 0
    else
      var last := jobs[|jobs| - 1];
      FailCount(gw, jobs[..|jobs| - 1], now, es, keys) + (if Failing(gw, now, last, es, keys) then 1 else 0)
  }

  lemma FailPrefixStep(gw: Gateway, jobs: seq<Job>, i: nat, now: string, es: seq<Entry>, keys: set<int>)
    requires i < |jobs|
    ensures FailCount(gw, jobs[..i + 1], now, es, keys) ==
              FailCount(gw, jobs[..i], now, es, keys) + (if Failing(gw, now, jobs[i], es, keys) then 1 else 0)
  {
    assert jobs[..i + 1][..i] == jobs[..i];
  }

  /**
   * Whether a follow-up throws depends only on codes, delete flags and owners, and on
   * which accounts exist, so a pass's earlier jobs never change it.
   */
  lemma FollowFailureStable(f: Followup, j: Job, a: seq<Entry>, b: seq<Entry>, keys: set<int>)
    requires FlagsKept(a, b) && SameAmounts(a, b)
    ensures FollowFailure(f, j, a, keys) == FollowFailure(f, j, b, keys)
  {
    FlagsKeptFinds(a, b, j.code);
  }

  /** The failure invariant of `execute`: rows before `i` failed exactly as `FailedAs` says on the starting ledger. */
  ghost predicate FailuresExact(gw: Gateway, now: string, orig: seq<Job>, cur: seq<Job>, start: seq<Entry>, keys: set<int>,
                                i: nat, failed: set<nat>) {
    && i <= |orig| && i <= |cur|
    && (forall k :: 0 <= k < i ==> FailedAs(gw, now, orig[k], start, keys, cur[k], k in failed))
    && |failed| == FailCount(gw, orig[..i], now, start, keys)
  }

  lemma FailuresStep(gw: Gateway, now: string, orig: seq<Job>, cur: seq<Job>, next: seq<Job>, start: seq<Entry>,
                     a: seq<Entry>, keys: set<int>, i: nat, failed: set<nat>, stepFailed: bool)
    requires FailuresExact(gw, now, orig, cur, start, keys, i, failed) && i < |orig| && i < |cur|
    requires forall k :: k in failed ==> k < i
    requires |next| == |cur| && next == cur[i := next[i]]
    requires FlagsKept(start, a) && SameAmounts(start, a)
    requires FailedAs(gw, now, orig[i], a, keys, next[i], stepFailed)
    ensures FailuresExact(gw, now, orig, next, start, keys, i + 1, if stepFailed then failed + {i} else failed)
  {
    FollowFailureStable(Visit(gw, orig[i], now).followup, orig[i], start, a, keys);
    FailPrefixStep(gw, orig, i, now, start, keys);
    var failed' := if stepFailed then failed + {i} else failed;
    assert i !in failed;
    forall k | 0 <= k < i + 1 ensures FailedAs(gw, now, orig[k], start, keys, next[k], k in failed') {
      if k < i {
        assert next[k] == cur[k] && (k in failed' <==> k in failed);
      }
    }
  }

  /**
   * What the pass leaves in a row: an unselected row as it was; a selected one as
   * its visit saved it, or, when the ledger follow-up threw (`failed`), with the
   * exception's message written over the change time and description.
   */
  predicate Outcome(gw: Gateway, now: string, before: Job, after: Job, failed: bool) {
    var p := Visit(gw, before, now);
    if !Selected(before) then after == before && !failed
    else if failed then
      && p.raised.None? && p.followup != Nothing
      && after == p.job.(changeTime := now, changeDesc := after.changeDesc)
      && after.changeDesc in FollowMessages
    else after == p.job
  }

  /** From `a` to `b` the ledger keeps every row's owner, code and amount, and changes only rows of `codes`. */
  ghost predicate LedgerKept(a: seq<Entry>, b: seq<Entry>, codes: set<string>) {
    SameAmounts(a, b) && forall k :: 0 <= k < |b| ==> b[k] == a[k] || b[k].code in codes
  }

  lemma LedgerKeptWithin(a: seq<Entry>, b: seq<Entry>, c: seq<Entry>, codes: set<string>, step: set<string>)
    requires LedgerKept(a, b, codes) && LedgerKept(b, c, step) && step <= codes
    ensures LedgerKept(a, c, codes)
  {
    forall k | 0 <= k < |c| ensures c[k] == a[k] || c[k].code in codes {
      if c[k] != b[k] {
        assert c[k].code in step;
      }
    }
  }

  /** A row whose visit releases its debit has its code among the released codes. */
  lemma {:induction false} ReleasedContains(gw: Gateway, jobs: seq<Job>, i: nat, now: string)
    requires i < |jobs| && Releases(gw, jobs[i], now)
    ensures jobs[i].code in Released(gw, jobs, now)
  {
    var n := |jobs| - 1;
    if i < n {
      assert jobs[..n][i] == jobs[i];
      ReleasedContains(gw, jobs[..n], i, now);
    }
  }

  /** The balance patch of a follow-up: `unlock(code)` or `cancel(code)`, both with flag 1. */
  function PatchOf(f: Followup, now: string): (p: Patch)
    ensures f == UnlockThenRecount ==> p == UnlockAs(1, now)
    ensures f != UnlockThenRecount ==> p == CancelAs(1, now)
  {
    if f == UnlockThenRecount then UnlockAs(1, now) else CancelAs(1, now)
  }

  /** From `a` to `b` no row changes its code or delete flag, and no unlock or cancel flag set to 1 is cleared. */
  ghost predicate FlagsKept(a: seq<Entry>, b: seq<Entry>) {
    && |a| == |b|
    && forall k :: 0 <= k < |a| ==>
         && a[k].code == b[k].code && a[k].deleted == b[k].deleted
         && (a[k].unlock == 1 ==> b[k].unlock == 1) && (a[k].cancel == 1 ==> b[k].cancel == 1)
  }

  lemma FlagsKeptFinds(a: seq<Entry>, b: seq<Entry>, code: string)
    requires FlagsKept(a, b)
    ensures FindCode(Rows(a), code) == FindCode(Rows(b), code)
  {
    FindCodeStable(Rows(a), Rows(b), code);
  }

  /** An unlock or cancel with flag 1 keeps the flags of every row. */
  lemma PatchKeepsFlags(es: seq<Entry>, i: nat, f: Followup, now: string)
    requires i < |es|
    ensures FlagsKept(es, es[i := Apply(es[i], PatchOf(f, now))])
  {
  }

  lemma FlagsKeptTrans(a: seq<Entry>, b: seq<Entry>, c: seq<Entry>)
    requires FlagsKept(a, b) && FlagsKept(b, c)
    ensures FlagsKept(a, c)
  {
  }

  /**
   * The balance debit of `j` is released in `es`: the row `get(code)` finds is
   * unlocked when the visit settled the job, cancelled when it failed it.
   */
  ghost predicate ReleasedIn(gw: Gateway, now: string, j: Job, es: seq<Entry>) {
    match FindCode(Rows(es), j.code)
    case None => false
    case Some(k) =>
      if Visit(gw, j, now).followup == UnlockThenRecount then es[k].unlock == 1 else es[k].cancel == 1
  }

  lemma ReleasedInKept(gw: Gateway, now: string, j: Job, a: seq<Entry>, b: seq<Entry>)
    requires FlagsKept(a, b) && ReleasedIn(gw, now, j, a)
    ensures ReleasedIn(gw, now, j, b)
  {
    FlagsKeptFinds(a, b, j.code);
  }

  /** The ledger invariant of `execute`: every released job before `i` whose follow-up did not throw has its debit released. */
  ghost predicate FundsReleased(gw: Gateway, now: string, orig: seq<Job>, es: seq<Entry>, i: nat, failed: set<nat>) {
    forall k :: 0 <= k < i && k < |orig| && k !in failed && Releases(gw, orig[k], now) ==> ReleasedIn(gw, now, orig[k], es)
  }

  lemma FundsStep(gw: Gateway, now: string, orig: seq<Job>, a: seq<Entry>, b: seq<Entry>, i: nat,
                  failed: set<nat>, stepFailed: bool)
    requires i < |orig| && (forall k :: k in failed ==> k < i)
    requires FundsReleased(gw, now, orig, a, i, failed) && FlagsKept(a, b)
    requires Releases(gw, orig[i], now) && !stepFailed ==> ReleasedIn(gw, now, orig[i], b)
    ensures FundsReleased(gw, now, orig, b, i + 1, if stepFailed then failed + {i} else failed)
  {
    forall k | 0 <= k < i && k !in failed && Releases(gw, orig[k], now)
      ensures ReleasedIn(gw, now, orig[k], b)
    {
      ReleasedInKept(gw, now, orig[k], a, b);
    }
  }

  /**
   * What one row's visit does to the ledger, from table `a` and accounts `ea` to
   * `b` and `eb`: without a follow-up nothing; a settled or failed job patches
   * the row `get(code)` finds; a follow-up that did not throw leaves the job's
   * account holding the `balance_*` keys of the new tally.
   */
  ghost predicate StepLedger(gw: Gateway, now: string, j: Job, a: seq<Entry>, b: seq<Entry>,
                             ea: map<int, Extra>, eb: map<int, Extra>, failed: bool) {
    var p := Visit(gw, j, now);
    && (!(Selected(j) && p.raised.None? && p.followup != Nothing) ==> !failed && b == a && eb == ea)
    && (Releases(gw, j, now) && FindCode(Rows(a), j.code).Some? ==>
          var k := FindCode(Rows(a), j.code).value;
          b == a[k := Apply(a[k], PatchOf(p.followup, now))])
    && (Selected(j) && p.raised.None? && p.followup != Nothing && !failed ==>
          j.unid in ea && j.unid in eb && eb[j.unid] == Merge(ea[j.unid], Keys(Tally(Rows(b), Owner(j.unid)))))
  }

  /**
   * The outcome of `unlock`/`cancel` then `recount` for job `j`, with the table
   * going from `a` to `b` and the accounts from `xa` to `xb`.
   */
  ghost predicate Settled(j: Job, p: Patch, a: seq<Entry>, b: seq<Entry>,
                          xa: map<int, Extra>, xb: map<int, Extra>, failure: Option<string>) {
    && xb.Keys == xa.Keys
    && failure == ReleaseFailure(j, a, xa.Keys)
    && (failure.Some? ==> failure.value in FollowMessages)
    && (FindCode(Rows(a), j.code).None? ==> failure == Some(Message(InvalidCode)) && b == a && xb == xa)
    && (FindCode(Rows(a), j.code).Some? ==>
          var i := FindCode(Rows(a), j.code).value;
          var owner := a[i].unid;
          && b == a[i := Apply(a[i], p)]
          && SameAmounts(a, b)
          && (failure.None? ==> owner in xa && xb[owner] == Merge(xa[owner], Keys(Tally(Rows(b), Owner(owner)))))
          && forall u :: u in xa && u != owner && u != j.unid ==> xb[u] == xa[u])
    && (failure.None? ==> j.unid in xa && xb[j.unid] == Merge(xa[j.unid], Keys(Tally(Rows(b), Owner(j.unid)))))
  }

  /** `Settled` from the outcome of the patch (`xa` to `xm`) and of the recount (`xm` to `xb`). */
  lemma SettledFrom(j: Job, p: Patch, a: seq<Entry>, b: seq<Entry>, xa: map<int, Extra>, xm: map<int, Extra>,
                    xb: map<int, Extra>, r: Result<Entry, Error>, recounted: Result<Totals, Error>, failure: Option<string>)
    requires PatchDone(j.code, p, a, b, xa, xm, r)
    requires r.Err? ==> recounted == Err(r.error) && xb == xm
    requires r.Ok? ==> if j.unid in xm
                       then recounted == Ok(Tally(Rows(b), Owner(j.unid)))
                            && xb == xm[j.unid := Merge(xm[j.unid], Keys(recounted.value))]
                       else recounted == Err(AccountNotFound) && xb == xm
    requires failure == if recounted.Err? then Some(Message(recounted.error)) else None
    ensures Settled(j, p, a, b, xa, xb, failure)
  {
    if r.Ok? && recounted.Ok? {
      var i := FindCode(Rows(a), j.code).value;
      var tally := Tally(Rows(b), Owner(j.unid));
      if a[i].unid == j.unid {
        MergeRecountTwice(xa[j.unid], tally, tally);
      }
    }
  }

  /** The loop invariant of `execute` on the ledger, from its table `start` at the beginning of the pass. */
  ghost predicate LedgerProgress(gw: Gateway, now: string, orig: seq<Job>, start: seq<Entry>, es: seq<Entry>, i: nat, failed: set<nat>) {
    && LedgerKept(start, es, Released(gw, orig, now))
    && FlagsKept(start, es)
    && FundsReleased(gw, now, orig, es, i, failed)
  }

  lemma LedgerProgressStep(gw: Gateway, now: string, orig: seq<Job>, start: seq<Entry>, a: seq<Entry>, b: seq<Entry>,
                           i: nat, failed: set<nat>, stepFailed: bool)
    requires i < |orig| && (forall k :: k in failed ==> k < i)
    requires LedgerProgress(gw, now, orig, start, a, i, failed)
    requires LedgerKept(a, b, if Releases(gw, orig[i], now) then {orig[i].code} else {}) && FlagsKept(a, b)
    requires Releases(gw, orig[i], now) && !stepFailed ==> ReleasedIn(gw, now, orig[i], b)
    ensures LedgerProgress(gw, now, orig, start, b, i + 1, if stepFailed then failed + {i} else failed)
  {
    if Releases(gw, orig[i], now) {
      ReleasedContains(gw, orig, i, now);
    }
    LedgerKeptWithin(start, a, b, Released(gw, orig, now), if Releases(gw, orig[i], now) then {orig[i].code} else {});
    FlagsKeptTrans(start, a, b);
    FundsStep(gw, now, orig, a, b, i, failed, stepFailed);
  }

  /** The loop invariant of `execute` on the job rows, after the first `i` rows. */
  ghost predicate Progress(gw: Gateway, now: string, orig: seq<Job>, cur: seq<Job>, i: nat, error: nat, failed: set<nat>) {
    && i <= |orig| == |cur|
    && cur[i..] == orig[i..]
    && (forall k :: 0 <= k < i ==> Outcome(gw, now, orig[k], cur[k], k in failed))
    && (forall k :: k in failed ==> k < i)
    && error == RaisedCount(gw, orig[..i], now) + |failed|
  }

  lemma ProgressStep(gw: Gateway, now: string, orig: seq<Job>, cur: seq<Job>, next: seq<Job>, i: nat,
                     error: nat, failed: set<nat>, raised: bool, stepFailed: bool)
    requires Progress(gw, now, orig, cur, i, error, failed) && i < |orig|
    requires |next| == |cur| && next == cur[i := next[i]] && Outcome(gw, now, orig[i], next[i], stepFailed)
    requires raised <==> Selected(orig[i]) && Visit(gw, orig[i], now).raised.Some?
    requires !(raised && stepFailed)
    ensures Progress(gw, now, orig, next, i + 1, error + (if raised || stepFailed then 1 else 0),
                     if stepFailed then failed + {i} else failed)
  {
    PrefixStep(gw, orig, i, now);
    var failed' := if stepFailed then failed + {i} else failed;
    assert i !in failed;
    forall k | 0 <= k < i + 1 ensures Outcome(gw, now, orig[k], next[k], k in failed') {
      if k < i {
        assert next[k] == cur[k] && (k in failed' <==> k in failed);
      }
    }
    assert next[i + 1..] == cur[i + 1..];
  }

  class Settlement {
    var jobs: seq<Job>
    const ledger: PaymentBalance

    constructor (ledger: PaymentBalance, jobs: seq<Job>)
      ensures this.ledger == ledger && this.jobs == jobs
    {
      this.ledger := ledger;
      this.jobs := jobs;
    }

    /**
     * The ledger calls after the row is saved: `unlock(code)` or `cancel(code)`,
     * then `recount(unid)`; the first exception stops the rest.
     */
    method Follow(f: Followup, j: Job, now: string) returns (failure: Option<string>)
      modifies ledger, ledger.users
      ensures SameAmounts(old(ledger.entries), ledger.entries)
      ensures ledger.users.extra.Keys == old(ledger.users.extra).Keys
      ensures forall k :: 0 <= k < |ledger.entries| ==>
                ledger.entries[k] == old(ledger.entries)[k] || (f in {UnlockThenRecount, CancelThenRecount} && ledger.entries[k].code == j.code)
      ensures failure == FollowFailure(f, j, old(ledger.entries), old(ledger.users.extra).Keys)
      ensures failure.Some? ==> failure.value in FollowMessages
      ensures f == Nothing ==> failure == None && ledger.entries == old(ledger.entries) && ledger.users.extra == old(ledger.users.extra)
      ensures f == RecountOnly ==> ledger.entries == old(ledger.entries) && (failure.None? <==> j.unid in old(ledger.users.extra))
      ensures f in {UnlockThenRecount, CancelThenRecount} && FindCode(Rows(old(ledger.entries)), j.code).None? ==>
                failure == Some(Message(InvalidCode)) && ledger.entries == old(ledger.entries)
      ensures f in {UnlockThenRecount, CancelThenRecount} && FindCode(Rows(old(ledger.entries)), j.code).Some? ==>
                var i := FindCode(Rows(old(ledger.entries)), j.code).value;
                var owner := old(ledger.entries)[i].unid;
                && ledger.entries == old(ledger.entries)[i := Apply(old(ledger.entries)[i], PatchOf(f, now))]
                && (failure.None? ==>
                      && owner in old(ledger.users.extra)
                      && ledger.users.extra[owner] == Merge(old(ledger.users.extra)[owner], Keys(Tally(Rows(ledger.entries), Owner(owner)))))
                && forall u :: u in old(ledger.users.extra) && u != owner && u != j.unid ==> ledger.users.extra[u] == old(ledger.users.extra)[u]
      ensures f == RecountOnly ==> forall u :: u in old(ledger.users.extra) && u != j.unid ==> ledger.users.extra[u] == old(ledger.users.extra)[u]
      ensures f != Nothing && failure.None? ==>
                && j.unid in old(ledger.users.extra)
                && ledger.users.extra[j.unid] == Merge(old(ledger.users.extra)[j.unid], Keys(Tally(Rows(ledger.entries), Owner(j.unid))))
      ensures FlagsKept(old(ledger.entries), ledger.entries)
    {
      failure := None;
      if f == Nothing {
        return;
      }
      if f == RecountOnly {
        var recounted, _ := ledger.Recount(j.unid, None);
        if recounted.Err? {
          failure := Some(Message(recounted.error));
        }
      } else {
        failure := Settle(f, j, now);
      }
    }

    /** A settled or failed job: `unlock(code)` or `cancel(code)`, then `recount(unid)`. */
    method Settle(f: Followup, j: Job, now: string) returns (failure: Option<string>)
      requires f in {UnlockThenRecount, CancelThenRecount}
      modifies ledger, ledger.users
      ensures FlagsKept(old(ledger.entries), ledger.entries)
      ensures Settled(j, PatchOf(f, now), old(ledger.entries), ledger.entries, old(ledger.users.extra), ledger.users.extra, failure)
    {
      ghost var before := ledger.users.extra;
      var r := Release(f, j.code, now);
      assert PatchDone(j.code, PatchOf(f, now), old(ledger.entries), ledger.entries, before, ledger.users.extra, r);
      if r.Err? {
        failure := Some(Message(r.error));
        SettledFrom(j, PatchOf(f, now), old(ledger.entries), ledger.entries, before, ledger.users.extra,
                    ledger.users.extra, r, Err(r.error), failure);
        return;
      }
      ghost var released := ledger.users.extra;
      var recounted, _ := ledger.Recount(j.unid, None);
      failure := if recounted.Err? then Some(Message(recounted.error)) else None;
      SettledFrom(j, PatchOf(f, now), old(ledger.entries), ledger.entries, before, released,
                  ledger.users.extra, r, recounted, failure);
    }

    /** `unlock(code)` or `cancel(code)`, with flag 1. */
    method Release(f: Followup, code: string, now: string) returns (r: Result<Entry, Error>)
      requires f in {UnlockThenRecount, CancelThenRecount}
      modifies ledger, ledger.users
      ensures SetDone(ledger, code, PatchOf(f, now), r)
      ensures FlagsKept(old(ledger.entries), ledger.entries)
    {
      if f == UnlockThenRecount {
        r := ledger.Unlock(code, 1, now);
      } else {
        r := ledger.Cancel(code, 1, now);
      }
      if FindCode(Rows(old(ledger.entries)), code).Some? {
        PatchKeepsFlags(old(ledger.entries), FindCode(Rows(old(ledger.entries)), code).value, f, now);
      }
    }

    /** One iteration of the loop, on row `i`. */
    method Step(gw: Gateway, now: string, i: nat) returns (raised: bool, failed: bool)
      requires i < |jobs|
      modifies this, ledger, ledger.users
      ensures |jobs| == |old(jobs)| && jobs == old(jobs)[i := jobs[i]]
      ensures Outcome(gw, now, old(jobs)[i], jobs[i], failed)
      ensures FailedAs(gw, now, old(jobs)[i], old(ledger.entries), old(ledger.users.extra).Keys, jobs[i], failed)
      ensures raised <==> Selected(old(jobs)[i]) && Visit(gw, old(jobs)[i], now).raised.Some?
      ensures !(raised && failed)
      ensures LedgerKept(old(ledger.entries), ledger.entries, if Releases(gw, old(jobs)[i], now) then {old(jobs)[i].code} else {})
      ensures ledger.users.extra.Keys == old(ledger.users.extra).Keys
      ensures FlagsKept(old(ledger.entries), ledger.entries)
      ensures StepLedger(gw, now, old(jobs)[i], old(ledger.entries), ledger.entries, old(ledger.users.extra), ledger.users.extra, failed)
      ensures Releases(gw, old(jobs)[i], now) && !failed ==> ReleasedIn(gw, now, old(jobs)[i], ledger.entries)
    {
      raised, failed := false, false;
      var j := jobs[i];
      if Selected(j) {
        var saved;
        saved, raised, failed := Handle(gw, now, j);
        jobs := jobs[i := saved];
      }
    }

    /** The body of the loop for a selected row `j`: the gateway, then the ledger follow-up. */
    method Handle(gw: Gateway, now: string, j: Job) returns (saved: Job, raised: bool, failed: bool)
      requires Selected(j)
      modifies ledger, ledger.users
      ensures Outcome(gw, now, j, saved, failed)
      ensures FailedAs(gw, now, j, old(ledger.entries), old(ledger.users.extra).Keys, saved, failed)
      ensures raised <==> Visit(gw, j, now).raised.Some?
      ensures !(raised && failed)
      ensures LedgerKept(old(ledger.entries), ledger.entries, if Releases(gw, j, now) then {j.code} else {})
      ensures ledger.users.extra.Keys == old(ledger.users.extra).Keys
      ensures FlagsKept(old(ledger.entries), ledger.entries)
      ensures StepLedger(gw, now, j, old(ledger.entries), ledger.entries, old(ledger.users.extra), ledger.users.extra, failed)
      ensures Releases(gw, j, now) && !failed ==> ReleasedIn(gw, now, j, ledger.entries)
    {
      raised, failed := false, false;
      var p := Visit(gw, j, now);
      saved := p.job;
      if p.raised.Some? {
        raised := true;
      } else if p.followup != Nothing {
        var failure := Follow(p.followup, j, now);
        FlagsKeptFinds(old(ledger.entries), ledger.entries, j.code);
        if failure.Some? {
          saved := saved.(changeTime := now, changeDesc := failure.value);
          failed := true;
        }
      }
    }

    /** One turn of the loop of `execute`: `Step` on row `i`, then the error count. */
    method Turn(gw: Gateway, now: string, ghost orig: seq<Job>, ghost start: seq<Entry>, ghost keys: set<int>,
                i: nat, error: nat, ghost failed: set<nat>)
      returns (errorAfter: nat, ghost failedAfter: set<nat>)
      requires i < |jobs|
      requires Progress(gw, now, orig, jobs, i, error, failed)
      requires LedgerProgress(gw, now, orig, start, ledger.entries, i, failed)
      requires FailuresExact(gw, now, orig, jobs, start, keys, i, failed)
      requires ledger.users.extra.Keys == keys
      modifies this, ledger, ledger.users
      ensures Progress(gw, now, orig, jobs, i + 1, errorAfter, failedAfter)
      ensures LedgerProgress(gw, now, orig, start, ledger.entries, i + 1, failedAfter)
      ensures FailuresExact(gw, now, orig, jobs, start, keys, i + 1, failedAfter)
      ensures ledger.users.extra.Keys == keys
    {
      ghost var before, prevJobs := ledger.entries, jobs;
      assert jobs[i] == orig[i];
      var raised, stepFailed := Step(gw, now, i);
      FailuresStep(gw, now, orig, prevJobs, jobs, start, before, keys, i, failed, stepFailed);
      LedgerProgressStep(gw, now, orig, start, before, ledger.entries, i, failed, stepFailed);
      ProgressStep(gw, now, orig, prevJobs, jobs, i, error, failed, raised, stepFailed);
      errorAfter := if raised || stepFailed then error + 1 else error;
      failedAfter := if stepFailed then failed + {i} else failed;
    }

    /**
     * `execute`: visit every selected row in table order. Returns the pass's
     * `total` and `error` counts, and, as a ghost, the rows whose ledger follow-up
     * threw; the ledger keeps every amount and changes only the rows of released codes.
     */
    method Execute(gw: Gateway, now: string) returns (total: nat, error: nat, ghost failed: set<nat>)
      modifies this, ledger, ledger.users
      ensures total == CountSelected(old(jobs))
      ensures |jobs| == |old(jobs)|
      ensures forall k :: 0 <= k < |jobs| ==> Outcome(gw, now, old(jobs)[k], jobs[k], k in failed)
      ensures forall k :: k in failed ==> k < |jobs|
      ensures error == RaisedCount(gw, old(jobs), now) + |failed|
      ensures forall k :: 0 <= k < |jobs| ==>
                FailedAs(gw, now, old(jobs)[k], old(ledger.entries), old(ledger.users.extra).Keys, jobs[k], k in failed)
      ensures error == RaisedCount(gw, old(jobs), now) + FailCount(gw, old(jobs), now, old(ledger.entries), old(ledger.users.extra).Keys)
      ensures LedgerKept(old(ledger.entries), ledger.entries, Released(gw, old(jobs), now))
      ensures ledger.users.extra.Keys == old(ledger.users.extra).Keys
      ensures FlagsKept(old(ledger.entries), ledger.entries)
      ensures forall k :: 0 <= k < |jobs| && k !in failed && Releases(gw, old(jobs)[k], now) ==>
                ReleasedIn(gw, now, old(jobs)[k], ledger.entries)
    {
      total, error, failed := CountSelected(jobs), 0, {};
      var i := 0;
      while i < |jobs|
        invariant Progress(gw, now, old(jobs), jobs, i, error, failed)
        invariant LedgerProgress(gw, now, old(jobs), old(ledger.entries), ledger.entries, i, failed)
        invariant ledger.users.extra.Keys == old(ledger.users.extra).Keys
        invariant FailuresExact(gw, now, old(jobs), jobs, old(ledger.entries), old(ledger.users.extra).Keys, i, failed)
      {
        error, failed := Turn(gw, now, old(jobs), old(ledger.entries), old(ledger.users.extra).Keys, i, error, failed);
        i := i + 1;
      }
      assert old(jobs)[..i] == old(jobs);
    }
  }
}
