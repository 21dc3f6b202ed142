/**
 * The integral (reward points) ledger (`IntegralService` over the integral
 * table). Same shape as the balance ledger, with three differences kept as the
 * code has them: rows record the live sum before and after the change,
 * `unlock_time` is stamped only on unlocked rows, and `recount` truncates to
 * whole units and leaves `lock` out of `usable` (while `recountAll` does not).
 * Points are kept in hundredths, like the cents of the balance.
 */
module IntegralService {
  import opened Wrappers
  import opened Money
  import opened Accounts
  import opened Ledger

  datatype Error = AccountNotFound | InsufficientFunds | ChangeFailed | InvalidCode

  function Message(e: Error): string {
    match e
    case AccountNotFound => "账号不存在！"
    case InsufficientFunds => "扣减积分不足！"
    case ChangeFailed => "积分变更失败！"
    case InvalidCode => "无效的操作编号！"
  }

  /** The rate `sysdata` holds: the empty value, or a number. */
  datatype Configured = Empty | Rate(value: real)

  /** The clamp of `ratio`: an empty or sub-unit rate is replaced by 1. */
  function Divisor(cfg: Configured): (d: real)
    ensures d >= 1.0
    ensures cfg.Rate? && cfg.value >= 1.0 ==> d == cfg.value
    ensures cfg.Empty? || cfg.value < 1.0 ==> d == 1.0
  {
    if cfg.Empty? || cfg.value < 1.0 then 1.0 else cfg.value
  }

  /** `ratio(integral)`: points per unit of currency; the divisor is never below 1, so the result never grows. */
  function Ratio(integral: real, cfg: Configured): (r: real)
    ensures r * Divisor(cfg) == integral
    ensures integral >= 0.0 ==> 0.0 <= r <= integral
    ensures integral <= 0.0 ==> integral <= r <= 0.0
  {
    integral / Divisor(cfg)
  }

  datatype Entry = Entry(
    unid: int, code: string, name: string, amount: int, remark: string,
    amountPrev: int, amountNext: int,
    unlock: int, unlockTime: string,
    cancel: int, cancelTime: string,
    deleted: int, deletedTime: string)
  {
    function AsRow(): Row {
      Row(unid, code, amount, unlock, cancel, deleted)
    }
  }

  function Rows(es: seq<Entry>): (rows: seq<Row>)
    ensures |rows| == |es|
    ensures forall k :: 0 <= k < |es| ==> rows[k] == es[k].AsRow()
  {
    seq(|es|, k requires 0 <= k < |es| => es[k].AsRow())
  }

  /** The arguments of `create`. */
  datatype Change = Change(unid: int, code: string, name: string, amount: int, remark: string, unlock: bool)

  function Flag(b: bool): int {
    if b then 1 else 0
  }

  const Blank := Entry(0, "", "", 0, "", 0, 0, 0, "", 0, "", 0, "")

  /** The live sum the guard and `amount_prev` read. */
  function LiveSum(es: seq<Entry>, unid: int): int {
    Sum(Rows(es), Owner(unid), Amounts)
  }

  /**
   * The columns `create` saves onto `prior`: the live sum before and after the
   * change, and `unlock_time` only when the row is unlocked.
   */
  function Written(prior: Entry, c: Change, live: int, now: string): Entry {
    prior.(unid := c.unid, code := c.code, name := c.name, amount := c.amount, remark := c.remark,
           amountPrev := live, amountNext := live + c.amount,
           unlock := Flag(c.unlock), unlockTime := if c.unlock then now else prior.unlockTime)
  }

  function Target(es: seq<Entry>, c: Change): nat {
    Slot(Rows(es), c.unid, c.code)
  }

  /** The upsert of `create` on `(unid, code, deleted = 0)`. */
  function Upsert(es: seq<Entry>, c: Change, now: string): (out: seq<Entry>)
    ensures Rows(out) == PutRow(Rows(es), c.unid, c.code, c.amount, Flag(c.unlock))
    ensures Target(es, c) < |out|
    ensures forall k :: 0 <= k < |es| && k != Target(es, c) ==> out[k] == es[k]
  {
    var live := LiveSum(es, c.unid);
    match FindLive(Rows(es), c.unid, c.code)
    case Some(i) => es[i := Written(es[i], c, live, now)]
    case None => es + [Written(Blank, c, live, now)]
  }

  /**
   * The row written records the live sum before the change and that sum plus
   * the amount; `unlock_time` is `now` on an unlocked row and is left as it was otherwise.
   */
  lemma UpsertRecordsSums(es: seq<Entry>, c: Change, now: string)
    ensures var k := Target(es, c);
            var row := Upsert(es, c, now)[k];
            var prior := if k < |es| then es[k] else Blank;
            && row.amountPrev == LiveSum(es, c.unid)
            && row.amountNext == LiveSum(es, c.unid) + c.amount
            && row.unlockTime == (if c.unlock then now else prior.unlockTime)
  {
  }

  /**
   * A retried `create` of a new code is not a pure repeat: the live sum now
   * includes the first write, so the retry's `amount_prev` is the first one's `amount_next`.
   */
  lemma RetryStartsFromNext(es: seq<Entry>, c: Change, now: string)
    requires FindLive(Rows(es), c.unid, c.code).None?
    ensures var once := Upsert(es, c, now);
            var twice := Upsert(once, c, now);
            |twice| == |once| == |es| + 1 && twice[|es|].amountPrev == once[|es|].amountNext
  {
    var once := Upsert(es, c, now);
    PutLands(Rows(es), c.unid, c.code, c.amount, Flag(c.unlock));
    PutLiveSum(Rows(es), c.unid, c.code, c.amount, Flag(c.unlock));
    assert FindLive(Rows(once), c.unid, c.code) == Some(|es|);
  }

  lemma UpsertKeepsUnique(es: seq<Entry>, c: Change, now: string)
    requires UniqueLive(Rows(es))
    ensures UniqueLive(Rows(Upsert(es, c, now)))
    ensures FindLive(Rows(Upsert(es, c, now)), c.unid, c.code) == Some(Target(es, c))
  {
    PutKeepsUnique(Rows(es), c.unid, c.code, c.amount, Flag(c.unlock));
    PutLands(Rows(es), c.unid, c.code, c.amount, Flag(c.unlock));
  }

  function Apply(e: Entry, p: Patch): (out: Entry)
    ensures out.AsRow() == Touched(e.AsRow(), p)
    ensures out.name == e.name && out.amountPrev == e.amountPrev && out.amountNext == e.amountNext
  {
    match p
    case UnlockAs(f, t) => e.(unlock := f, unlockTime := t)
    case CancelAs(f, t) => e.(cancel := f, cancelTime := t)
    case Delete(t) => e.(deleted := 1, deletedTime := t)
  }

  /**
   * `recount`'s formulas: each sum goes through `intval` (whole units), and
   * `usable = round(total - |used|, 2)`, which leaves `lock` out. The result is
   * within two units of the live sum.
   */
  function Recounted(rows: seq<Row>, unid: int): (t: Totals)
    ensures t.lock == Truncated(Sum(rows, Owner(unid), Locked))
    ensures t.used == Abs(Truncated(Sum(rows, Owner(unid), Debits)))
    ensures t.total == Truncated(Sum(rows, Owner(unid), Credits))
    ensures t.used >= 0 && t.total >= 0
    ensures t.lock % 100 == 0 && t.used % 100 == 0 && t.total % 100 == 0
    ensures t.usable == t.total - t.used
    ensures Abs(t.usable - Sum(rows, Owner(unid), Amounts)) < 200
  {
    SumSigns(rows, Owner(unid));
    SumSplit(rows, Owner(unid));
    var lock := Truncated(Sum(rows, Owner(unid), Locked));
    var used := Truncated(Sum(rows, Owner(unid), Debits));
    var total := Truncated(Sum(rows, Owner(unid), Credits));
    Totals(lock, Abs(used), total, total - Abs(used))
  }

  /** Unlike the balance, unlocking a row never changes the integral `usable`. */
  lemma UnlockKeepsUsable(rows: seq<Row>, i: nat, flag: int, time: string, unid: int)
    requires i < |rows|
    ensures Recounted(rows[i := Touched(rows[i], UnlockAs(flag, time))], unid).usable == Recounted(rows, unid).usable
  {
    var r := Touched(rows[i], UnlockAs(flag, time));
    SumUpdate(rows, i, r, Owner(unid), Debits);
    SumUpdate(rows, i, r, Owner(unid), Credits);
  }

  /** The per-account formula and the global one disagree as soon as something is locked. */
  lemma RecountDiffersFromRecountAll()
    ensures var rows := [Row(7, "P1", 10000, 0, 0, 0)];
            Recounted(rows, 7).usable == 10000 && Tally(rows, Everyone).usable == 0
  {
    var rows := [Row(7, "P1", 10000, 0, 0, 0)];
    SumOne(rows[0], Owner(7), Locked);
    SumOne(rows[0], Owner(7), Debits);
    SumOne(rows[0], Owner(7), Credits);
    SumOne(rows[0], Everyone, Locked);
    SumOne(rows[0], Everyone, Debits);
    SumOne(rows[0], Everyone, Credits);
    TruncatedWhole(100);
  }

  function Keys(t: Totals): Extra {
    map["integral_lock" := t.lock, "integral_used" := t.used, "integral_total" := t.total, "integral_usable" := t.usable]
  }

  class PaymentIntegral {
    var entries: seq<Entry>
    const users: AccountTable

    constructor (users: AccountTable, entries: seq<Entry>)
      ensures this.users == users && this.entries == entries
    {
      this.users := users;
      this.entries := entries;
    }

    /** `get`: the first non-deleted row with this code, whoever owns it. */
    function Get(code: string): (r: Result<Entry, Error>)
      reads this
      ensures r.Err? <==> forall k :: 0 <= k < |entries| ==> !(entries[k].code == code && entries[k].deleted == 0)
      ensures r.Err? ==> r.error == InvalidCode
      ensures r.Ok? ==> r.value in entries && r.value.code == code && r.value.deleted == 0
    {
      match FindCode(Rows(entries), code)
      case Some(i) => Ok(entries[i])
      case None => Err(InvalidCode)
    }

    /** `recountAll`: no truncation, and `usable = total - used - lock`, as in the balance. */
    function RecountAll(): (t: Totals)
      reads this
      ensures t.usable == t.total - t.used - t.lock
      ensures t.used >= 0 && t.total >= 0
      ensures t.usable == Sum(Rows(entries), Everyone, Amounts) - t.lock
    {
      Tally(Rows(entries), Everyone)
    }

    /** `recount(unid, &data)`, with the integral formulas and the `integral_*` keys. */
    method Recount(unid: int, data: Option<Extra>) returns (r: Result<Totals, Error>, buffer: Extra)
      modifies users
      ensures data.Some? ==> && r == Ok(Recounted(Rows(entries), unid))
                             && buffer == Merge(data.value, Keys(r.value))
                             && users.extra == old(users.extra)
      ensures data.None? && unid !in old(users.extra) ==>
                r == Err(AccountNotFound) && buffer == map[] && users.extra == old(users.extra)
      ensures data.None? && unid in old(users.extra) ==>
                && r == Ok(Recounted(Rows(entries), unid))
                && buffer == Keys(r.value)
                && users.extra == old(users.extra)[unid := Merge(old(users.extra)[unid], buffer)]
    {
      if data.None? && unid !in users.extra {
        return Err(AccountNotFound), map[];
      }
      var totals := Recounted(Rows(entries), unid);
      buffer := Merge(data.GetOr(map[]), Keys(totals));
      if data.None? {
        users.extra := users.extra[unid := Merge(users.extra[unid], buffer)];
      }
      r := Ok(totals);
    }

    /**
     * `create`: refuse an unknown account and a debit larger than the live sum,
     * upsert the row; a save that reports failure raises, otherwise the account
     * is recounted. `saved` is what the save reports.
     */
    method Create(c: Change, now: string, saved: bool) returns (r: Result<Entry, Error>)
      modifies this, users
      ensures c.unid !in old(users.extra) ==>
                r == Err(AccountNotFound) && entries == old(entries) && users.extra == old(users.extra)
      ensures c.unid in old(users.extra) && Short(Rows(old(entries)), c.unid, c.amount) ==>
                r == Err(InsufficientFunds) && entries == old(entries) && users.extra == old(users.extra)
      ensures c.unid in old(users.extra) && !Short(Rows(old(entries)), c.unid, c.amount) && !saved ==>
                r == Err(ChangeFailed) && entries == old(entries) && users.extra == old(users.extra)
      ensures c.unid in old(users.extra) && !Short(Rows(old(entries)), c.unid, c.amount) && saved ==>
                && entries == Upsert(old(entries), c, now)
                && r == Ok(entries[Target(old(entries), c)])
                && users.extra == old(users.extra)[c.unid := Merge(old(users.extra)[c.unid], Keys(Recounted(Rows(entries), c.unid)))]
    {
      if c.unid !in users.extra {
        return Err(AccountNotFound);
      }
      var usable := LiveSum(entries, c.unid);
      if c.amount < 0 && Abs(c.amount) > usable {
        return Err(InsufficientFunds);
      }
      if !saved {
        return Err(ChangeFailed);
      }
      var k := Target(entries, c);
      entries := Upsert(entries, c, now);
      var _, _ := Recount(c.unid, None);
      r := Ok(entries[k]);
    }

    /** `set(code, data)`: patch the row `get` finds, then recount its owner. */
    method Set(code: string, p: Patch) returns (r: Result<Entry, Error>)
      modifies this, users
      ensures SetDone(this, code, p, r)
    {
      var i := FindCode(Rows(entries), code);
      if i.None? {
        return Err(InvalidCode);
      }
      var owner := entries[i.value].unid;
      entries := entries[i.value := Apply(entries[i.value], p)];
      var recounted, _ := Recount(owner, None);
      if recounted.Err? {
        return Err(recounted.error);
      }
      r := Ok(entries[i.value]);
    }

    method Unlock(code: string, flag: int, now: string) returns (r: Result<Entry, Error>)
      modifies this, users
      ensures SetDone(this, code, UnlockAs(flag, now), r)
    {
      r := Set(code, UnlockAs(flag, now));
    }

    method Cancel(code: string, flag: int, now: string) returns (r: Result<Entry, Error>)
      modifies this, users
      ensures SetDone(this, code, CancelAs(flag, now), r)
    {
      r := Set(code, CancelAs(flag, now));
    }

    method Remove(code: string, now: string) returns (r: Result<Entry, Error>)
      modifies this, users
      ensures SetDone(this, code, Delete(now), r)
    {
      r := Set(code, Delete(now));
    }
  }

  /** The outcome of `set`, with the integral recount. */
  twostate predicate SetDone(s: PaymentIntegral, code: string, p: Patch, new r: Result<Entry, Error>)
    reads s, s.users
  {
    match FindCode(Rows(old(s.entries)), code)
    case None => r == Err(InvalidCode) && s.entries == old(s.entries) && s.users.extra == old(s.users.extra)
    case Some(i) =>
      var owner := old(s.entries)[i].unid;
      && s.entries == old(s.entries)[i := Apply(old(s.entries)[i], p)]
      && if owner in old(s.users.extra) then
           && r == Ok(s.entries[i])
           && s.users.extra == old(s.users.extra)[owner := Merge(old(s.users.extra)[owner], Keys(Recounted(Rows(s.entries), owner)))]
         else
           r == Err(AccountNotFound) && s.users.extra == old(s.users.extra)
  }
}
