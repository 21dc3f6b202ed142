/**
 * The balance ledger (`BalanceService` over the `PaymentBalance` table): signed
 * amounts in cents per account, with lock, cancel and soft-delete flags, and
 * the four aggregates cached under `balance_*` in the account's `extra`.
 */
module BalanceService {
  import opened Wrappers
  import opened Money
  import opened Accounts
  import opened Ledger

  datatype Error = AccountNotFound | InsufficientFunds | ChangeFailed | InvalidCode

  /** The exception messages, as the settlement pass records them. */
  function Message(e: Error): string {
    match e
    case AccountNotFound => "账号不存在！"
    case InsufficientFunds => "扣减余额不足！"
    case ChangeFailed => "余额变更失败！"
    case InvalidCode => "无效的操作编号！"
  }

  datatype Entry = Entry(
    unid: int, code: string, name: string, amount: int, remark: string, status: int,
    unlock: int, unlockTime: string,
    cancel: int, cancelTime: string,
    deleted: int, deletedTime: string)
  {
    function AsRow(): Row {
      Row(unid, code, amount, unlock, cancel, deleted)
    }
  }

  function Rows(es: seq<Entry>): (rows: seq<Row>)
    ensures |rows| == |es|
    ensures forall k :: 0 <= k < |es| ==> rows[k] == es[k].AsRow()
  {
    seq(|es|, k requires 0 <= k < |es| => es[k].AsRow())
  }

  /** The arguments of `create`. */
  datatype Change = Change(unid: int, code: string, name: string, amount: int, remark: string, unlock: bool)

  function Flag(b: bool): int {
    if b then 1 else 0
  }

  /** The column values of a row `create` has not found: the table's defaults. */
  const Blank := Entry(0, "", "", 0, "", 0, 0, "", 0, "", 0, "")

  /**
   * The columns `create` saves onto `prior`, `unlock_time` stamped whatever the
   * lock flag; cancel and the delete columns are not among them.
   */
  function Written(prior: Entry, c: Change, now: string): Entry {
    prior.(unid := c.unid, code := c.code, name := c.name, amount := c.amount, remark := c.remark,
           status := 1, unlock := Flag(c.unlock), unlockTime := now)
  }

  function Target(es: seq<Entry>, c: Change): nat {
    Slot(Rows(es), c.unid, c.code)
  }

  /** The upsert of `create`: overwrite the live row of (unid, code) in place, or append one. */
  function Upsert(es: seq<Entry>, c: Change, now: string): (out: seq<Entry>)
    ensures Rows(out) == PutRow(Rows(es), c.unid, c.code, c.amount, Flag(c.unlock))
    ensures Target(es, c) < |out|
    ensures forall k :: 0 <= k < |es| && k != Target(es, c) ==> out[k] == es[k]
  {
    match FindLive(Rows(es), c.unid, c.code)
    case Some(i) => es[i := Written(es[i], c, now)]
    case None => es + [Written(Blank, c, now)]
  }

  /** The row the upsert leaves at its slot: the new values over what was there before. */
  lemma UpsertWrites(es: seq<Entry>, c: Change, now: string)
    ensures var k := Target(es, c);
            Upsert(es, c, now)[k] == Written(if k < |es| then es[k] else Blank, c, now)
  {
  }

  /** Repeating a `create` with the same arguments at the same time rewrites the same row with the same values. */
  lemma {:induction false} UpsertIdempotent(es: seq<Entry>, c: Change, now: string)
    ensures Upsert(Upsert(es, c, now), c, now) == Upsert(es, c, now)
  {
    var once := Upsert(es, c, now);
    PutLands(Rows(es), c.unid, c.code, c.amount, Flag(c.unlock));
    assert FindLive(Rows(once), c.unid, c.code) == Some(Target(es, c));
  }

  /** After a `create` exactly one live row carries (unid, code), if that held of the others before. */
  lemma UpsertKeepsUnique(es: seq<Entry>, c: Change, now: string)
    requires UniqueLive(Rows(es))
    ensures UniqueLive(Rows(Upsert(es, c, now)))
    ensures FindLive(Rows(Upsert(es, c, now)), c.unid, c.code) == Some(Target(es, c))
  {
    PutKeepsUnique(Rows(es), c.unid, c.code, c.amount, Flag(c.unlock));
    PutLands(Rows(es), c.unid, c.code, c.amount, Flag(c.unlock));
  }

  /** `unlock`, `cancel` and `remove` save only their flag and its timestamp. */
  function Apply(e: Entry, p: Patch): (out: Entry)
    ensures out.AsRow() == Touched(e.AsRow(), p)
    ensures out.name == e.name && out.remark == e.remark && out.status == e.status
  {
    match p
    case UnlockAs(f, t) => e.(unlock := f, unlockTime := t)
    case CancelAs(f, t) => e.(cancel := f, cancelTime := t)
    case Delete(t) => e.(deleted := 1, deletedTime := t)
  }

  /** The keys `recount` writes into the account's `extra`. */
  function Keys(t: Totals): Extra {
    map["balance_lock" := t.lock, "balance_used" := t.used, "balance_total" := t.total, "balance_usable" := t.usable]
  }

  /** A second recount's keys replace the first one's. */
  lemma MergeRecountTwice(e: Extra, t1: Totals, t2: Totals)
    ensures Merge(Merge(e, Keys(t1)), Keys(t2)) == Merge(e, Keys(t2))
  {
    var l, r := Merge(Merge(e, Keys(t1)), Keys(t2)), Merge(e, Keys(t2));
    assert l.Keys == r.Keys;
    forall k | k in l ensures l[k] == r[k] {
    }
  }

  /** Rows keep their owner, code and amount: what `unlock` and `cancel` guarantee to any later reader. */
  ghost predicate SameAmounts(a: seq<Entry>, b: seq<Entry>) {
    |a| == |b| && forall k :: 0 <= k < |a| ==> a[k].unid == b[k].unid && a[k].code == b[k].code && a[k].amount == b[k].amount
  }

  class PaymentBalance {
    var entries: seq<Entry>
    const users: AccountTable

    constructor (users: AccountTable, entries: seq<Entry>)
      ensures this.users == users && this.entries == entries
    {
      this.users := users;
      this.entries := entries;
    }

    /** `get`: the first non-deleted row with this code, whoever owns it. */
    function Get(code: string): (r: Result<Entry, Error>)
      reads this
      ensures r.Err? <==> forall k :: 0 <= k < |entries| ==> !(entries[k].code == code && entries[k].deleted == 0)
      ensures r.Err? ==> r.error == InvalidCode
      ensures r.Ok? ==> r.value in entries && r.value.code == code && r.value.deleted == 0
    {
      match FindCode(Rows(entries), code)
      case Some(i) => Ok(entries[i])
      case None => Err(InvalidCode)
    }

    /** `recountAll`: the four aggregates over every account; nothing is written. */
    function RecountAll(): (t: Totals)
      reads this
      ensures t.usable == t.total - t.used - t.lock
      ensures t.used >= 0 && t.total >= 0
      ensures t.usable == Sum(Rows(entries), Everyone, Amounts) - t.lock
    {
      Tally(Rows(entries), Everyone)
    }

    /**
     * `recount(unid, &data)`. With a caller buffer the account is not looked up,
     * the keys go into the buffer and nothing is persisted; without one a missing
     * account fails, and otherwise the keys are merged into its `extra`.
     */
    method Recount(unid: int, data: Option<Extra>) returns (r: Result<Totals, Error>, buffer: Extra)
      modifies users
      ensures data.Some? ==> && r == Ok(Tally(Rows(entries), Owner(unid)))
                             && buffer == Merge(data.value, Keys(r.value))
                             && users.extra == old(users.extra)
      ensures data.None? && unid !in old(users.extra) ==>
                r == Err(AccountNotFound) && buffer == map[] && users.extra == old(users.extra)
      ensures data.None? && unid in old(users.extra) ==>
                && r == Ok(Tally(Rows(entries), Owner(unid)))
                && buffer == Keys(r.value)
                && users.extra == old(users.extra)[unid := Merge(old(users.extra)[unid], buffer)]
    {
      if data.None? && unid !in users.extra {
        return Err(AccountNotFound), map[];
      }
      var totals := Tally(Rows(entries), Owner(unid));
      buffer := Merge(data.GetOr(map[]), Keys(totals));
      if data.None? {
        users.extra := users.extra[unid := Merge(users.extra[unid], buffer)];
      }
      r := Ok(totals);
    }

    /**
     * `create`: refuse an unknown account, refuse a debit larger than the live
     * sum of the account, upsert the row, then recount the account. `saved`
     * says whether the row exists after the save (`isExists`).
     */
    method Create(c: Change, now: string, saved: bool) returns (r: Result<Entry, Error>)
      modifies this, users
      ensures c.unid !in old(users.extra) ==>
                r == Err(AccountNotFound) && entries == old(entries) && users.extra == old(users.extra)
      ensures c.unid in old(users.extra) && Short(Rows(old(entries)), c.unid, c.amount) ==>
                r == Err(InsufficientFunds) && entries == old(entries) && users.extra == old(users.extra)
      ensures c.unid in old(users.extra) && !Short(Rows(old(entries)), c.unid, c.amount) ==>
                var k := Target(old(entries), c);
                && entries == (if saved then Upsert(old(entries), c, now) else old(entries))
                && (saved || k < |old(entries)| ==>
                      && r == Ok(entries[k])
                      && users.extra == old(users.extra)[c.unid := Merge(old(users.extra)[c.unid], Keys(Tally(Rows(entries), Owner(c.unid))))])
                && (!saved && k == |old(entries)| ==> r == Err(ChangeFailed) && users.extra == old(users.extra))
    {
      if c.unid !in users.extra {
        return Err(AccountNotFound);
      }
      var usable := Sum(Rows(entries), Owner(c.unid), Amounts);
      if c.amount < 0 && Abs(c.amount) > usable {
        return Err(InsufficientFunds);
      }
      var k := Target(entries, c);
      if saved {
        entries := Upsert(entries, c, now);
      }
      if k < |entries| {
        var _, _ := Recount(c.unid, None);
        r := Ok(entries[k]);
      } else {
        r := Err(ChangeFailed);
      }
    }

    /** `set(code, data)`: patch the row `get` finds, then recount its owner. */
    method Set(code: string, p: Patch) returns (r: Result<Entry, Error>)
      modifies this, users
      ensures SetDone(this, code, p, r)
    {
      var i := FindCode(Rows(entries), code);
      if i.None? {
        return Err(InvalidCode);
      }
      var owner := entries[i.value].unid;
      entries := entries[i.value := Apply(entries[i.value], p)];
      var recounted, _ := Recount(owner, None);
      if recounted.Err? {
        return Err(recounted.error);
      }
      r := Ok(entries[i.value]);
    }

    /** `unlock(code, unlock = 1)` */
    method Unlock(code: string, flag: int, now: string) returns (r: Result<Entry, Error>)
      modifies this, users
      ensures SetDone(this, code, UnlockAs(flag, now), r)
    {
      r := Set(code, UnlockAs(flag, now));
    }

    /** `cancel(code, cancel = 1)` */
    method Cancel(code: string, flag: int, now: string) returns (r: Result<Entry, Error>)
      modifies this, users
      ensures SetDone(this, code, CancelAs(flag, now), r)
    {
      r := Set(code, CancelAs(flag, now));
    }

    /** `remove(code)`: the soft delete. */
    method Remove(code: string, now: string) returns (r: Result<Entry, Error>)
      modifies this, users
      ensures SetDone(this, code, Delete(now), r)
    {
      r := Set(code, Delete(now));
    }
  }

  /**
   * The outcome of `set`: an unknown code fails and changes nothing; otherwise the
   * row is patched, and its owner is recounted, which fails if the owner has no account.
   */
  twostate predicate SetDone(s: PaymentBalance, code: string, p: Patch, new r: Result<Entry, Error>)
    reads s, s.users
  {
    PatchDone(code, p, old(s.entries), s.entries, old(s.users.extra), s.users.extra, r)
  }

  /** The same outcome on values: table `a` and accounts `xa` before, `b` and `xb` after. */
  ghost predicate PatchDone(code: string, p: Patch, a: seq<Entry>, b: seq<Entry>,
                            xa: map<int, Extra>, xb: map<int, Extra>, r: Result<Entry, Error>) {
    match FindCode(Rows(a), code)
    case None => r == Err(InvalidCode) && b == a && xb == xa
    case Some(i) =>
      var owner := a[i].unid;
      && b == a[i := Apply(a[i], p)]
      && SameAmounts(a, b)
      && if owner in xa then
           && r == Ok(b[i])
           && xb == xa[owner := Merge(xa[owner], Keys(Tally(Rows(b), Owner(owner))))]
         else
           r == Err(AccountNotFound) && xb == xa
  }

  /** A patch keeps (unid, code) unique among live rows. */
  lemma PatchKeepsUnique(es: seq<Entry>, i: nat, p: Patch)
    requires i < |es| && UniqueLive(Rows(es))
    ensures UniqueLive(Rows(es[i := Apply(es[i], p)]))
  {
    var out := es[i := Apply(es[i], p)];
    assert forall k :: 0 <= k < |es| ==> Rows(out)[k].unid == Rows(es)[k].unid && Rows(out)[k].code == Rows(es)[k].code;
    assert forall k :: 0 <= k < |es| && Rows(out)[k].deleted == 0 ==> Rows(es)[k].deleted == 0;
  }

  /**
   * Retrying a debit with the same code can be refused: the guard counts the row
   * it would overwrite. With 100.00 on the account, a locked debit of 60.00 passes
   * once and fails the second time.
   */
  lemma DebitRetryRefused(now: string)
    ensures var es := [Entry(7, "A1", "", 10000, "", 1, 1, now, 0, "", 0, "")];
            var c := Change(7, "A2", "", -6000, "", false);
            && !Short(Rows(es), 7, -6000)
            && Short(Rows(Upsert(es, c, now)), 7, -6000)
  {
    var es := [Entry(7, "A1", "", 10000, "", 1, 1, now, 0, "", 0, "")];
    var c := Change(7, "A2", "", -6000, "", false);
    SumOne(Rows(es)[0], Owner(7), Amounts);
    assert Rows(es) == [Rows(es)[0]];
    PutLiveSum(Rows(es), 7, "A2", -6000, 0);
  }

  /**
   * Recount of a locked debit: account 7 holds a released credit of 100.00; a locked
   * debit of 40.00 already counts as used (and as a negative lock), and
   * unlocking it moves it out of `lock`.
   */
  lemma LockedDebitExample(now: string)
    ensures var es := [Entry(7, "A1", "", 10000, "", 1, 1, now, 0, "", 0, "")];
            var after := Upsert(es, Change(7, "A2", "", -4000, "", false), now);
            && |after| == 2
            && Tally(Rows(after), Owner(7)) == Totals(-4000, 4000, 10000, 10000)
            && Tally(Rows(after[1 := Apply(after[1], UnlockAs(1, now))]), Owner(7)) == Totals(0, 4000, 10000, 6000)
  {
    var es := [Entry(7, "A1", "", 10000, "", 1, 1, now, 0, "", 0, "")];
    var c := Change(7, "A2", "", -4000, "", false);
    var after := Upsert(es, c, now);
    assert FindLive(Rows(es), 7, "A2") == None;
    assert after == es + [Written(Blank, c, now)];
    var rows := Rows(after);
    assert rows == [rows[0]] + [rows[1]];
    forall col: Column ensures Sum(rows, Owner(7), col) == Part(rows[0], Owner(7), col) + Part(rows[1], Owner(7), col) {
      SumAppend([rows[0]], [rows[1]], Owner(7), col);
      SumOne(rows[0], Owner(7), col);
      SumOne(rows[1], Owner(7), col);
    }
    UnlockReleases(rows, 1, 1, now, Owner(7));
    assert Rows(after[1 := Apply(after[1], UnlockAs(1, now))]) == rows[1 := Touched(rows[1], UnlockAs(1, now))];
  }
}
