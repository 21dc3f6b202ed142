/**
 * The ledger store that the balance and the integral services share in shape:
 * rows keyed by (unid, code) with soft-delete, point lookups and the filtered
 * sums `sum(amount) where unid, cancel = 0, deleted = 0 [, unlock = 0 | amount < 0 | amount > 0]`.
 * Each service projects its own table onto `Row`.
 */
module Ledger {
  import opened Wrappers
  import opened Money

  /** The columns of a ledger row that lookups, filters and sums read. */
  datatype Row = Row(unid: int, code: string, amount: int, unlock: int, cancel: int, deleted: int)

  /** `cancel = 0 and deleted = 0`: the rows every aggregate ranges over. */
  predicate Active(r: Row) {
    r.cancel == 0 && r.deleted == 0
  }

  /** One account (`recount`) or all of them (`recountAll`). */
  datatype Scope = Everyone | Owner(unid: int)

  /** The extra filter of each sum. */
  datatype Column = Amounts | Locked | Debits | Credits

  predicate Counted(r: Row, scope: Scope, col: Column) {
    && Active(r)
    && (scope.Owner? ==> r.unid == scope.unid)
    && match col
       case Amounts => true
       case Locked => r.unlock == 0
       case Debits => r.amount < 0
       case Credits => r.amount > 0
  }

  function Part(r: Row, scope: Scope, col: Column): int {
    if Counted(r, scope, col) then r.amount else 0
  }

  /** `sum('amount')` over the rows in `scope` that the filter `col` selects. */
  function Sum(rows: seq<Row>, scope: Scope, col: Column): int {
    if rows == [] then 0 else Sum(rows[..|rows| - 1], scope, col) + Part(rows[|rows| - 1], scope, col)
  }

  lemma {:induction false} SumAppend(a: seq<Row>, b: seq<Row>, scope: Scope, col: Column)
    ensures Sum(a + b, scope, col) == Sum(a, scope, col) + Sum(b, scope, col)
    decreases |b|
  {
    if b == [] {
      assert a + b == a;
    } else {
      var n := |b| - 1;
      assert (a + b)[..|a + b| - 1] == a + b[..n];
      assert (a + b)[|a + b| - 1] == b[n];
      SumAppend(a, b[..n], scope, col);
    }
  }

  lemma SumOne(r: Row, scope: Scope, col: Column)
    ensures Sum([r], scope, col) == Part(r, scope, col)
  {
    assert [r][..0] == [];
  }

  /** Replacing one row changes a sum by the difference of the two rows' parts. */
  lemma {:induction false} SumUpdate(rows: seq<Row>, i: nat, r: Row, scope: Scope, col: Column)
    requires i < |rows|
    ensures Sum(rows[i := r], scope, col) == Sum(rows, scope, col) - Part(rows[i], scope, col) + Part(r, scope, col)
  {
    var left, right := rows[..i], rows[i + 1..];
    assert rows == left + [rows[i]] + right;
    assert rows[i := r] == left + [r] + right;
    SumAppend(left + [rows[i]], right, scope, col);
    SumAppend(left + [r], right, scope, col);
    SumAppend(left, [rows[i]], scope, col);
    SumAppend(left, [r], scope, col);
    SumOne(rows[i], scope, col);
    SumOne(r, scope, col);
  }

  /** The debit sum is never positive and the credit sum never negative. */
  lemma {:induction false} SumSigns(rows: seq<Row>, scope: Scope)
    ensures Sum(rows, scope, Debits) <= 0 <= Sum(rows, scope, Credits)
  {
    if rows != [] {
      SumSigns(rows[..|rows| - 1], scope);
    }
  }

  /** The live sum splits into the credit sum and the debit sum. */
  lemma {:induction false} SumSplit(rows: seq<Row>, scope: Scope)
    ensures Sum(rows, scope, Amounts) == Sum(rows, scope, Credits) + Sum(rows, scope, Debits)
  {
    if rows != [] {
      SumSplit(rows[..|rows| - 1], scope);
    }
  }

  /** The four cached aggregates of an account: `[lock, used, total, usable]`. */
  datatype Totals = Totals(lock: int, used: int, total: int, usable: int)

  /**
   * The balance `recount` formulas, which integral's `recountAll` shares:
   * lock = locked sum, used = |debit sum|, total = credit sum, usable = total - used - lock.
   */
  function Tally(rows: seq<Row>, scope: Scope): (t: Totals)
    ensures t.used >= 0 && t.total >= 0
    ensures t.lock == Sum(rows, scope, Locked)
    ensures t.used == -Sum(rows, scope, Debits)
    ensures t.total == Sum(rows, scope, Credits)
    ensures t.usable == t.total - t.used - t.lock
    ensures t.usable == Sum(rows, scope, Amounts) - t.lock
  {
    SumSigns(rows, scope);
    SumSplit(rows, scope);
    var lock := Sum(rows, scope, Locked);
    var used := Abs(Sum(rows, scope, Debits));
    var total := Sum(rows, scope, Credits);
    Totals(lock, used, total, total - used - lock)
  }

  /** A cancelled or deleted row counts toward no aggregate, whatever its amount or lock state. */
  lemma {:induction false} VoidIsAbsent(a: seq<Row>, r: Row, b: seq<Row>, scope: Scope)
    requires !Active(r)
    ensures Tally(a + [r] + b, scope) == Tally(a + b, scope)
  {
    forall col: Column ensures Sum(a + [r] + b, scope, col) == Sum(a + b, scope, col) {
      SumAppend(a + [r], b, scope, col);
      SumAppend(a, [r], scope, col);
      SumAppend(a, b, scope, col);
      SumOne(r, scope, col);
    }
  }

  /** What `unlock`, `cancel` and `remove` write onto the row they find. */
  datatype Patch = UnlockAs(flag: int, time: string) | CancelAs(flag: int, time: string) | Delete(time: string)

  function Touched(r: Row, p: Patch): (t: Row)
    ensures t.unid == r.unid && t.code == r.code && t.amount == r.amount
  {
    match p
    case UnlockAs(f, _) => r.(unlock := f)
    case CancelAs(f, _) => r.(cancel := f)
    case Delete(_) => r.(deleted := 1)
  }

  /** Unlocking an active locked row moves its amount out of `lock` and into `usable`. */
  lemma UnlockReleases(rows: seq<Row>, i: nat, flag: int, time: string, scope: Scope)
    requires i < |rows| && flag != 0
    requires Counted(rows[i], scope, Locked)
    ensures var t := Tally(rows, scope);
            Tally(rows[i := Touched(rows[i], UnlockAs(flag, time))], scope)
              == t.(lock := t.lock - rows[i].amount, usable := t.usable + rows[i].amount)
  {
    var r := Touched(rows[i], UnlockAs(flag, time));
    SumUpdate(rows, i, r, scope, Locked);
    SumUpdate(rows, i, r, scope, Debits);
    SumUpdate(rows, i, r, scope, Credits);
    SumUpdate(rows, i, r, scope, Amounts);
  }

  /** Cancelling (with a non-zero flag) or deleting a row takes it out of every aggregate. */
  lemma VoidingRemoves(rows: seq<Row>, i: nat, p: Patch, scope: Scope)
    requires i < |rows|
    requires p.Delete? || (p.CancelAs? && p.flag != 0)
    ensures Tally(rows[i := Touched(rows[i], p)], scope) == Tally(rows[..i] + rows[i + 1..], scope)
  {
    var r := Touched(rows[i], p);
    assert rows[i := r] == rows[..i] + [r] + rows[i + 1..];
    VoidIsAbsent(rows[..i], r, rows[i + 1..], scope);
  }

  /** A change to another account's row leaves this account's aggregates as they were. */
  lemma OtherAccountUntouched(rows: seq<Row>, i: nat, r: Row, unid: int)
    requires i < |rows| && rows[i].unid != unid && r.unid != unid
    ensures Tally(rows[i := r], Owner(unid)) == Tally(rows, Owner(unid))
  {
    SumUpdate(rows, i, r, Owner(unid), Locked);
    SumUpdate(rows, i, r, Owner(unid), Debits);
    SumUpdate(rows, i, r, Owner(unid), Credits);
    SumUpdate(rows, i, r, Owner(unid), Amounts);
  }

  /** `unid = ? and code = ? and deleted = 0`: the row `create` looks for. */
  predicate Live(r: Row, unid: int, code: string) {
    r.unid == unid && r.code == code && r.deleted == 0
  }

  /** `findOrEmpty` on `(unid, code, deleted = 0)`: the first such row, if any. */
  function FindLive(rows: seq<Row>, unid: int, code: string): (k: Option<nat>)
    ensures k.Some? ==> k.value < |rows| && Live(rows[k.value], unid, code)
    ensures k.Some? ==> forall j :: 0 <= j < k.value ==> !Live(rows[j], unid, code)
    ensures k.None? ==> forall j :: 0 <= j < |rows| ==> !Live(rows[j], unid, code)
  {
    if rows == [] then None
    else if Live(rows[0], unid, code) then Some(0)
    else match FindLive(rows[1..], unid, code)
      case None => None
      case Some(k) => Some(k + 1)
  }

  /** `code = ? and deleted = 0`, whoever owns the row: the lookup of `get`. */
  predicate Named(r: Row, code: string) {
    r.code == code && r.deleted == 0
  }

  /** `findOrEmpty` on `(code, deleted = 0)`: the first such row, if any. */
  function FindCode(rows: seq<Row>, code: string): (k: Option<nat>)
    ensures k.Some? ==> k.value < |rows| && Named(rows[k.value], code)
    ensures k.Some? ==> forall j :: 0 <= j < k.value ==> !Named(rows[j], code)
    ensures k.None? ==> forall j :: 0 <= j < |rows| ==> !Named(rows[j], code)
  {
    if rows == [] then None
    else if Named(rows[0], code) then Some(0)
    else match FindCode(rows[1..], code)
      case None => None
      case Some(k) => Some(k + 1)
  }

  /** `get`'s lookup reads only the code and delete columns. */
  lemma {:induction false} FindCodeStable(a: seq<Row>, b: seq<Row>, code: string)
    requires |a| == |b|
    requires forall k :: 0 <= k < |a| ==> a[k].code == b[k].code && a[k].deleted == b[k].deleted
    ensures FindCode(a, code) == FindCode(b, code)
  {
    if a != [] {
      FindCodeStable(a[1..], b[1..], code);
    }
  }

  /** At most one non-deleted row per (unid, code). */
  ghost predicate UniqueLive(rows: seq<Row>) {
    forall i, j :: 0 <= i < j < |rows| && rows[i].deleted == 0 && rows[j].deleted == 0
      ==> !(rows[i].unid == rows[j].unid && rows[i].code == rows[j].code)
  }

  /** The index `create` writes to: the live row found, or a new one at the end. */
  function Slot(rows: seq<Row>, unid: int, code: string): (k: nat)
    ensures k <= |rows|
  {
    match FindLive(rows, unid, code)
    case Some(i) => i
    case None => |rows|
  }

  /**
   * The effect of `create`'s upsert on the projected columns: the live row of
   * (unid, code) takes the new amount and lock flag and keeps its cancel flag;
   * without one, an active row is appended.
   */
  function PutRow(rows: seq<Row>, unid: int, code: string, amount: int, unlock: int): seq<Row> {
    match FindLive(rows, unid, code)
    case Some(i) => rows[i := rows[i].(amount := amount, unlock := unlock)]
    case None => rows + [Row(unid, code, amount, unlock, 0, 0)]
  }

  /** After the upsert the first live row of (unid, code) holds the new values, and the cancel flag of an overwritten row is kept. */
  lemma PutLands(rows: seq<Row>, unid: int, code: string, amount: int, unlock: int)
    ensures var out := PutRow(rows, unid, code, amount, unlock);
            var k := Slot(rows, unid, code);
            && FindLive(out, unid, code) == Some(k)
            && out[k].amount == amount && out[k].unlock == unlock
            && out[k].cancel == (if k < |rows| then rows[k].cancel else 0)
            && forall j :: 0 <= j < |rows| && j != k ==> out[j] == rows[j]
  {
    var out := PutRow(rows, unid, code, amount, unlock);
    var k := Slot(rows, unid, code);
    assert Live(out[k], unid, code);
    assert forall j :: 0 <= j < k ==> out[j] == rows[j];
  }

  /** The upsert keeps (unid, code) unique among live rows. */
  lemma PutKeepsUnique(rows: seq<Row>, unid: int, code: string, amount: int, unlock: int)
    requires UniqueLive(rows)
    ensures UniqueLive(PutRow(rows, unid, code, amount, unlock))
  {
    var out := PutRow(rows, unid, code, amount, unlock);
    forall i, j | 0 <= i < j < |out| && out[i].deleted == 0 && out[j].deleted == 0
      ensures !(out[i].unid == out[j].unid && out[i].code == out[j].code)
    {
      if j == |rows| {
        assert FindLive(rows, unid, code).None?;
        assert !Live(rows[i], unid, code);
      }
    }
  }

  /** Upserting the same values twice is the same as upserting them once. */
  lemma PutIdempotent(rows: seq<Row>, unid: int, code: string, amount: int, unlock: int)
    ensures var once := PutRow(rows, unid, code, amount, unlock);
            PutRow(once, unid, code, amount, unlock) == once
  {
    PutLands(rows, unid, code, amount, unlock);
  }

  /**
   * The live sum of the account after the upsert: the new amount replaces the
   * overwritten row's part (nothing, if that row was cancelled).
   */
  lemma PutLiveSum(rows: seq<Row>, unid: int, code: string, amount: int, unlock: int)
    ensures var k := Slot(rows, unid, code);
            var before := Sum(rows, Owner(unid), Amounts);
            Sum(PutRow(rows, unid, code, amount, unlock), Owner(unid), Amounts)
              == if k == |rows| then before + amount
                 else if rows[k].cancel == 0 then before - rows[k].amount + amount
                 else before
  {
    match FindLive(rows, unid, code)
    case Some(i) =>
      SumUpdate(rows, i, rows[i].(amount := amount, unlock := unlock), Owner(unid), Amounts);
    case None =>
      SumAppend(rows, [Row(unid, code, amount, unlock, 0, 0)], Owner(unid), Amounts);
      SumOne(Row(unid, code, amount, unlock, 0, 0), Owner(unid), Amounts);
  }

  /** `amount < 0 && abs(amount) > usable`, usable being the live sum of the account. */
  predicate Short(rows: seq<Row>, unid: int, amount: int) {
    amount < 0 && Abs(amount) > Sum(rows, Owner(unid), Amounts)
  }

  /** A new code that passes the funds guard cannot drive a non-negative live sum below zero. */
  lemma GuardedCreateKeepsFunds(rows: seq<Row>, unid: int, code: string, amount: int, unlock: int)
    requires FindLive(rows, unid, code).None?
    requires !Short(rows, unid, amount)
    requires Sum(rows, Owner(unid), Amounts) >= 0
    ensures Sum(PutRow(rows, unid, code, amount, unlock), Owner(unid), Amounts) >= 0
  {
    PutLiveSum(rows, unid, code, amount, unlock);
  }

  /**
   * The guard counts the row that the upsert replaces: overwriting a credit of
   * 100 with a debit of 100 passes it and leaves the live sum at -100.
   */
  lemma OverwriteCanOverdraw()
    ensures var rows := [Row(7, "A1", 10000, 1, 0, 0)];
            && !Short(rows, 7, -10000)
            && Sum(PutRow(rows, 7, "A1", -10000, 1), Owner(7), Amounts) == -10000
  {
    var rows := [Row(7, "A1", 10000, 1, 0, 0)];
    SumOne(rows[0], Owner(7), Amounts);
    PutLiveSum(rows, 7, "A1", -10000, 1);
  }
}
