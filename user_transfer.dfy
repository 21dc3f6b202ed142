/** A row of the withdrawal (transfer job) table; amounts in cents. */
module PaymentTransfer {
  /**
   * `kind` is the table's `type` column. Status: 1 and 2 are awaiting audit,
   * 3 awaits payout, 4 awaits confirmation, 5 is settled and 0 failed.
   */
  datatype Job = Job(
    code: string, unid: int, kind: string, amount: int, charge: int, status: int,
    bankCode: string, bankUser: string, bankWseq: string,
    appid: string, openid: string, tradeNo: string, tradeTime: string,
    changeTime: string, changeDesc: string)
}

/** `UserTransfer`: the labels of the withdrawal channels and the per-user withdrawal sums. */
module UserTransfer {
  import opened Wrappers
  import opened Money
  import opened PaymentTransfer

  const Labels: map<string, string> := map[
    "wechat_wallet" := "提现到微信零钱（线上）",
    "wechat_qrcode" := "提现到微信收款码（线下）",
    "alipay_qrcode" := "提现到支付宝收款码（线下）",
    "alipay_account" := "提现到支付宝账户（线下）",
    "transfer_banks" := "提现到银行卡账户（线下）"]

  /** What `types` returns: the whole table, or one label. */
  datatype TypesReply = Table(labels: map<string, string>) | Label(text: string)

  /** `types(name)`: no name gives the table; a known name its label; an unknown name itself. */
  function Types(name: Option<string>): (r: TypesReply)
    ensures name.None? ==> r == Table(Labels)
    ensures name.Some? && name.value in Labels ==> r == Label(Labels[name.value])
    ensures name.Some? && name.value !in Labels ==> r == Label(name.value)
  {
    match name
    case None => Table(Labels)
    case Some(n) => Label(if n in Labels then Labels[n] else n)
  }

  /** The bank-card channel that the settlement pass pays out has no label and is shown by its name. */
  lemma BankChannelUnlabelled()
    ensures Types(Some("wechat_banks")) == Label("wechat_banks")
  {
    assert "wechat_banks" !in Labels;
  }

  /** The status ranges of `amount`. */
  datatype Band = Locks | Total | Count | Audit

  predicate InBand(status: int, b: Band) {
    match b
    case Locks => status == 3
    case Total => status >= 1
    case Count => status >= 4
    case Audit => 1 <= status < 3
  }

  /** `unid = ?` when `unid > 0`, every row otherwise. */
  predicate Owned(j: Job, unid: int) {
    unid > 0 ==> j.unid == unid
  }

  function BandSum(jobs: seq<Job>, unid: int, b: Band): int {
    if jobs == [] then 0
    else
      var last := jobs[|jobs| - 1];
      BandSum(jobs[..|jobs| - 1], unid, b) + (if Owned(last, unid) && InBand(last.status, b) then last.amount else 0)
  }

  /** `amount(unid)`'s result `[total, count, audit, locks]`. */
  datatype Summary = Summary(total: int, count: int, audit: int, locks: int)

  /** `amount(unid)`: the absolute value of each band's sum. */
  function Amount(jobs: seq<Job>, unid: int): (s: Summary)
    ensures s.total >= 0 && s.count >= 0 && s.audit >= 0 && s.locks >= 0
  {
    Summary(Abs(BandSum(jobs, unid, Total)), Abs(BandSum(jobs, unid, Count)),
            Abs(BandSum(jobs, unid, Audit)), Abs(BandSum(jobs, unid, Locks)))
  }

  /** The rows of one user. */
  function OwnedBy(jobs: seq<Job>, unid: int): seq<Job> {
    if jobs == [] then []
    else
      var last := jobs[|jobs| - 1];
      OwnedBy(jobs[..|jobs| - 1], unid) + (if last.unid == unid then [last] else [])
  }

  lemma {:induction false} BandSumAppend(a: seq<Job>, b: seq<Job>, unid: int, band: Band)
    ensures BandSum(a + b, unid, band) == BandSum(a, unid, band) + BandSum(b, unid, band)
    decreases |b|
  {
    if b == [] {
      assert a + b == a;
    } else {
      var n := |b| - 1;
      assert (a + b)[..|a + b| - 1] == a + b[..n];
      BandSumAppend(a, b[..n], unid, band);
    }
  }

  /** For a positive `unid` the sums range over that user's rows only. */
  lemma {:induction false} AmountRestricts(jobs: seq<Job>, unid: int)
    requires unid > 0
    ensures Amount(jobs, unid) == Amount(OwnedBy(jobs, unid), 0)
  {
    forall b: Band ensures BandSum(jobs, unid, b) == BandSum(OwnedBy(jobs, unid), 0, b) {
      OwnedSum(jobs, unid, b);
    }
  }

  lemma {:induction false} OwnedSum(jobs: seq<Job>, unid: int, b: Band)
    requires unid > 0
    ensures BandSum(jobs, unid, b) == BandSum(OwnedBy(jobs, unid), 0, b)
  {
    if jobs != [] {
      var init, last := jobs[..|jobs| - 1], jobs[|jobs| - 1];
      OwnedSum(init, unid, b);
      var tail := if last.unid == unid then [last] else [];
      assert OwnedBy(jobs, unid) == OwnedBy(init, unid) + tail;
      BandSumAppend(OwnedBy(init, unid), tail, 0, b);
      if last.unid == unid {
        assert tail[..0] == [];
        assert BandSum(tail, 0, b) == BandSum([], 0, b) + (if InBand(last.status, b) then last.amount else 0);
      } else {
        assert BandSum(tail, 0, b) == 0;
      }
    }
  }

  /** The bands {1, 2}, {3} and {4, ...} split {1, ...}. */
  lemma {:induction false} BandsPartition(jobs: seq<Job>, unid: int)
    ensures BandSum(jobs, unid, Total) == BandSum(jobs, unid, Audit) + BandSum(jobs, unid, Locks) + BandSum(jobs, unid, Count)
  {
    if jobs != [] {
      BandsPartition(jobs[..|jobs| - 1], unid);
    }
  }

  lemma {:induction false} BandSumNonNegative(jobs: seq<Job>, unid: int, b: Band)
    requires forall j :: j in jobs ==> j.amount >= 0
    ensures BandSum(jobs, unid, b) >= 0
  {
    if jobs != [] {
      assert jobs[|jobs| - 1] in jobs;
      assert forall j :: j in jobs[..|jobs| - 1] ==> j in jobs;
      BandSumNonNegative(jobs[..|jobs| - 1], unid, b);
    }
  }

  /** With non-negative amounts, `total = audit + locks + count`. */
  lemma AmountPartition(jobs: seq<Job>, unid: int)
    requires forall j :: j in jobs ==> j.amount >= 0
    ensures var s := Amount(jobs, unid);
            s.total == s.audit + s.locks + s.count
  {
    BandsPartition(jobs, unid);
    BandSumNonNegative(jobs, unid, Audit);
    BandSumNonNegative(jobs, unid, Locks);
    BandSumNonNegative(jobs, unid, Count);
  }
}
