/**
 * The reconciliation rules of the wechat V2 payment channel: the acknowledgement
 * of payment and refund notifications and the update of the refund record, the
 * refund request with its zero-amount short-circuit, and the fee conversion and
 * success test of order creation.
 *
 * Amounts arrive as decimal yuan and are modelled as reals; the gateway wants
 * integer fen. The parent-class hooks (`updateAction`, `syncRefund`,
 * `createAction`, `checkLeaveAmount`, `withNotifyUrl`) and the SDK calls are
 * function parameters.
 */
module WechatPaymentV2 {
  import opened Wrappers

  /** `intval(x * 100)`: yuan to fen, truncated toward zero. */
  function Fen(x: real): (f: int)
    ensures x >= 0.0 ==> f >= 0 && f as real <= x * 100.0 < f as real + 1.0
    ensures x <= 0.0 ==> f <= 0 && f as real - 1.0 < x * 100.0 <= f as real
  {
    if x >= 0.0 then (x * 100.0).Floor else -((-x * 100.0).Floor)
  }

  /** A whole number of fen written as yuan converts back to itself. */
  lemma FenOfCents(c: int)
    ensures Fen(c as real / 100.0) == c
  {
    var x := c as real / 100.0;
    assert x * 100.0 == c as real;
    if c < 0 {
      assert -x * 100.0 == (-c) as real;
    }
  }

  /** A larger yuan amount never converts to fewer fen. */
  lemma FenMonotonic(x: real, y: real)
    requires x <= y
    ensures Fen(x) <= Fen(y)
  {
    if x >= 0.0 {
      assert Fen(x) as real <= x * 100.0 <= y * 100.0 < Fen(y) as real + 1.0;
    } else if y <= 0.0 {
      assert Fen(x) as real - 1.0 < x * 100.0 <= y * 100.0 <= Fen(y) as real;
    }
  }

  /** PHP `empty` on a string: "" and "0". */
  predicate Empty(s: string) {
    s == "" || s == "0"
  }

  // ----- notify -----

  /** The routing part of a notification: `scen` and the expected refund code `order`. */
  datatype Scene = Scene(scen: string, order: string)

  /** The decoded notification; the fields read through `??` are optional. */
  datatype Notice = Notice(
    returnCode: string, resultCode: string,
    outTradeNo: string, transactionId: string, cashFee: int, couponFee: int,
    refundStatus: Option<string>, outRefundNo: string, refundId: string, successTime: string,
    refundRecvAccout: Option<string>)

  /** The arguments of `updateAction` for a paid order, the fees in yuan. */
  datatype OrderUpdate = OrderUpdate(code: string, trade: string, amount: real, coupon: real)

  function UpdateOf(n: Notice): (u: OrderUpdate)
    ensures Fen(u.amount) == n.cashFee && Fen(u.coupon) == n.couponFee
  {
    FenOfCents(n.cashFee);
    FenOfCents(n.couponFee);
    OrderUpdate(n.outTradeNo, n.transactionId, n.cashFee as real / 100.0, n.couponFee as real / 100.0)
  }

  /** The answer to the gateway: an XML acknowledgement or a bare HTTP response. */
  datatype Ack = Xml(returnCode: string, returnMsg: string) | Http(body: string, status: int)

  const Accepted: Ack := Xml("SUCCESS", "OK")
  const UpdateFailed: Ack := Xml("ERROR", "数据更新失败")

  /** A paid-order notification: the order scene with both codes `SUCCESS`. */
  predicate OrderPaid(d: Scene, n: Notice) {
    d.scen == "order" && n.resultCode == "SUCCESS" && n.returnCode == "SUCCESS"
  }

  /** A completed-refund notification: the refund scene with refund status `SUCCESS`. */
  predicate RefundDone(d: Scene, n: Notice) {
    d.scen == "refund" && n.refundStatus.GetOr("") == "SUCCESS"
  }

  /** A row of the refund table, with the columns a notification writes. */
  datatype RefundRecord = RefundRecord(
    code: string, recordCode: string,
    refundTime: string, refundTrade: string, refundScode: string, refundStatus: int,
    refundNotify: string, refundAccount: string)

  /** `where(code)->findOrEmpty()`: the first row with this code. */
  function FindRefund(rs: seq<RefundRecord>, code: string): (k: Option<nat>)
    ensures k.Some? ==> k.value < |rs| && rs[k.value].code == code
    ensures k.Some? ==> forall j :: 0 <= j < k.value ==> rs[j].code != code
    ensures k.None? ==> forall j :: 0 <= j < |rs| ==> rs[j].code != code
  {
    if rs == [] then None
    else if rs[0].code == code then Some(0)
    else match FindRefund(rs[1..], code)
      case None => None
      case Some(k) => Some(k + 1)
  }

  /**
   * The refund row after a completed-refund notification. `formatTime` is the
   * `date(strtotime(...))` reformatting and `encode` the JSON encoding of the notice.
   */
  function Settled(r: RefundRecord, n: Notice, formatTime: string -> string, encode: Notice -> string): (s: RefundRecord)
    ensures s.code == r.code && s.recordCode == r.recordCode
    ensures s.refundStatus == 1 && s.refundTrade == n.refundId && s.refundScode == n.refundStatus.GetOr("")
    ensures s.refundAccount == (if n.refundRecvAccout.Some? then n.refundRecvAccout.value else "")
    ensures s.refundTime == formatTime(n.successTime) && s.refundNotify == encode(n)
  {
    r.(refundTime := formatTime(n.successTime), refundTrade := n.refundId,
       refundScode := n.refundStatus.GetOr(""), refundStatus := 1,
       refundNotify := encode(n), refundAccount := n.refundRecvAccout.GetOr(""))
  }

  class RefundTable {
    var records: seq<RefundRecord>

    constructor (records: seq<RefundRecord>)
      ensures this.records == records
    {
      this.records := records;
    }
  }

  /**
   * `notify(data, notify)`. `notify` has no `try`: an exception of a hook
   * propagates, and the gateway gets no acknowledgement (`Err` with its message).
   * `updateAction` books a paid order (`Ok(false)` is a refused booking);
   * `syncRefund` is called with the refund's record code after the row is saved,
   * and answers the message of its exception, if it throws. `synced` is the code
   * it was called with.
   */
  method Notify(table: RefundTable, data: Scene, n: Notice,
                updateAction: (OrderUpdate, Notice) -> Result<bool, string>,
                syncRefund: string -> Option<string>,
                formatTime: string -> string, encode: Notice -> string)
    returns (reply: Result<Ack, string>, synced: Option<string>)
    modifies table
    ensures OrderPaid(data, n) ==>
              && var booked := updateAction(UpdateOf(n), n);
              && (booked.Err? ==> reply == Err(booked.error))
              && (booked.Ok? ==> reply == Ok(if booked.value then Accepted else UpdateFailed))
              && synced.None? && table.records == old(table.records)
    ensures RefundDone(data, n) && data.order != n.outRefundNo ==>
              reply == Ok(Http("error", 500)) && synced.None? && table.records == old(table.records)
    ensures RefundDone(data, n) && data.order == n.outRefundNo && FindRefund(old(table.records), n.outRefundNo).None? ==>
              reply == Ok(UpdateFailed) && synced.None? && table.records == old(table.records)
    ensures RefundDone(data, n) && data.order == n.outRefundNo && FindRefund(old(table.records), n.outRefundNo).Some? ==>
              var i := FindRefund(old(table.records), n.outRefundNo).value;
              var rcode := old(table.records)[i].recordCode;
              && table.records == old(table.records)[i := Settled(old(table.records)[i], n, formatTime, encode)]
              && synced == Some(rcode)
              && reply == (if syncRefund(rcode).Some? then Err(syncRefund(rcode).value) else Ok(Accepted))
    ensures !OrderPaid(data, n) && !RefundDone(data, n) ==>
              reply == Ok(Accepted) && synced.None? && table.records == old(table.records)
  {
    synced := None;
    if OrderPaid(data, n) {
      var booked := updateAction(UpdateOf(n), n);
      if booked.Err? {
        return Err(booked.error), None;
      }
      if !booked.value {
        return Ok(UpdateFailed), None;
      }
    } else if RefundDone(data, n) {
      if data.order != n.outRefundNo {
        return Ok(Http("error", 500)), None;
      }
      var found := FindRefund(table.records, n.outRefundNo);
      if found.None? {
        return Ok(UpdateFailed), None;
      }
      var i := found.value;
      var record := table.records[i];
      table.records := table.records[i := Settled(table.records[i], n, formatTime, encode)];
      synced := Some(record.recordCode);
      var thrown := syncRefund(record.recordCode);
      if thrown.Some? {
        return Err(thrown.value), synced;
      }
    }
    reply := Ok(Accepted);
  }

  // ----- refund -----

  /** What `syncRefund(pcode, rcode, amount, reason)` hands back: the new refund code and the paid amount. */
  datatype Recorded = Recorded(rcode: string, paymentAmount: real)

  datatype RefundRequest = RefundRequest(
    outTradeNo: string, outRefundNo: string, totalFee: int, refundFee: int,
    notifyUrl: string, refundDesc: Option<string>)

  datatype RefundReply = RefundReply(returnCode: Option<string>, resultCode: Option<string>, errCodeDes: Option<string>)

  /** `return_code ?? result_code` is `SUCCESS` or `PROCESSING`. */
  predicate RefundAccepted(rep: RefundReply) {
    var code := if rep.returnCode.Some? then rep.returnCode else rep.resultCode;
    code == Some("SUCCESS") || code == Some("PROCESSING")
  }

  /** The message of the refusal: `err_code_des ?? result_code`. */
  function RefusalMessage(rep: RefundReply): string {
    if rep.errCodeDes.Some? then rep.errCodeDes.value else rep.resultCode.GetOr("")
  }

  /**
   * The result of `refund`, whether `syncRefund` was called (recording the
   * refund), and the request sent to the gateway, if any.
   */
  datatype RefundCall = RefundCall(result: Result<(int, string), string>, synced: bool, request: Option<RefundRequest>)

  function RefundRequestFor(pcode: string, amount: real, reason: string, rec: Recorded, notifyUrl: string -> string): (q: RefundRequest)
    ensures q.outTradeNo == pcode && q.outRefundNo == rec.rcode
    ensures q.refundFee == Fen(amount) && q.totalFee == Fen(rec.paymentAmount)
    ensures q.refundDesc.Some? <==> |reason| > 0
    ensures q.refundDesc.Some? ==> q.refundDesc.value == reason
  {
    RefundRequest(pcode, rec.rcode, Fen(rec.paymentAmount), Fen(amount), notifyUrl(rec.rcode),
                  if |reason| > 0 then Some(reason) else None)
  }

  /**
   * `refund(pcode, amount, reason, &rcode)`: nothing to do for a non-positive
   * amount; otherwise record the refund, send the request and accept on
   * `SUCCESS` or `PROCESSING`. An exception from a hook or the SDK becomes `Err`.
   */
  function Refund(pcode: string, amount: real, reason: string,
                  syncRefund: (string, real, string) -> Result<Recorded, string>,
                  notifyUrl: string -> string,
                  send: RefundRequest -> Result<RefundReply, string>): (r: RefundCall)
    ensures amount <= 0.0 ==> r == RefundCall(Ok((1, "无需退款！")), false, None)
    ensures amount > 0.0 ==> r.synced
    ensures r.request.Some? ==>
              && syncRefund(pcode, amount, reason).Ok?
              && r.request.value == RefundRequestFor(pcode, amount, reason, syncRefund(pcode, amount, reason).value, notifyUrl)
    ensures amount > 0.0 ==>
              (r.result.Ok? <==> r.request.Some? && send(r.request.value).Ok? && RefundAccepted(send(r.request.value).value))
    ensures amount > 0.0 && r.result.Ok? ==> r.result.value == (1, "已提交退款！")
    ensures amount > 0.0 && r.request.Some? && send(r.request.value).Ok? && !RefundAccepted(send(r.request.value).value) ==>
              r.result == Err(RefusalMessage(send(r.request.value).value))
    ensures amount > 0.0 ==> (r.request.Some? <==> syncRefund(pcode, amount, reason).Ok?)
    ensures amount > 0.0 && syncRefund(pcode, amount, reason).Err? ==> r.result == Err(syncRefund(pcode, amount, reason).error)
    ensures r.request.Some? && send(r.request.value).Err? ==> r.result == Err(send(r.request.value).error)
  {
    if amount <= 0.0 then RefundCall(Ok((1, "无需退款！")), false, None)
    else
      match syncRefund(pcode, amount, reason)
      case Err(m) => RefundCall(Err(m), true, None)
      case Ok(rec) =>
        var q := RefundRequestFor(pcode, amount, reason, rec, notifyUrl);
        match send(q)
        case Err(m) => RefundCall(Err(m), true, Some(q))
        case Ok(rep) =>
          if RefundAccepted(rep) then RefundCall(Ok((1, "已提交退款！")), true, Some(q))
          else RefundCall(Err(RefusalMessage(rep)), true, Some(q))
  }

  /** A refund of at most the paid amount asks for at most the paid fee. */
  lemma RefundWithinPayment(pcode: string, amount: real, reason: string, rec: Recorded, notifyUrl: string -> string)
    requires 0.0 < amount <= rec.paymentAmount
    ensures var q := RefundRequestFor(pcode, amount, reason, rec, notifyUrl);
            0 <= q.refundFee <= q.totalFee
  {
    FenMonotonic(amount, rec.paymentAmount);
  }

  // ----- create -----

  /** The request fields that come from the channel configuration and the hooks. */
  datatype Channel = Channel(cfgCode: string, tradeType: string, openid: string, payCode: string, notifyUrl: string, clientIp: string)

  datatype PrepayRequest = PrepayRequest(
    body: string, openid: Option<string>, attach: string, outTradeNo: string,
    tradeType: string, totalFee: int, notifyUrl: string, clientIp: string)

  datatype PrepayReply = PrepayReply(returnCode: string, resultCode: string, prepayId: Option<string>, errCodeDes: Option<string>)

  /** The payment parameters handed back: the JSAPI parameters of a prepay id, or the raw reply. */
  datatype PayParams = Jsapi(prepayId: string) | Raw(reply: PrepayReply)

  /** The arguments of `createAction`, which writes the payment record. */
  datatype PaymentAction = PaymentAction(orderNo: string, orderTitle: string, orderAmount: real, payCode: string, payAmount: real)

  /** `res->set(true, message, data, param)`; `data` is what `createAction` returned. */
  datatype Created = Created(message: string, data: string, params: PayParams)

  datatype CreateCall = CreateCall(result: Result<Created, string>, request: Option<PrepayRequest>)

  /**
   * The body is `orderTitle`, joined with `orderRemark` when that is not empty;
   * `orderRemark` is never assigned in `create`, so it is always empty.
   */
  function PrepayFor(ch: Channel, orderTitle: string, payAmount: real): (q: PrepayRequest)
    ensures q.body == orderTitle && q.totalFee == Fen(payAmount) && q.outTradeNo == ch.payCode
    ensures q.openid.None? <==> Empty(ch.openid)
  {
    var orderRemark := "";
    PrepayRequest(if Empty(orderRemark) then orderTitle else orderTitle + "-" + orderRemark,
                  if Empty(ch.openid) then None else Some(ch.openid),
                  ch.cfgCode, ch.payCode, ch.tradeType, Fen(payAmount), ch.notifyUrl, ch.clientIp)
  }

  /**
   * `create`: after the leave-amount check (`leave` is its exception message, if
   * it throws), request a prepay order; both codes `SUCCESS` records the payment
   * and succeeds, anything else fails with `err_code_des` or the default message.
   */
  function Create(ch: Channel, orderNo: string, orderTitle: string, orderAmount: real, payAmount: real, payRemark: string,
                  leave: Option<string>,
                  order: PrepayRequest -> Result<PrepayReply, string>,
                  createAction: PaymentAction -> Result<string, string>): (r: CreateCall)
    ensures leave.Some? ==> r == CreateCall(Err(leave.value), None)
    ensures leave.None? ==> r.request == Some(PrepayFor(ch, orderTitle, payAmount))
    ensures r.result.Ok? <==>
              && leave.None?
              && var q := order(PrepayFor(ch, orderTitle, payAmount));
              && q.Ok? && q.value.returnCode == "SUCCESS" && q.value.resultCode == "SUCCESS"
              && createAction(PaymentAction(orderNo, orderTitle, orderAmount, ch.payCode, payAmount)).Ok?
    ensures r.result.Ok? ==> r.result.value.message == "创建支付成功！"
    ensures leave.None? && order(PrepayFor(ch, orderTitle, payAmount)).Ok? ==>
              var rep := order(PrepayFor(ch, orderTitle, payAmount)).value;
              !(rep.returnCode == "SUCCESS" && rep.resultCode == "SUCCESS") ==>
                r.result == Err(rep.errCodeDes.GetOr("获取预支付码失败！"))
  {
    if leave.Some? then CreateCall(Err(leave.value), None)
    else
      var q := PrepayFor(ch, orderTitle, payAmount);
      match order(q)
      case Err(m) => CreateCall(Err(m), Some(q))
      case Ok(rep) =>
        if rep.returnCode == "SUCCESS" && rep.resultCode == "SUCCESS" then
          var params := if rep.prepayId.Some? then Jsapi(rep.prepayId.value) else Raw(rep);
          match createAction(PaymentAction(orderNo, orderTitle, orderAmount, ch.payCode, payAmount))
          case Err(m) => CreateCall(Err(m), Some(q))
          case Ok(data) => CreateCall(Ok(Created("创建支付成功！", data, params)), Some(q))
        else
          CreateCall(Err(rep.errCodeDes.GetOr("获取预支付码失败！")), Some(q))
  }

  /** `payRemark` reaches neither the request nor the result. */
  lemma CreateIgnoresRemark(ch: Channel, orderNo: string, orderTitle: string, orderAmount: real, payAmount: real,
                            remark1: string, remark2: string, leave: Option<string>,
                            order: PrepayRequest -> Result<PrepayReply, string>,
                            createAction: PaymentAction -> Result<string, string>)
    ensures Create(ch, orderNo, orderTitle, orderAmount, payAmount, remark1, leave, order, createAction)
         == Create(ch, orderNo, orderTitle, orderAmount, payAmount, remark2, leave, order, createAction)
  {
  }

  /** The fee of an order paid in whole fen is that number of fen. */
  lemma CreateFeeExact(ch: Channel, orderTitle: string, cents: int)
    ensures PrepayFor(ch, orderTitle, cents as real / 100.0).totalFee == cents
  {
    FenOfCents(cents);
  }
}
