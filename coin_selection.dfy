/**
 * The single-input, no-change coin selector (`UnspentOutputSelectorSingleNoChange`):
 * it looks for one spendable output that pays the value and the fee and leaves a
 * surplus too small to be worth a change output.
 */
module CoinSelection {
  import opened Common

  /**
   * The transaction size calculator the selector is built with. Its implementation is
   * not part of this model: each size is an arbitrary natural number.
   */
  datatype SizeCalculator = SizeCalculator(
    inputSize: ScriptType -> nat,
    outputSize: ScriptType -> nat,
    transactionSize: (seq<ScriptType>, seq<ScriptType>, int) -> nat)

  /** A spendable output of the provider's snapshot. */
  datatype UnspentOutput = UnspentOutput(value: int, scriptType: ScriptType, index: nat)

  /** What a successful selection reports. */
  datatype SelectedUnspentOutputInfo = SelectedUnspentOutputInfo(
    unspentOutputs: seq<UnspentOutput>,
    totalValue: int,
    fee: int,
    addChangeOutput: bool)

  /** The errors `select` throws. */
  datatype SendValueError = WrongValue | EmptyOutputs | NotEnough(maxFee: int)

  datatype SelectResult = Selected(info: SelectedUnspentOutputInfo) | Failed(error: SendValueError)

  /** The arguments of one `select` call. */
  datatype Request = Request(
    value: int,
    feeRate: int,
    outputScriptType: ScriptType,
    changeType: ScriptType,
    senderPay: bool,
    pluginDataOutputSize: int)

  /** The cost of adding a change output and spending it later, at the requested fee rate. */
  function Dust(sizes: SizeCalculator, req: Request): (r: int)
    ensures req.feeRate >= 0 ==> r >= 0
    ensures req.feeRate == 0 ==> r == 0
  {
    (sizes.inputSize(req.changeType) + sizes.outputSize(req.changeType)) * req.feeRate
  }

  /** The fee of a transaction spending `u` alone into one output of the requested type. */
  function Fee(sizes: SizeCalculator, req: Request, u: UnspentOutput): (r: int)
    ensures req.feeRate >= 0 ==> r >= 0
    ensures req.feeRate == 0 ==> r == 0
  {
    sizes.transactionSize([u.scriptType], [req.outputScriptType], req.pluginDataOutputSize) * req.feeRate
  }

  /** What `u` must cover beyond the value: the fee when the sender pays it, nothing otherwise. */
  function TotalFee(sizes: SizeCalculator, req: Request, u: UnspentOutput): int {
    if req.senderPay then Fee(sizes, req, u) else 0
  }

  /** `u` covers the value and its fee, and what is left over is less than the dust bound.
    * The window is empty unless the dust bound, and so the fee rate, is positive. */
  predicate Fits(sizes: SizeCalculator, req: Request, u: UnspentOutput)
    ensures Fits(sizes, req, u) ==> Dust(sizes, req) > 0 && req.feeRate > 0
  {
    req.value + TotalFee(sizes, req, u) <= u.value < req.value + TotalFee(sizes, req, u) + Dust(sizes, req)
  }

  /** The position of the first output that fits, in snapshot order. */
  function FirstFit(sizes: SizeCalculator, req: Request, outputs: seq<UnspentOutput>): (r: Option<nat>)
    ensures r.Some? ==> r.value < |outputs| && Fits(sizes, req, outputs[r.value])
    ensures r.Some? ==> forall j :: 0 <= j < r.value ==> !Fits(sizes, req, outputs[j])
    ensures r.None? ==> forall j :: 0 <= j < |outputs| ==> !Fits(sizes, req, outputs[j])
  {
    if |outputs| == 0 then None
    else if Fits(sizes, req, outputs[0]) then Some(0)
    else
      match FirstFit(sizes, req, outputs[1..])
      case None => None
      case Some(k) => Some(k + 1)
  }

  /** The report for choosing `u`: it alone, its value, the fee as the payer sees it, no change. */
  function SingleOutputInfo(sizes: SizeCalculator, req: Request, u: UnspentOutput): SelectedUnspentOutputInfo {
    SelectedUnspentOutputInfo(
      [u], u.value, if req.senderPay then u.value - req.value else Fee(sizes, req, u), false)
  }

  /**
   * `select(value:feeRate:outputScriptType:changeType:senderPay:pluginDataOutputSize:)` over the
   * snapshot `unspentOutputs` of `provider.spendableUtxo`.
   */
  function Select(sizes: SizeCalculator, req: Request, unspentOutputs: seq<UnspentOutput>): (r: SelectResult)
    ensures r.Selected? || r == Failed(WrongValue) || r == Failed(EmptyOutputs) || r == Failed(NotEnough(0))
    ensures r == Failed(WrongValue) <==> req.value <= 0
    ensures r == Failed(EmptyOutputs) <==> req.value > 0 && |unspentOutputs| == 0
    ensures r == Failed(NotEnough(0)) <==>
      req.value > 0 && |unspentOutputs| > 0 && forall u :: u in unspentOutputs ==> !Fits(sizes, req, u)
    ensures r.Selected? ==>
      exists i :: 0 <= i < |unspentOutputs|
        && Fits(sizes, req, unspentOutputs[i])
        && (forall j :: 0 <= j < i ==> !Fits(sizes, req, unspentOutputs[j]))
        && r.info.unspentOutputs == [unspentOutputs[i]]
        && r.info.totalValue == unspentOutputs[i].value
        && r.info.fee == (if req.senderPay then unspentOutputs[i].value - req.value else Fee(sizes, req, unspentOutputs[i]))
        && !r.info.addChangeOutput
  {
    if req.value <= 0 then Failed(WrongValue)
    else if |unspentOutputs| == 0 then Failed(EmptyOutputs)
    else
      match FirstFit(sizes, req, unspentOutputs)
      case None => Failed(NotEnough(0))
      case Some(i) => Selected(SingleOutputInfo(sizes, req, unspentOutputs[i]))
  }

  /**
   * A selection pays the value and the fee, leaves less than the dust bound unspent, and
   * reports a fee that makes the books balance when the sender pays.
   */
  lemma SelectedCoversValueAndFee(sizes: SizeCalculator, req: Request, unspentOutputs: seq<UnspentOutput>)
    requires Select(sizes, req, unspentOutputs).Selected?
    ensures var info := Select(sizes, req, unspentOutputs).info;
      var u := info.unspentOutputs[0];
      && |info.unspentOutputs| == 1
      && u in unspentOutputs
      && req.value + TotalFee(sizes, req, u) <= info.totalValue < req.value + TotalFee(sizes, req, u) + Dust(sizes, req)
      && (req.senderPay ==> info.totalValue == req.value + info.fee && info.fee >= Fee(sizes, req, u))
      && (!req.senderPay ==> info.fee == Fee(sizes, req, u))
  {
  }

  lemma {:induction false} FirstFitAppendFound(sizes: SizeCalculator, req: Request, s: seq<UnspentOutput>, t: seq<UnspentOutput>)
    requires FirstFit(sizes, req, s).Some?
    ensures FirstFit(sizes, req, s + t) == FirstFit(sizes, req, s)
  {
    if !Fits(sizes, req, s[0]) {
      assert (s + t)[1..] == s[1..] + t;
      FirstFitAppendFound(sizes, req, s[1..], t);
    }
  }

  lemma {:induction false} FirstFitAppendMissed(sizes: SizeCalculator, req: Request, s: seq<UnspentOutput>, t: seq<UnspentOutput>)
    requires FirstFit(sizes, req, s).None?
    ensures FirstFit(sizes, req, s + t) ==
      match FirstFit(sizes, req, t) case None => None case Some(k) => Some(|s| + k)
  {
    if s == [] {
      assert s + t == t;
    } else {
      assert (s + t)[1..] == s[1..] + t;
      FirstFitAppendMissed(sizes, req, s[1..], t);
    }
  }

  /** Outputs after the first one that fits never change the selection. */
  lemma SelectIgnoresLaterOutputs(sizes: SizeCalculator, req: Request, s: seq<UnspentOutput>, t: seq<UnspentOutput>)
    requires Select(sizes, req, s).Selected?
    ensures Select(sizes, req, s + t) == Select(sizes, req, s)
  {
    FirstFitAppendFound(sizes, req, s, t);
  }

  /** Outputs that do not fit are passed over: the selection is made among those that follow. */
  lemma SelectSkipsUnfitOutputs(sizes: SizeCalculator, req: Request, s: seq<UnspentOutput>, t: seq<UnspentOutput>)
    requires forall u :: u in s ==> !Fits(sizes, req, u)
    requires t != []
    ensures Select(sizes, req, s + t) == Select(sizes, req, t)
  {
    FirstFitAppendMissed(sizes, req, s, t);
    if FirstFit(sizes, req, t).Some? {
      assert (s + t)[|s| + FirstFit(sizes, req, t).value] == t[FirstFit(sizes, req, t).value];
    }
  }

  /**
   * Worked case: value 50000, a fee of 150 when the sender pays and a dust bound of 200;
   * an output of 50200 is taken and the sender pays 200.
   */
  lemma SenderPaysSurplusExample()
    ensures
      var sizes := SizeCalculator(t => 100, t => 100, (ins, outs, extra) => 150);
      var req := Request(50000, 1, P2PKH, P2PKH, true, 0);
      var u := UnspentOutput(50200, P2PKH, 0);
      Select(sizes, req, [u]) == Selected(SelectedUnspentOutputInfo([u], 50200, 200, false))
  {
  }

  /** With the recipient paying, the computed fee is reported and no fee is added to the value. */
  lemma RecipientPaysExample()
    ensures
      var sizes := SizeCalculator(t => 100, t => 100, (ins, outs, extra) => 150);
      var req := Request(50000, 1, P2PKH, P2PKH, false, 0);
      var small := UnspentOutput(49999, P2PKH, 0);
      var big := UnspentOutput(50300, P2PKH, 1);
      var exact := UnspentOutput(50000, P2WPKH, 2);
      Select(sizes, req, [small, big, exact]) == Selected(SelectedUnspentOutputInfo([exact], 50000, 150, false))
  {
  }
}
