/**
 * The advisor panel: the `tips` and `loading` state, the
 * `lastTransactionCount` ref, the automatic fetch rule and the four views.
 *
 * A fetch is modelled as its two state updates around the awaited call
 * (BeginFetch, FinishFetch); fetches never overlap here.
 */
module SavingsTips {
  import opened Types
  import opened GeminiService

  datatype PanelView = Placeholder | Spinner | TipList(tips: seq<SavingsTip>) | ErrorMessage

  /** The panel body: placeholder, then spinner, then the tips, then the error text. */
  function ViewFor(count: nat, loading: bool, tips: seq<SavingsTip>): (v: PanelView)
    ensures v == Placeholder <==> count == 0
    ensures v == Spinner <==> count > 0 && loading
    ensures v == TipList(tips) <==> count > 0 && !loading && tips != []
    ensures v == ErrorMessage <==> count > 0 && !loading && tips == []
  {
    if count == 0 then Placeholder
    else if loading then Spinner
    else if |tips| > 0 then TipList(tips)
    else ErrorMessage
  }

  /**
   * `disabled={loading || transactions.length === 0}`: the button is enabled
   * exactly when the panel would show the error text for an empty tip list.
   */
  function AnalyzeDisabled(loading: bool, count: nat): (disabled: bool)
    ensures !disabled <==> ViewFor(count, loading, []) == ErrorMessage
  {
    loading || count == 0
  }

  /**
   * The effect's guard: a non-empty list whose length differs from the last
   * one seen, or a non-empty list while no tips are shown.
   */
  predicate ShouldFetch(count: nat, lastCount: nat, tips: seq<SavingsTip>): (fetch: bool)
    ensures count == 0 ==> !fetch
    ensures count > 0 && count != lastCount ==> fetch
    ensures count > 0 && count == lastCount ==> (fetch <==> tips == [])
  {
    (count > 0 && count != lastCount) || (count > 0 && tips == [])
  }

  /**
   * The effect only looks at the length: after the list is emptied and one
   * different transaction is added back, a panel that had seen one
   * transaction and still shows tips does not fetch, and keeps the old tips.
   */
  lemma RefillToSameLengthKeepsTips(tips: seq<SavingsTip>)
    requires tips != []
    ensures !ShouldFetch(0, 1, tips) && !ShouldFetch(1, 1, tips)
  {
  }

  /**
   * After a fetch the error text is shown exactly when the service answered
   * and its text, or "[]" in its place, parsed to the empty array: a failed
   * call or parse shows the fallback tip instead.
   */
  lemma ErrorViewOnlyAfterEmptyAnswer(txs: seq<Transaction>, symbol: string, numStr: real -> string,
                                      service: Request -> ServiceReply, parse: string -> Option<seq<SavingsTip>>)
    requires parse("[]") == Some([])
    requires |txs| > 0
    ensures var reply := service(RequestFor(txs, symbol, numStr));
      ViewFor(|txs|, false, TipsFor(txs, symbol, numStr, service, parse)) == ErrorMessage <==>
      reply.Replied? && parse(ResponseBody(reply.text)) == Some([])
  {
    EmptyTipsIff(service(RequestFor(txs, symbol, numStr)), parse);
  }

  class TipsPanel {
    var tips: seq<SavingsTip>
    var loading: bool
    var lastTransactionCount: nat

    /** Mounting: no tips, not loading, and the ref holds the current length. */
    constructor (count: nat)
      ensures tips == [] && !loading && lastTransactionCount == count
    {
      tips := [];
      loading := false;
      lastTransactionCount := count;
    }

    function View(count: nat): PanelView
      reads this
    {
      ViewFor(count, loading, tips)
    }

    /** `setLoading(true)` before the call is awaited. */
    method BeginFetch()
      modifies this
      ensures loading && tips == old(tips) && lastTransactionCount == old(lastTransactionCount)
      ensures forall n: nat :: n > 0 ==> View(n) == Spinner
    {
      loading := true;
    }

    /** `setTips(newTips); setLoading(false)` once the call settles. */
    method FinishFetch(newTips: seq<SavingsTip>)
      modifies this
      ensures !loading && tips == newTips && lastTransactionCount == old(lastTransactionCount)
    {
      tips := newTips;
      loading := false;
    }

    /**
     * `fetchTips`: nothing for an empty list; otherwise the tips become the
     * service result and loading ends. The error view can only follow an
     * answer that parsed to the empty array, never a failure.
     */
    method FetchTips(txs: seq<Transaction>, symbol: string, numStr: real -> string,
                     service: Request -> ServiceReply, parse: string -> Option<seq<SavingsTip>>)
      requires parse("[]") == Some([])
      modifies this
      ensures |txs| == 0 ==> unchanged(this)
      ensures |txs| > 0 ==>
        tips == TipsFor(txs, symbol, numStr, service, parse) && !loading &&
        lastTransactionCount == old(lastTransactionCount)
    {
      if |txs| > 0 {
        BeginFetch();
        var newTips := GetSavingsTips(txs, symbol, numStr, service, parse);
        FinishFetch(newTips);
      }
    }

    /** The Analyze button: it can only be pressed while enabled. */
    method PressAnalyze(txs: seq<Transaction>, symbol: string, numStr: real -> string,
                        service: Request -> ServiceReply, parse: string -> Option<seq<SavingsTip>>)
      returns (fetched: bool)
      requires parse("[]") == Some([])
      modifies this
      ensures fetched == !AnalyzeDisabled(old(loading), |txs|)
      ensures !fetched ==> unchanged(this)
      ensures fetched ==> tips == TipsFor(txs, symbol, numStr, service, parse) && !loading
      ensures lastTransactionCount == old(lastTransactionCount)
    {
      fetched := !AnalyzeDisabled(loading, |txs|);
      if fetched {
        FetchTips(txs, symbol, numStr, service, parse);
      }
    }

    /** The effect that runs on mount and whenever the list's length changes. */
    method CountChanged(txs: seq<Transaction>, symbol: string, numStr: real -> string,
                        service: Request -> ServiceReply, parse: string -> Option<seq<SavingsTip>>)
      returns (fetched: bool)
      requires parse("[]") == Some([])
      modifies this
      ensures fetched == ShouldFetch(|txs|, old(lastTransactionCount), old(tips))
      ensures fetched ==> tips == TipsFor(txs, symbol, numStr, service, parse) && !loading
      ensures fetched ==> lastTransactionCount == |txs|
      ensures !fetched ==> unchanged(this)
    {
      // Both branches of the effect do the same two things. `fetchTips()` is
      // not awaited, so the ref is updated before the fetch settles.
      fetched := ShouldFetch(|txs|, lastTransactionCount, tips);
      if fetched {
        lastTransactionCount := |txs|;
        FetchTips(txs, symbol, numStr, service, parse);
      }
    }
  }

  /**
   * Mounting with transactions already present runs the initial-load branch:
   * the length equals the ref, but no tips are shown yet.
   */
  method InitialLoad(txs: seq<Transaction>, symbol: string, numStr: real -> string,
                     service: Request -> ServiceReply, parse: string -> Option<seq<SavingsTip>>)
    returns (panel: TipsPanel)
    requires parse("[]") == Some([])
    requires |txs| > 0
    ensures panel.tips == TipsFor(txs, symbol, numStr, service, parse)
    ensures !panel.loading && panel.lastTransactionCount == |txs|
  {
    panel := new TipsPanel(|txs|);
    var fetched := panel.CountChanged(txs, symbol, numStr, service, parse);
    assert fetched;
  }
}
