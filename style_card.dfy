/**
 * The style card of components/style-card.tsx: its usage label and the
 * delete action, which hides the card at once (an optimistic update), sends
 * the DELETE request and shows the card again if the request fails. The
 * confirmation dialog, the response and the thrown error are inputs.
 */
module StyleCard {
  import opened Options
  import opened Text
  import opened Json
  import opened Http

  const DELETE_FAILED := "Failed to delete style."
  const NEW_STYLE := "New style"
  const USES_SUFFIX := " uses"

  /** `uses > 0 ? `${uses} uses` : "New style"`. */
  function UsageLabel(uses: int): (r: string)
    ensures uses > 0 ==> r == NatToString(uses) + USES_SUFFIX
    ensures uses <= 0 ==> r == NEW_STYLE
  {
    if uses > 0 then IntToString(uses) + USES_SUFFIX else NEW_STYLE
  }

  /** The label says `New style` exactly for a style never used, and otherwise gives back its count. */
  lemma UsageLabelFaithful(uses: int)
    ensures UsageLabel(uses) == NEW_STYLE <==> uses <= 0
    ensures uses > 0 ==>
      var r := UsageLabel(uses);
      |r| > |USES_SUFFIX| && AllDigits(r[..|r| - |USES_SUFFIX|]) && DecimalValue(r[..|r| - |USES_SUFFIX|]) == uses
  {
    if uses > 0 {
      var r := UsageLabel(uses);
      var digits := NatToString(uses);
      assert r[..|r| - |USES_SUFFIX|] == digits;
      DecimalRoundTrip(uses);
      assert '0' <= r[0] <= '9';
    }
  }

  /** How the DELETE request ended. */
  datatype DeleteResult =
    /** A response arrived; `body` is its parsed JSON, `None` when `res.json()` rejects. */
    | Responded(status: nat, body: Option<Json>)
    /** `fetch` threw. */
    | Thrown

  /**
   * The alert after a response that is not ok: the body's `error` when it is
   * truthy, otherwise the default message. A body that is not an object has no
   * `error` (for `null` the read throws, and the catch shows the same default).
   */
  function FailureAlert(body: Option<Json>): (r: string)
    ensures body.Some? && TruthyOpt(Get(body.value, "error")) ==> r == ToText(Get(body.value, "error").value)
    ensures !(body.Some? && TruthyOpt(Get(body.value, "error"))) ==> r == DELETE_FAILED
  {
    var data := body.GetOr(JObj([]));
    var error := Get(data, "error");
    if TruthyOpt(error) then ToText(error.value) else DELETE_FAILED
  }

  class StyleCardView {
    const styleId: string
    const uses: int
    /** `localHidden`: while true the card renders nothing. */
    var localHidden: bool
    /** The ids whose DELETE request was sent, in order. */
    var requests: seq<string>
    /** The alerts shown, in order. */
    var alerts: seq<string>
    /** How many times `router.refresh()` was requested. */
    var refreshes: nat

    /** The card renders (`if (localHidden) return null`). */
    predicate Shown()
      reads this
    {
      !localHidden
    }

    constructor (styleId: string, uses: int)
      ensures this.styleId == styleId && this.uses == uses
      ensures Shown() && requests == [] && alerts == [] && refreshes == 0
    {
      this.styleId := styleId;
      this.uses := uses;
      localHidden := false;
      requests := [];
      alerts := [];
      refreshes := 0;
    }

    /**
     * The synchronous start of `handleDelete`, reachable only from a shown
     * card: a declined confirmation does nothing; otherwise the card is hidden
     * and then the request is sent.
     */
    method BeginDelete(confirmed: bool) returns (sent: bool)
      requires Shown()
      modifies this`localHidden, this`requests
      ensures sent == confirmed
      ensures !confirmed ==> Shown() && requests == old(requests)
      ensures confirmed ==> !Shown() && requests == old(requests) + [styleId]
    {
      if !confirmed {
        return false;
      }
      localHidden := true;
      assert !Shown();
      requests := requests + [styleId];
      sent := true;
    }

    /**
     * The rest of `handleDelete`, once the request settles: success keeps the
     * card hidden and refreshes the page; a response that is not ok or a thrown
     * error shows the card again and alerts.
     */
    method FinishDelete(result: DeleteResult)
      requires !Shown()
      modifies this`localHidden, this`alerts, this`refreshes
      ensures result.Responded? && IsOk(result.status) ==>
        !Shown() && alerts == old(alerts) && refreshes == old(refreshes) + 1
      ensures result.Responded? && !IsOk(result.status) ==>
        Shown() && alerts == old(alerts) + [FailureAlert(result.body)] && refreshes == old(refreshes)
      ensures result.Thrown? ==>
        Shown() && alerts == old(alerts) + [DELETE_FAILED] && refreshes == old(refreshes)
    {
      match result
      case Responded(status, body) =>
        if !IsOk(status) {
          localHidden := false;
          alerts := alerts + [FailureAlert(body)];
          return;
        }
        refreshes := refreshes + 1;
      case Thrown =>
        localHidden := false;
        alerts := alerts + [DELETE_FAILED];
    }

    /** The whole of `handleDelete`: the card ends hidden exactly when the user confirmed and the server deleted it. */
    method HandleDelete(confirmed: bool, result: DeleteResult)
      requires Shown()
      modifies this`localHidden, this`requests, this`alerts, this`refreshes
      ensures Shown() <==> !(confirmed && result.Responded? && IsOk(result.status))
      ensures requests == old(requests) + (if confirmed then [styleId] else [])
      ensures refreshes == old(refreshes) + (if confirmed && result.Responded? && IsOk(result.status) then 1 else 0)
      ensures alerts == old(alerts) +
        (if !confirmed || (result.Responded? && IsOk(result.status)) then []
         else if result.Thrown? then [DELETE_FAILED]
         else [FailureAlert(result.body)])
    {
      var sent := BeginDelete(confirmed);
      if sent {
        FinishDelete(result);
      }
    }
  }
}
