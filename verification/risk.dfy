/** The risk gate of the pure-Python risk module: requests wrapped as
    approved or refused, and the default manager that approves everything. */
module Risk {

  /** `RiskApproved`: a request that passed the checks. */
  datatype Approved<T> = Approved(item: T)

  /** `RiskRefused`: a request that failed the checks, with the reason. */
  datatype Refused<T> = Refused(item: T, reason: string)

  /** `RiskApproved.into_item`. */
  function ApprovedIntoItem<T>(a: Approved<T>): (r: T)
    ensures Approved(r) == a
  {
    a.item
  }

  /** `RiskRefused.into_item`. */
  function RefusedIntoItem<T>(a: Refused<T>): (r: T)
    ensures Refused(r, a.reason) == a
  {
    a.item
  }

  /** Wrapping and unwrapping give back the request (and the reason), and
      equality of wrappers is equality of what they wrap. */
  lemma WrapperEquality<T>(x: T, y: T, rx: string, ry: string)
    ensures ApprovedIntoItem(Approved(x)) == x
    ensures RefusedIntoItem(Refused(x, rx)) == x && Refused(x, rx).reason == rx
    ensures Approved(x) == Approved(y) <==> x == y
    ensures Refused(x, rx) == Refused(y, ry) <==> x == y && rx == ry
  {
  }

  /** The four lists `check` returns. */
  datatype CheckOutput<C, O> = CheckOutput(
    approvedCancels: seq<Approved<C>>,
    approvedOpens: seq<Approved<O>>,
    refusedCancels: seq<Refused<C>>,
    refusedOpens: seq<Refused<O>>)

  /** The items of a list of approvals, in order. */
  function ApprovedItems<T>(xs: seq<Approved<T>>): (r: seq<T>)
    ensures |r| == |xs|
    ensures forall i :: 0 <= i < |xs| ==> Approved(r[i]) == xs[i]
  {
    if xs == [] then [] else [xs[0].item] + ApprovedItems(xs[1..])
  }

  /** The list comprehension `[RiskApproved(x) for x in xs]`. */
  function ApproveAll<T>(xs: seq<T>): (r: seq<Approved<T>>)
    ensures |r| == |xs|
    ensures forall i :: 0 <= i < |xs| ==> r[i] == Approved(xs[i])
  {
    if xs == [] then [] else [Approved(xs[0])] + ApproveAll(xs[1..])
  }

  /** Unwrapping every approval recovers the approved list exactly. */
  lemma {:induction false} ApproveAllRoundTrip<T>(xs: seq<T>)
    ensures ApprovedItems(ApproveAll(xs)) == xs
  {
    if xs != [] {
      ApproveAllRoundTrip(xs[1..]);
      assert ApproveAll(xs)[1..] == ApproveAll(xs[1..]);
    }
  }

  /** `DefaultRiskManager.check`: every cancel and every open is approved,
      in input order, and nothing is refused. The engine state is unused. */
  function DefaultCheck<S, C, O>(state: S, cancels: seq<C>, opens: seq<O>): (r: CheckOutput<C, O>)
    ensures |r.approvedCancels| + |r.refusedCancels| == |cancels|
    ensures |r.approvedOpens| + |r.refusedOpens| == |opens|
    ensures r.refusedCancels == [] && r.refusedOpens == []
    ensures forall i :: 0 <= i < |cancels| ==> r.approvedCancels[i].item == cancels[i]
    ensures forall i :: 0 <= i < |opens| ==> r.approvedOpens[i].item == opens[i]
  {
    CheckOutput(ApproveAll(cancels), ApproveAll(opens), [], [])
  }

  /** The approved items of the default check are its inputs. */
  lemma DefaultCheckApprovesInputs<S, C, O>(state: S, cancels: seq<C>, opens: seq<O>)
    ensures ApprovedItems(DefaultCheck(state, cancels, opens).approvedCancels) == cancels
    ensures ApprovedItems(DefaultCheck(state, cancels, opens).approvedOpens) == opens
  {
    ApproveAllRoundTrip(cancels);
    ApproveAllRoundTrip(opens);
  }
}
