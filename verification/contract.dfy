/** Sign contracts (`ps.contract`) and their change orders: the revised
    contract amount and the retainage held back on it. */
module Contracts {
  import opened Sums

  datatype ChangeOrderState = CoDraft | CoSubmitted | CoApproved | CoRejected

  datatype ChangeOrder = ChangeOrder(amount: real, state: ChangeOrderState)

  datatype Contract = Contract(
    contractAmount: real, changeOrders: seq<ChangeOrder>,
    changeOrderTotal: real, revisedAmount: real,
    retainagePercent: real, retainageAmount: real)

  /** The retainage percentage a new contract starts with. */
  const DefaultRetainagePercent: real := 10.0

  /** A new contract for an amount: the default retainage, and nothing
      computed yet. */
  function NewContract(amount: real, cos: seq<ChangeOrder>): (c: Contract)
    ensures c.contractAmount == amount && c.changeOrders == cos
    ensures c.retainagePercent == DefaultRetainagePercent
  {
    Contract(amount, cos, 0.0, 0.0, DefaultRetainagePercent, 0.0)
  }

  function Amount(co: ChangeOrder): real { co.amount }

  /** `_compute_change_order_total`: the amounts of all change orders,
      whatever their state. */
  function ComputeChangeOrderTotal(c: Contract): (r: Contract)
    ensures r == c.(changeOrderTotal := Sum(c.changeOrders, Amount))
  {
    c.(changeOrderTotal := Sum(c.changeOrders, Amount))
  }

  /** `_compute_revised_amount`: the original amount plus the change
      orders. */
  function ComputeRevised(c: Contract): (r: Contract)
    ensures r == c.(revisedAmount := r.revisedAmount)
    ensures r.revisedAmount - c.changeOrderTotal == c.contractAmount
  {
    c.(revisedAmount := c.contractAmount + c.changeOrderTotal)
  }

  /** `_compute_retainage`: the retainage percentage of the revised
      amount. */
  function ComputeRetainage(c: Contract): (r: Contract)
    ensures r == c.(retainageAmount := r.retainageAmount)
    ensures r.retainageAmount * 100.0 == c.revisedAmount * c.retainagePercent
  {
    c.(retainageAmount := c.revisedAmount * (c.retainagePercent / 100.0))
  }

  /** The three computes in dependency order. */
  function Recompute(c: Contract): (r: Contract)
    ensures r.contractAmount == c.contractAmount && r.changeOrders == c.changeOrders
    ensures r.retainagePercent == c.retainagePercent
  {
    ComputeRetainage(ComputeRevised(ComputeChangeOrderTotal(c)))
  }

  /** Without change orders the revised amount is the original amount. */
  lemma NoChangeOrders(c: Contract)
    requires c.changeOrders == []
    ensures Recompute(c).revisedAmount == c.contractAmount
  {
  }

  /** A change order counts in the revised amount whatever its state: a
      draft or rejected change order raises it as much as an approved one. */
  lemma {:induction false} ChangeOrderStateIgnored(c: Contract, i: int, s: ChangeOrderState)
    requires 0 <= i < |c.changeOrders|
    ensures Recompute(c.(changeOrders := c.changeOrders[i := c.changeOrders[i].(state := s)])).revisedAmount
         == Recompute(c).revisedAmount
  {
    var cos := c.changeOrders;
    var cos' := cos[i := cos[i].(state := s)];
    assert cos == cos[..i] + [cos[i]] + cos[i + 1..];
    assert cos' == cos[..i] + [cos'[i]] + cos[i + 1..];
    SumAppend(cos[..i] + [cos[i]], cos[i + 1..], Amount);
    SumAppend(cos[..i], [cos[i]], Amount);
    SumAppend(cos[..i] + [cos'[i]], cos[i + 1..], Amount);
    SumAppend(cos[..i], [cos'[i]], Amount);
  }

  /** Adding a change order raises the revised amount by its amount. */
  lemma AddChangeOrder(c: Contract, co: ChangeOrder)
    ensures Recompute(c.(changeOrders := c.changeOrders + [co])).revisedAmount
         == Recompute(c).revisedAmount + co.amount
  {
    SumAppend(c.changeOrders, [co], Amount);
    assert Sum([co], Amount) == co.amount;
  }

  /** At the default percentage, a new contract holds back a tenth of its
      revised amount. */
  lemma DefaultRetainageIsTenth(amount: real, cos: seq<ChangeOrder>)
    ensures var r := Recompute(NewContract(amount, cos));
      r.retainageAmount * 10.0 == r.revisedAmount
  {
  }
}
