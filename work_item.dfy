/** One billable line of an invoice, with the rounded hours and the total
    that the client's billing step fixes once. */
module WorkItems {
  import opened Wrappers
  import opened Pricing

  class WorkItem {
    const project: string
    const description: string
    const rate: real
    const hours: real
    /** None until set_rounded_hours runs. */
    var roundedHours: Option<real>
    /** None until set_total runs. */
    var total: Option<real>

    constructor (project: string, description: string, rate: real, hours: real)
      ensures View() == Billable(project, description, rate, hours)
      ensures roundedHours == None && total == None
    {
      this.project := project;
      this.description := description;
      this.rate := rate;
      this.hours := hours;
      roundedHours := None;
      total := None;
    }

    /** The fields that construction fixes and rounding leaves alone. */
    function View(): Billable
    {
      Billable(project, description, rate, hours)
    }

    /** True once both derived fields hold the values for the given step. */
    ghost predicate PricedAt(step: int)
      reads this
      requires step > 0
    {
      roundedHours == Some(RoundUpHours(hours, step)) &&
      total == Some(ItemTotal(rate, hours, step))
    }

    /** get_rounded_hours: the hours rounded up to the step. */
    function GetRoundedHours(timeStep: int): (r: real)
      reads this
      requires timeStep > 0
      ensures OnStep(r, timeStep) && hours <= r < hours + timeStep as real / 60.0
    {
      RoundUpHours(hours, timeStep)
    }

    /** get_total: the rate times the rounded hours. */
    function GetTotal(timeStep: int): (t: real)
      reads this
      requires timeStep > 0
      ensures t == rate * GetRoundedHours(timeStep)
      ensures rate >= 0.0 ==> rate * hours <= t <= rate * hours + rate * timeStep as real / 60.0
    {
      ItemTotalBounds(rate, hours, timeStep);
      ItemTotal(rate, hours, timeStep)
    }

    /** set_rounded_hours: caches the rounded hours; nothing else changes. */
    method SetRoundedHours(timeStep: int)
      requires timeStep > 0
      modifies this
      ensures roundedHours == Some(GetRoundedHours(timeStep))
      ensures total == old(total)
    {
      roundedHours := Some(GetRoundedHours(timeStep));
    }

    /** set_total: caches the total; nothing else changes. */
    method SetTotal(timeStep: int)
      requires timeStep > 0
      modifies this
      ensures total == Some(GetTotal(timeStep))
      ensures roundedHours == old(roundedHours)
    {
      total := Some(GetTotal(timeStep));
    }
  }

  /** The lines the items hold, in order. */
  function Views(items: seq<WorkItem>): seq<Billable>
  {
    if items == [] then [] else Views(items[..|items| - 1]) + [items[|items| - 1].View()]
  }

  /** Appending an item appends its view. */
  lemma ViewsAppend(items: seq<WorkItem>, item: WorkItem)
    ensures Views(items + [item]) == Views(items) + [item.View()]
  {
    assert (items + [item])[..|items|] == items;
  }

  /** The snapshot has one entry per item, each that item's view. */
  lemma {:induction false} ViewsAt(items: seq<WorkItem>)
    ensures |Views(items)| == |items|
    ensures forall i :: 0 <= i < |items| ==> Views(items)[i] == items[i].View()
  {
    if items != [] {
      var n := |items| - 1;
      ViewsAt(items[..n]);
      assert forall i :: 0 <= i < n ==> items[..n][i] == items[i];
    }
  }
}
