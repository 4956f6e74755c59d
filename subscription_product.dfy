/**
 * The subscription-plan product extension and its four modes: Add (attach the
 * product to existing plans), Remove, Create and Edit. What the modes would
 * send to an app server is a stub in the extension; what remains is the
 * checkbox selection of Add, the plan form of Create and Edit, and the host
 * calls each mode's actions make.
 */
module SubscriptionProduct {
  import opened HostContainer

  type PlanId = string

  datatype Plan = Plan(name: string, id: PlanId)

  /** The plans Add offers as checkboxes. */
  const MockPlans: seq<Plan> :=
    [Plan("Subscription Plan A", "a"), Plan("Subscription Plan B", "b"), Plan("Subscription Plan C", "c")]

  /** `ids.filter((id) => id !== x)`: every occurrence of `x` removed. */
  function Without(ids: seq<PlanId>, x: PlanId): (r: seq<PlanId>)
    ensures x !in r
    ensures forall y :: y in r <==> y in ids && y != x
    ensures multiset(r) == multiset(ids)[x := 0]
  {
    if ids == [] then []
    else
      assert ids == [ids[0]] + ids[1..];
      (if ids[0] == x then [] else [ids[0]]) + Without(ids[1..], x)
  }

  /** Filtering distributes over concatenation, so the ids that remain keep their order. */
  lemma {:induction false} WithoutAppend(a: seq<PlanId>, b: seq<PlanId>, x: PlanId)
    ensures Without(a + b, x) == Without(a, x) + Without(b, x)
  {
    if a == [] {
      assert a + b == b;
    } else {
      assert (a + b)[0] == a[0] && (a + b)[1..] == a[1..] + b;
      WithoutAppend(a[1..], b, x);
    }
  }

  /** Filtering out an id that is not there changes nothing. */
  lemma {:induction false} WithoutAbsent(ids: seq<PlanId>, x: PlanId)
    requires x !in ids
    ensures Without(ids, x) == ids
  {
    if ids != [] {
      WithoutAbsent(ids[1..], x);
    }
  }

  /** The list a checkbox change computes: `checked ? selected.concat(id) : selected.filter(...)`. */
  function NextSelection(selected: seq<PlanId>, planId: PlanId, checked: bool): seq<PlanId>
  {
    if checked then selected + [planId] else Without(selected, planId)
  }

  /** Checking appends the plan id at the end and keeps every previous entry in place. */
  lemma CheckAppends(selected: seq<PlanId>, planId: PlanId)
    ensures var r := NextSelection(selected, planId, true);
            |r| == |selected| + 1 && r[..|selected|] == selected && r[|selected|] == planId
  {
    var r := NextSelection(selected, planId, true);
    assert r[..|selected|] == selected;
  }

  /** After a change the plan is shown checked exactly when the change was a check,
      and every other plan keeps its state. */
  lemma CheckedAfterChange(selected: seq<PlanId>, planId: PlanId, checked: bool, other: PlanId)
    requires other != planId
    ensures planId in NextSelection(selected, planId, checked) <==> checked
    ensures other in NextSelection(selected, planId, checked) <==> other in selected
  {
  }

  /** Add mode (modal). */
  class AddPlan {
    const primaryLabel: string := "Add to plan"
    var selectedPlans: seq<PlanId>
    var calls: seq<Call>

    ghost predicate Valid()
      reads this
    {
      Protocol(calls)
    }

    constructor ()
      ensures Valid()
      ensures selectedPlans == [] && calls == []
      ensures forall p :: p in MockPlans ==> !IsChecked(p)
    {
      selectedPlans := [];
      calls := [];
    }

    /** `checked={selectedPlans.includes(plan.id)}`. */
    predicate IsChecked(plan: Plan)
      reads this
    {
      plan.id in selectedPlans
    }

    /** A checkbox's onChange. */
    method OnCheckboxChange(plan: Plan, checked: bool)
      requires Valid()
      modifies this
      ensures Valid()
      ensures selectedPlans == NextSelection(old(selectedPlans), plan.id, checked)
      ensures IsChecked(plan) == checked
      ensures calls == old(calls)
    {
      selectedPlans := NextSelection(selectedPlans, plan.id, checked);
    }

    /** "Add to plan": fetch a token, then `done`. */
    method OnPrimaryAction()
      requires Valid()
      modifies this
      ensures Valid()
      ensures calls == old(calls) + PrimaryCalls
      ensures selectedPlans == old(selectedPlans)
    {
      ProtocolAfterPrimary(calls);
      calls := calls + [GetSessionToken];
      calls := calls + [Done];
      assert calls == old(calls) + PrimaryCalls;
    }

    /** "Cancel": `close` only. */
    method OnSecondaryAction()
      requires Valid()
      modifies this
      ensures Valid()
      ensures calls == old(calls) + SecondaryCalls
      ensures selectedPlans == old(selectedPlans)
    {
      ProtocolAfterSecondary(calls);
      calls := calls + [Close];
    }
  }

  /** Remove mode (modal): only the two actions. */
  class RemovePlan {
    const primaryLabel: string := "Remove from plan"
    var calls: seq<Call>

    ghost predicate Valid()
      reads this
    {
      Protocol(calls)
    }

    constructor ()
      ensures Valid() && calls == []
    {
      calls := [];
    }

    method OnPrimaryAction()
      requires Valid()
      modifies this
      ensures Valid()
      ensures calls == old(calls) + PrimaryCalls
    {
      ProtocolAfterPrimary(calls);
      calls := calls + [GetSessionToken];
      calls := calls + [Done];
      assert calls == old(calls) + PrimaryCalls;
    }

    method OnSecondaryAction()
      requires Valid()
      modifies this
      ensures Valid()
      ensures calls == old(calls) + SecondaryCalls
    {
      ProtocolAfterSecondary(calls);
      calls := calls + [Close];
    }
  }

  datatype FormMode = CreateMode | EditMode

  /** Create mode and Edit mode (app overlay): the same three-field plan form. */
  class PlanForm {
    const mode: FormMode
    var planTitle: string
    var deliveryFrequency: string
    var percentageOff: string
    var calls: seq<Call>

    ghost predicate Valid()
      reads this
    {
      Protocol(calls)
    }

    /** Create starts with every field empty. */
    constructor Create()
      ensures Valid() && mode == CreateMode && calls == []
      ensures planTitle == "" && deliveryFrequency == "" && percentageOff == ""
      ensures PrimaryLabel() == "Create plan"
    {
      mode := CreateMode;
      planTitle, deliveryFrequency, percentageOff := "", "", "";
      calls := [];
    }

    /** Edit starts from the current plan's values. */
    constructor Edit()
      ensures Valid() && mode == EditMode && calls == []
      ensures planTitle == "Current plan" && deliveryFrequency == "1" && percentageOff == "10"
      ensures PrimaryLabel() == "Edit plan"
    {
      mode := EditMode;
      planTitle, percentageOff, deliveryFrequency := "Current plan", "10", "1";
      calls := [];
    }

    /** The primary button's title in `Actions`. */
    function PrimaryLabel(): string
    {
      match mode
      case CreateMode => "Create plan"
      case EditMode => "Edit plan"
    }

    method SetPlanTitle(v: string)
      requires Valid()
      modifies this
      ensures Valid()
      ensures planTitle == v
      ensures deliveryFrequency == old(deliveryFrequency) && percentageOff == old(percentageOff)
      ensures calls == old(calls)
    {
      planTitle := v;
    }

    method SetDeliveryFrequency(v: string)
      requires Valid()
      modifies this
      ensures Valid()
      ensures deliveryFrequency == v
      ensures planTitle == old(planTitle) && percentageOff == old(percentageOff)
      ensures calls == old(calls)
    {
      deliveryFrequency := v;
    }

    method SetPercentageOff(v: string)
      requires Valid()
      modifies this
      ensures Valid()
      ensures percentageOff == v
      ensures planTitle == old(planTitle) && deliveryFrequency == old(deliveryFrequency)
      ensures calls == old(calls)
    {
      percentageOff := v;
    }

    /** `onPrimaryAction`: fetch a token, then `done`; the form values are not sent. */
    method OnPrimaryAction()
      requires Valid()
      modifies this
      ensures Valid()
      ensures calls == old(calls) + PrimaryCalls
      ensures planTitle == old(planTitle) && deliveryFrequency == old(deliveryFrequency)
      ensures percentageOff == old(percentageOff)
    {
      ProtocolAfterPrimary(calls);
      calls := calls + [GetSessionToken];
      calls := calls + [Done];
      assert calls == old(calls) + PrimaryCalls;
    }

    /** The Cancel button of `Actions`: `close` only. */
    method OnCancel()
      requires Valid()
      modifies this
      ensures Valid()
      ensures calls == old(calls) + SecondaryCalls
      ensures planTitle == old(planTitle) && deliveryFrequency == old(deliveryFrequency)
      ensures percentageOff == old(percentageOff)
    {
      ProtocolAfterSecondary(calls);
      calls := calls + [Close];
    }
  }

  /** In Add mode: check A, check B, uncheck A, then confirm. Only B stays selected,
      and the host sees one token fetch followed by `done`. */
  method AddScenario() returns (selected: seq<PlanId>, calls: seq<Call>)
    ensures selected == ["b"]
    ensures calls == [GetSessionToken, Done]
  {
    var add := new AddPlan();
    add.OnCheckboxChange(MockPlans[0], true);
    add.OnCheckboxChange(MockPlans[1], true);
    add.OnCheckboxChange(MockPlans[0], false);
    assert add.selectedPlans == Without(["a", "b"], "a");
    assert Without(["a", "b"], "a") == ["b"] by {
      assert ["a", "b"][1..] == ["b"];
      assert ["b"][1..] == [];
    }
    add.OnPrimaryAction();
    selected, calls := add.selectedPlans, add.calls;
  }

  /** Editing a plan and cancelling: the host only sees `close`, no token and no `done`. */
  method EditThenCancel(title: string)
    returns (calls: seq<Call>, planTitle: string, deliveryFrequency: string, percentageOff: string)
    ensures calls == [Close]
    ensures planTitle == title && deliveryFrequency == "1" && percentageOff == "10"
  {
    var form := new PlanForm.Edit();
    form.SetPlanTitle(title);
    form.OnCancel();
    calls, planTitle := form.calls, form.planTitle;
    deliveryFrequency, percentageOff := form.deliveryFrequency, form.percentageOff;
  }
}
