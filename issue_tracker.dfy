/**
 * The product "issue tracker" admin action panel: a two-field form that
 * appends one issue record to the product's stored issue list and closes.
 */
module IssueTracker {

  datatype Option<T> = None | Some(value: T)

  /** One stored issue record. */
  datatype Issue = Issue(id: int, title: string, description: string, completed: bool)

  /** The `issue` form state; an `id` of None is JavaScript's `null`. */
  datatype Draft = Draft(title: string, description: string, id: Option<int>)

  /** The `formErrors` flags: true marks a field as invalid. */
  datatype FormErrors = FormErrors(title: bool, description: bool)

  /** The metafield the issue list is stored in. */
  const Namespace: string := "$app:issues"
  const Key: string := "issues"
  const ValueType: string := "json"

  /** The variables of the SetMetafield mutation; `value` is the whole list (its JSON text is abstracted away). */
  datatype MetafieldWrite =
    MetafieldWrite(ownerId: string, namespace: string, key: string, valueType: string, value: seq<Issue>)

  /** What the panel asks of the outside world, in order: a metafield write or the host's `close`. */
  datatype Effect = UpdateIssues(write: MetafieldWrite) | Close

  /** The payload of `updateIssues(id, newIssues)`. */
  function IssuesWrite(ownerId: string, issues: seq<Issue>): MetafieldWrite
  {
    MetafieldWrite(ownerId, Namespace, Key, ValueType, issues)
  }

  /** `generateId`: one more than the id of the LAST record, or 0 for an empty list. */
  function NextId(issues: seq<Issue>): int
  {
    if |issues| == 0 then 0 else issues[|issues| - 1].id + 1
  }

  /** `Boolean(title) && Boolean(description)`: both fields are non-empty. */
  predicate Complete(d: Draft)
  {
    d.title != "" && d.description != ""
  }

  /** The record a submit of `d` appends to `issues`. */
  function NewIssue(issues: seq<Issue>, d: Draft): Issue
  {
    Issue(NextId(issues), d.title, d.description, false)
  }

  /** Ids strictly increase along the list, as they do when every record was appended by a submit. */
  predicate IdsAscending(issues: seq<Issue>)
  {
    forall i :: 0 < i < |issues| ==> issues[i - 1].id < issues[i].id
  }

  /** The id is taken from the last record, not the largest: [0, 3] gives 4, [3, 0] gives 1. */
  lemma NextIdUsesLastNotMaximum()
    ensures NextId([Issue(0, "", "", false), Issue(3, "", "", false)]) == 4
    ensures NextId([Issue(3, "", "", false), Issue(0, "", "", false)]) == 1
  {
  }

  /** On a list whose ids are not ascending the generated id can repeat an existing one. */
  lemma OutOfOrderIdCollides()
    ensures var s := [Issue(1, "", "", false), Issue(0, "", "", false)];
            NextId(s) == s[0].id
  {
  }

  lemma {:induction false} AscendingBelowLast(issues: seq<Issue>, k: int)
    requires IdsAscending(issues)
    requires 0 <= k < |issues|
    ensures issues[k].id <= issues[|issues| - 1].id
    decreases |issues| - k
  {
    if k < |issues| - 1 {
      AscendingBelowLast(issues, k + 1);
    }
  }

  /** On an ascending list the generated id is larger than, hence different from, every stored id. */
  lemma NextIdFresh(issues: seq<Issue>)
    requires IdsAscending(issues)
    ensures forall k :: 0 <= k < |issues| ==> issues[k].id < NextId(issues)
  {
    forall k | 0 <= k < |issues|
      ensures issues[k].id < NextId(issues)
    {
      AscendingBelowLast(issues, k);
    }
  }

  /** Appending the submitted record keeps the ids ascending. */
  lemma AppendKeepsAscending(issues: seq<Issue>, d: Draft)
    requires IdsAscending(issues)
    ensures IdsAscending(issues + [NewIssue(issues, d)])
  {
    var s := issues + [NewIssue(issues, d)];
    forall i | 0 < i < |s|
      ensures s[i - 1].id < s[i].id
    {
      if i == |issues| {
        NextIdFresh(issues);
      }
    }
  }

  /** The remote metafields, as far as this panel sees them: one value per owner, namespace and key. */
  datatype MetafieldKey = MetafieldKey(ownerId: string, namespace: string, key: string)
  type MetafieldStore = map<MetafieldKey, seq<Issue>>

  /** `metafieldsSet`: the whole value is replaced; there is no merge. */
  function ApplyWrite(store: MetafieldStore, w: MetafieldWrite): MetafieldStore
  {
    store[MetafieldKey(w.ownerId, w.namespace, w.key) := w.value]
  }

  /** The effect of a run of effects on the store; `close` leaves it alone. */
  function ApplyEffects(store: MetafieldStore, effects: seq<Effect>): MetafieldStore
    decreases |effects|
  {
    if effects == [] then store
    else
      var next := match effects[0]
        case UpdateIssues(w) => ApplyWrite(store, w)
        case Close => store;
      ApplyEffects(next, effects[1..])
  }

  /** `getIssues(productId)`: the stored value, or None when the product has none. */
  function QueryIssues(store: MetafieldStore, productId: string): Option<seq<Issue>>
  {
    var k := MetafieldKey(productId, Namespace, Key);
    if k in store then Some(store[k]) else None
  }

  /** A write followed by a read of the same product gives back the written list, in order;
      other products keep what they had. */
  lemma WriteThenQuery(store: MetafieldStore, productId: string, other: string, issues: seq<Issue>)
    requires other != productId
    ensures QueryIssues(ApplyWrite(store, IssuesWrite(productId, issues)), productId) == Some(issues)
    ensures QueryIssues(ApplyWrite(store, IssuesWrite(productId, issues)), other) == QueryIssues(store, other)
  {
  }

  /** The panel component `App`. */
  class App {
    /** `data.selected[0].id`: the product the panel was opened on. */
    const productId: string
    var issue: Draft
    var allIssues: seq<Issue>
    var formErrors: Option<FormErrors>
    /** Writes and `close` calls made so far. */
    var effects: seq<Effect>

    /** Nothing ever assigns the draft's id, so the panel never edits an existing issue. */
    ghost predicate Valid()
      reads this
    {
      issue.id == None
    }

    constructor (productId: string)
      ensures Valid()
      ensures this.productId == productId
      ensures issue == Draft("", "", None) && allIssues == [] && formErrors == None && effects == []
    {
      this.productId := productId;
      issue := Draft("", "", None);
      allIssues := [];
      formErrors := None;
      effects := [];
    }

    /** `isEditing` is `id !== null`; with the id never set, the panel is always the create panel. */
    function PanelTitle(): (t: string)
      reads this
      ensures Valid() ==> t == "Create an issue"
    {
      if issue.id != None then "Edit your issue" else "Create an issue"
    }

    function PrimaryLabel(): (l: string)
      reads this
      ensures Valid() ==> l == "Create"
    {
      if issue.id != None then "Save" else "Create"
    }

    /** The message shown under the title field. */
    function TitleError(): Option<string>
      reads this
    {
      if formErrors.Some? && formErrors.value.title then Some("Please enter a title") else None
    }

    /** The message shown under the description field. */
    function DescriptionError(): Option<string>
      reads this
    {
      if formErrors.Some? && formErrors.value.description then Some("Please enter a description") else None
    }

    /** The load effect: the stored list replaces `allIssues` only when a value is present. */
    method OnLoad(stored: Option<seq<Issue>>)
      requires Valid()
      modifies this
      ensures Valid()
      ensures allIssues == if stored.Some? then stored.value else old(allIssues)
      ensures issue == old(issue) && formErrors == old(formErrors) && effects == old(effects)
    {
      if stored.Some? {
        allIssues := stored.value;
      }
    }

    /** The title field's onChange. */
    method OnTitleChange(val: string)
      requires Valid()
      modifies this
      ensures Valid()
      ensures issue.title == val
      ensures issue.description == old(issue.description) && issue.id == old(issue.id)
      ensures allIssues == old(allIssues) && formErrors == old(formErrors) && effects == old(effects)
    {
      issue := issue.(title := val);
    }

    /** The description field's onChange. */
    method OnDescriptionChange(val: string)
      requires Valid()
      modifies this
      ensures Valid()
      ensures issue.description == val
      ensures issue.title == old(issue.title) && issue.id == old(issue.id)
      ensures allIssues == old(allIssues) && formErrors == old(formErrors) && effects == old(effects)
    {
      issue := issue.(description := val);
    }

    /** `validateForm`: flags exactly the empty fields and reports whether none is empty. */
    method ValidateForm() returns (valid: bool)
      requires Valid()
      modifies this
      ensures Valid()
      ensures valid <==> Complete(issue)
      ensures formErrors.Some?
      ensures formErrors.value.title <==> issue.title == ""
      ensures formErrors.value.description <==> issue.description == ""
      ensures issue == old(issue) && allIssues == old(allIssues) && effects == old(effects)
    {
      formErrors := Some(FormErrors(issue.title == "", issue.description == ""));
      valid := issue.title != "" && issue.description != "";
    }

    /**
     * `onSubmit`: validate; on a complete form write the old list followed by
     * exactly one new record, then close. An incomplete form writes nothing and
     * does not close.
     */
    method OnSubmit()
      requires Valid()
      modifies this
      ensures Valid()
      ensures issue == old(issue) && allIssues == old(allIssues)
      ensures TitleError().Some? <==> issue.title == ""
      ensures DescriptionError().Some? <==> issue.description == ""
      ensures Complete(issue) ==>
        effects == old(effects) + [UpdateIssues(IssuesWrite(productId, allIssues + [NewIssue(allIssues, issue)])), Close]
      ensures !Complete(issue) ==> effects == old(effects)
    {
      var valid := ValidateForm();
      if valid {
        var newIssues := allIssues + [Issue(NextId(allIssues), issue.title, issue.description, false)];
        effects := effects + [UpdateIssues(IssuesWrite(productId, newIssues))];
        effects := effects + [Close];
      }
    }

    /** The Cancel button: `close` and nothing else. */
    method OnCancel()
      requires Valid()
      modifies this
      ensures Valid()
      ensures effects == old(effects) + [Close]
      ensures issue == old(issue) && allIssues == old(allIssues) && formErrors == old(formErrors)
    {
      effects := effects + [Close];
    }
  }

  /** A product with no stored issues; the user submits "Bug" / "Crashes". */
  method CreateFirstIssue(productId: string) returns (effects: seq<Effect>)
    ensures effects == [
      UpdateIssues(MetafieldWrite(productId, "$app:issues", "issues", "json", [Issue(0, "Bug", "Crashes", false)])),
      Close]
  {
    var app := new App(productId);
    app.OnLoad(None);
    app.OnTitleChange("Bug");
    app.OnDescriptionChange("Crashes");
    app.OnSubmit();
    assert app.allIssues + [NewIssue(app.allIssues, app.issue)] == [Issue(0, "Bug", "Crashes", false)];
    effects := app.effects;
  }

  /** Submitting with an empty title: nothing is written, the panel stays open and only the title is flagged. */
  method SubmitWithoutTitle(productId: string, stored: Option<seq<Issue>>, description: string)
    returns (effects: seq<Effect>, titleError: Option<string>, descriptionError: Option<string>)
    requires description != ""
    ensures effects == []
    ensures titleError == Some("Please enter a title") && descriptionError == None
  {
    var app := new App(productId);
    app.OnLoad(stored);
    app.OnDescriptionChange(description);
    app.OnSubmit();
    effects, titleError, descriptionError := app.effects, app.TitleError(), app.DescriptionError();
  }

  /** Stored ids [0, 3]: the new record gets id 4, after the two stored ones. */
  method SubmitAfterOutOfOrderIds(productId: string, title: string, description: string)
    returns (written: seq<Issue>)
    requires title != "" && description != ""
    ensures written == [Issue(0, "A", "a", false), Issue(3, "B", "b", false), Issue(4, title, description, false)]
  {
    var app := new App(productId);
    app.OnLoad(Some([Issue(0, "A", "a", false), Issue(3, "B", "b", false)]));
    app.OnTitleChange(title);
    app.OnDescriptionChange(description);
    app.OnSubmit();
    written := app.effects[0].write.value;
  }

  /**
   * Open the panel on a product, fill it in and submit, apply the effects to
   * the store, and open the panel again: the reloaded list is the list first
   * loaded plus the one new record (or the same list if the form was incomplete).
   */
  method SubmitThenReopen(store: MetafieldStore, productId: string, title: string, description: string)
    returns (before: seq<Issue>, after: seq<Issue>)
    ensures before == if QueryIssues(store, productId).Some? then QueryIssues(store, productId).value else []
    ensures title != "" && description != "" ==>
      after == before + [Issue(NextId(before), title, description, false)]
    ensures title == "" || description == "" ==> after == before
  {
    var app := new App(productId);
    app.OnLoad(QueryIssues(store, productId));
    app.OnTitleChange(title);
    app.OnDescriptionChange(description);
    before := app.allIssues;
    app.OnSubmit();
    var store' := ApplyEffects(store, app.effects);
    if Complete(app.issue) {
      var w := IssuesWrite(productId, before + [NewIssue(before, app.issue)]);
      assert app.effects == [UpdateIssues(w), Close];
      assert app.effects[1..] == [Close] && app.effects[1..][1..] == [];
      assert ApplyEffects(ApplyWrite(store, w), [Close]) == ApplyWrite(store, w) by {
        assert [Close][1..] == [];
      }
      assert store' == ApplyWrite(store, w);
    }
    var again := new App(productId);
    again.OnLoad(QueryIssues(store', productId));
    after := again.allIssues;
  }
}
