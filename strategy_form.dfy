/**
 * The strategy-creation form's tag list: adding a normalised tag (at most
 * five), removing the tag at a position, and the submit guard that refuses
 * a strategy without tags.
 */
module StrategyForm {
  import opened Js
  import Marketplace

  type Condition = Marketplace.Condition
  type CreateInput = Marketplace.CreateInput

  const MaxTags := 5
  const NoTags := "Please add at least one tag"

  /** The tag input field and the tags added so far. */
  datatype Form = Form(tagInput: string, tags: seq<string>)

  /** The other form fields as submitted. */
  datatype FormData = FormData(title: string, description: string, riskLevel: string,
                               isPublic: bool, conditions: seq<Condition>)

  /** What a submit leads to: an error toast, or a publish request for this user and input. */
  datatype Submission = Refused(message: string) | Publish(userId: string, input: CreateInput)

  /**
   * `handleAddTag`: when the trimmed input is non-empty and fewer than five
   * tags exist, the trimmed, lower-cased input goes last and the input is
   * cleared; otherwise nothing changes. An equal tag already present is no
   * obstacle.
   */
  function AddTag(form: Form): (r: Form)
    ensures Trim(form.tagInput) != "" && |form.tags| < MaxTags ==>
              r == Form("", form.tags + [ToLower(Trim(form.tagInput))])
    ensures Trim(form.tagInput) == "" || |form.tags| >= MaxTags ==> r == form
  {
    if Trim(form.tagInput) != "" && |form.tags| < MaxTags then
      Form("", form.tags + [ToLower(Trim(form.tagInput))])
    else form
  }

  /** `handleRemoveTag(index)`: keeps every tag whose position differs from `index`. */
  function RemoveTag(tags: seq<string>, index: int): (r: seq<string>)
    ensures 0 <= index < |tags| ==> r == tags[..index] + tags[index + 1..]
    ensures !(0 <= index < |tags|) ==> r == tags
  {
    if tags == [] then []
    else
      var rest := RemoveTag(tags[1..], index - 1);
      if index == 0 then
        assert rest == tags[1..];
        rest
      else
        assert 0 < index < |tags| ==> tags[1..][..index - 1] + tags[1..][index..] == tags[1..index] + tags[index + 1..];
        [tags[0]] + rest
  }

  /** `onSubmit`: without tags an error and no publish; otherwise the fields and tags go to `publishStrategy`. */
  function Submit(data: FormData, tags: seq<string>): (s: Submission)
    ensures s.Refused? <==> tags == []
    ensures s.Refused? ==> s.message == NoTags
    ensures s.Publish? ==> s.userId == "user-demo" && s.input.tags == tags && s.input.title == data.title
                           && s.input.conditions == data.conditions && s.input.riskLevel == data.riskLevel
  {
    if |tags| == 0 then Refused(NoTags)
    else Publish("user-demo", Marketplace.CreateInput(data.title, data.description, data.conditions,
                                                      data.riskLevel, tags, data.isPublic))
  }

  // ----------------------------------------------------------- properties

  /** The user's actions on the tag area: typing into the input, the add button, a tag's remove button. */
  datatype Action = Type(text: string) | Add | Remove(index: int)

  function Step(form: Form, a: Action): Form
  {
    match a
    case Type(text) => form.(tagInput := text)
    case Add => AddTag(form)
    case Remove(index) => form.(tags := RemoveTag(form.tags, index))
  }

  function Run(form: Form, actions: seq<Action>): Form
    decreases |actions|
  {
    if actions == [] then form else Run(Step(form, actions[0]), actions[1..])
  }

  /** Starting from at most five tags, no sequence of actions produces more than five. */
  lemma {:induction false} TagsNeverExceedFive(form: Form, actions: seq<Action>)
    requires |form.tags| <= MaxTags
    ensures |Run(form, actions).tags| <= MaxTags
    decreases |actions|
  {
    if actions != [] {
      TagsNeverExceedFive(Step(form, actions[0]), actions[1..]);
    }
  }

  /** Every added tag is trimmed and lower case. */
  lemma AddedTagNormalised(form: Form)
    requires Trim(form.tagInput) != "" && |form.tags| < MaxTags
    ensures var t := AddTag(form).tags[|form.tags|];
            ToLower(t) == t && t == ToLower(Trim(form.tagInput))
  {
    ToLowerIdempotent(Trim(form.tagInput));
  }

  /** A tag equal to one already present, after normalising, is added a second time. */
  lemma DuplicateTagsAccepted()
    ensures AddTag(Form("X ", ["x"])).tags == ["x", "x"]
  {
    assert TrimStart("X ") == "X ";
    assert "X "[..1] == "X";
    assert TrimEnd("X ") == TrimEnd("X") == "X";
    assert Trim("X ") == "X";
    assert ToLower("X") == "x";
    assert AddTag(Form("X ", ["x"])) == Form("", ["x"] + ["x"]);
  }

  /** Removing a tag at a valid position shortens the list by one and keeps the rest in order. */
  lemma RemoveShortens(tags: seq<string>, index: int)
    requires 0 <= index < |tags|
    ensures |RemoveTag(tags, index)| == |tags| - 1
    ensures forall j :: 0 <= j < |tags| - 1 ==>
              RemoveTag(tags, index)[j] == (if j < index then tags[j] else tags[j + 1])
  {
  }
}
