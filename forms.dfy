/** The forms of adit_radis_shared/common/forms.py: how a recipient is
    labelled, the field limits of the broadcast form, and the helper that
    renders one filter field with a button and carries every other query
    parameter along as a hidden field. */
module Forms {
  import opened Wrappers
  import opened Text
  import opened Accounts

  /** `RecipientsField.label_from_instance`: `"username <email>"`. */
  function RecipientLabel(u: UserRow): (r: string)
    ensures |r| == |u.username| + |u.email| + 3
    ensures r[..|u.username|] == u.username
    ensures r[|u.username|..|u.username| + 2] == " <"
    ensures r[|u.username| + 2..|r| - 1] == u.email && r[|r| - 1] == '>'
  {
    u.username + " <" + u.email + ">"
  }

  /** The label gives the username and email back: Django's username
      validator admits no space, so the first space of the label ends the
      username. */
  lemma RecipientLabelInjective(a: UserRow, b: UserRow)
    requires ' ' !in a.username && ' ' !in b.username
    requires RecipientLabel(a) == RecipientLabel(b)
    ensures a.username == b.username && a.email == b.email
  {
    var la, lb := RecipientLabel(a), RecipientLabel(b);
    FirstSpaceEndsUsername(a);
    FirstSpaceEndsUsername(b);
    assert a.username == la[..|a.username|] == lb[..|b.username|] == b.username;
    assert a.email == la[|a.username| + 2..|la| - 1] == lb[|b.username| + 2..|lb| - 1] == b.email;
  }

  lemma FirstSpaceEndsUsername(u: UserRow)
    requires ' ' !in u.username
    ensures IndexOf(RecipientLabel(u), ' ') == |u.username|
  {
    var l := RecipientLabel(u);
    assert forall j :: 0 <= j < |u.username| ==> l[j] == u.username[j];
    IndexOfAfterFree(l, ' ', |u.username|);
  }

  const SubjectMaxLength := 200
  const MessageMaxLength := 10000

  /** What a required `CharField` with a maximum length reports: the
      value is missing, too long, or holds a null character (the validator
      every `CharField` carries after its length validator). */
  datatype CharError = Required | TooLong | NullCharacters

  /** The errors of one such field, in the order Django collects them, for
      its value after the field has stripped it; an empty value skips the
      validators. */
  function CharFieldErrors(stripped: string, maxLength: nat): (r: seq<CharError>)
    ensures stripped == [] ==> r == [Required]
    ensures Required in r <==> stripped == []
    ensures TooLong in r <==> |stripped| > maxLength
    ensures NullCharacters in r <==> stripped != [] && '\0' in stripped
    ensures r == [] <==> 0 < |stripped| <= maxLength && '\0' !in stripped
  {
    if stripped == [] then [Required]
    else (if |stripped| > maxLength then [TooLong] else []) + (if '\0' in stripped then [NullCharacters] else [])
  }

  /** Where the first selected id that names no user is, or `|ids|`. */
  function FirstUnknown(ids: seq<UserId>, users: set<UserId>): (i: nat)
    ensures i <= |ids|
    ensures i < |ids| ==> ids[i] !in users
    ensures forall j :: 0 <= j < i ==> ids[j] in users
  {
    if ids == [] then 0
    else if ids[0] !in users then 0
    else
      var i := 1 + FirstUnknown(ids[1..], users);
      assert forall j :: 1 <= j < i ==> ids[j] == ids[1..][j - 1];
      i
  }

  /** What the required `ModelMultipleChoiceField` of the recipients
      reports. */
  datatype RecipientsError = RecipientsRequired | InvalidChoice(id: UserId)

  /** The recipients' check: nothing selected is missing, and otherwise
      the first selected id outside the queryset, all users, is an invalid
      choice. */
  function RecipientsCheck(recipients: seq<UserId>, users: set<UserId>): (r: Option<RecipientsError>)
    ensures r == Some(RecipientsRequired) <==> recipients == []
    ensures r.None? <==> recipients != [] && forall k :: 0 <= k < |recipients| ==> recipients[k] in users
    ensures r.Some? && r.value.InvalidChoice? ==> r.value.id in recipients && r.value.id !in users
  {
    if recipients == [] then Some(RecipientsRequired)
    else
      var i := FirstUnknown(recipients, users);
      if i < |recipients| then Some(InvalidChoice(recipients[i])) else None
  }

  /** The errors of the three fields of `BroadcastForm`. */
  datatype BroadcastErrors = BroadcastErrors(recipients: Option<RecipientsError>, subject: seq<CharError>, message: seq<CharError>)

  /** `BroadcastForm` validation against the ids of the existing users:
      recipients are required and must exist, and subject and message are
      stripped, required, free of null characters and limited to 200 and
      10000 characters. */
  function ValidateBroadcast(recipients: seq<UserId>, users: set<UserId>, subject: string, message: string): (r: BroadcastErrors)
    ensures r.recipients == Some(RecipientsRequired) <==> recipients == []
    ensures Required in r.subject <==> Strip(subject) == []
    ensures TooLong in r.subject <==> |Strip(subject)| > SubjectMaxLength
    ensures Required in r.message <==> Strip(message) == []
    ensures TooLong in r.message <==> |Strip(message)| > MessageMaxLength
    ensures r == BroadcastErrors(None, [], []) <==>
      && recipients != [] && (forall k :: 0 <= k < |recipients| ==> recipients[k] in users)
      && 0 < |Strip(subject)| <= SubjectMaxLength && '\0' !in Strip(subject)
      && 0 < |Strip(message)| <= MessageMaxLength && '\0' !in Strip(message)
  {
    var strippedSubject, strippedMessage := Strip(subject), Strip(message);
    BroadcastErrors(RecipientsCheck(recipients, users), CharFieldErrors(strippedSubject, SubjectMaxLength),
                    CharFieldErrors(strippedMessage, MessageMaxLength))
  }

  // ---------------------------------------------------------------------
  // SingleFilterFieldFormHelper

  /** The parameters the helper walks: each key once, with what
      `params.get(key)` returns for it. */
  type Params = seq<(string, string)>

  /** The parameters carried as hidden fields: all but the filter field and
      "page", in parameter order. */
  function HiddenFields(params: Params, fieldName: string): (r: Params)
    ensures |r| <= |params|
    ensures forall p :: p in r <==> p in params && p.0 != fieldName && p.0 != "page"
  {
    if params == [] then []
    else
      var rest := HiddenFields(params[1..], fieldName);
      if params[0].0 != fieldName && params[0].0 != "page" then [params[0]] + rest else rest
  }

  /** Hidden fields keep the order of the parameters: those of a longer
      list of parameters extend those of its prefix. */
  lemma {:induction false} HiddenFieldsSnoc(params: Params, fieldName: string, p: (string, string))
    ensures HiddenFields(params + [p], fieldName)
            == HiddenFields(params, fieldName) + (if p.0 != fieldName && p.0 != "page" then [p] else [])
    decreases |params|
  {
    if params == [] {
      assert HiddenFields([p], fieldName) == (if p.0 != fieldName && p.0 != "page" then [p] else []) + HiddenFields([], fieldName);
    } else {
      assert (params + [p])[1..] == params[1..] + [p];
      HiddenFieldsSnoc(params[1..], fieldName, p);
    }
  }

  /** The loop of `__init__` that appends a `Hidden(key, params.get(key))`
      to the hidden-field `Div` for each parameter but the filter field and
      "page". */
  method CollectHidden(params: Params, fieldName: string) returns (hidden: Params)
    ensures hidden == HiddenFields(params, fieldName)
  {
    hidden := [];
    var i := 0;
    while i < |params|
      invariant 0 <= i <= |params|
      invariant hidden == HiddenFields(params[..i], fieldName)
    {
      var (key, value) := params[i];
      if key != fieldName && key != "page" {
        hidden := hidden + [(key, value)];
      }
      HiddenFieldsSnoc(params[..i], fieldName, params[i]);
      assert params[..i + 1] == params[..i] + [params[i]];
      i := i + 1;
    }
    assert params[..|params|] == params;
  }

  /** The two parts of the layout. */
  datatype LayoutPart = FieldWithButtons(fieldName: string, buttonLabel: string) | HiddenDiv

  const FieldClass := "form-control-sm"
  const SelectClasses := " form-select form-select-sm"

  /** A `SingleFilterFieldFormHelper`. */
  class FilterFormHelper {
    var formMethod: string
    var disableCsrf: bool
    var fieldName: string
    var fieldClass: string
    var layout: seq<LayoutPart>
    var hidden: Params

    /** `__init__(params, field_name, button_label)`. */
    constructor (params: Params, fieldName: string, buttonLabel: string)
      ensures formMethod == "get" && disableCsrf
      ensures this.fieldName == fieldName && fieldClass == FieldClass
      ensures layout == [FieldWithButtons(fieldName, buttonLabel), HiddenDiv]
      ensures hidden == HiddenFields(params, fieldName)
    {
      formMethod := "get";
      disableCsrf := true;
      this.fieldName := fieldName;
      fieldClass := FieldClass;
      layout := [FieldWithButtons(fieldName, buttonLabel)];
      layout := layout + [HiddenDiv];
      var collected := CollectHidden(params, fieldName);
      hidden := collected;
    }

    /** `render_layout(form)`, where `isChoiceField` says whether the form's
        field of that name is a `ChoiceField`: such a field gets the select
        classes added to its class, on every call. */
    method RenderLayout(isChoiceField: bool)
      modifies this
      ensures fieldClass == RenderedClass(old(fieldClass), isChoiceField)
      ensures formMethod == old(formMethod) && disableCsrf == old(disableCsrf) && fieldName == old(fieldName)
      ensures layout == old(layout) && hidden == old(hidden)
    {
      if isChoiceField {
        fieldClass := fieldClass + SelectClasses;
      }
    }
  }

  /** The field class after one rendering. */
  function RenderedClass(fieldClass: string, isChoiceField: bool): (r: string)
    ensures isChoiceField ==> |r| == |fieldClass| + |SelectClasses| && r[..|fieldClass|] == fieldClass
    ensures !isChoiceField ==> r == fieldClass
  {
    if isChoiceField then fieldClass + SelectClasses else fieldClass
  }

  /** Rendering a choice field is not idempotent: every rendering makes the
      class longer. */
  lemma RenderingNotIdempotent(fieldClass: string)
    ensures RenderedClass(RenderedClass(fieldClass, true), true) != RenderedClass(fieldClass, true)
    ensures |RenderedClass(RenderedClass(fieldClass, true), true)| == |fieldClass| + 2 * |SelectClasses|
  {
  }
}
