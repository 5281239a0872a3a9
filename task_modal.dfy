/** The validation rules of the bulk-task form in
    src/pages/message/bulk-tasks/task-modal.tsx. Each field's rule yields the
    message the form shows under it, or nothing when the field passes; the form
    submits when every field passes. */
module TaskModal {
  import opened Base

  /** The chosen target file; only its presence matters to the rules. */
  datatype FileRef = FileRef(name: string)

  /** The form values; `None` is a value that is undefined or null. The run time is
      an instant in milliseconds; the interval is the number typed, `None` when the
      input is empty. */
  datatype TaskForm = TaskForm(
    name: Option<string>,
    useTemplate: Option<int>,
    templateId: Option<string>,
    runAt: Option<int>,
    intervalMs: Option<int>,
    message: Option<string>,
    remark: Option<string>,
    file: Option<FileRef>)

  /** The two sending modes of the radio group. */
  const UseTemplateYes := 1
  const UseTemplateNo := 0

  const NameMaxLength := 20

  /** `{ useTemplate: 1, ...formValue }`. The spread copies every own key of
      `formValue`, so when it has a `useTemplate` key (`hasModeKey`) its value wins
      even when that value is undefined or null; only without the key does the
      mode default to 1. Without the key, `formValue.useTemplate` is not read. */
  function Defaults(formValue: TaskForm, hasModeKey: bool): (r: TaskForm)
    ensures r == formValue.(useTemplate := r.useTemplate)
    ensures hasModeKey ==> r.useTemplate == formValue.useTemplate
    ensures !hasModeKey ==> r.useTemplate == Some(UseTemplateYes)
    ensures r.useTemplate.None? <==> hasModeKey && formValue.useTemplate.None?
  {
    if hasModeKey then formValue else formValue.(useTemplate := Some(UseTemplateYes))
  }

  /** `.length` of a JavaScript string: characters outside the Basic Multilingual
      Plane take two UTF-16 code units. */
  function Utf16Length(s: string): (r: nat)
    ensures |s| <= r <= 2 * |s|
  {
    if s == [] then 0
    else (if s[0] as int >= 0x10000 then 2 else 1) + Utf16Length(s[1..])
  }

  /** `required`: undefined, null and the empty string fail it; white space does not. */
  predicate Filled(s: Option<string>)
  {
    s.Some? && s.value != ""
  }

  function NameError(name: Option<string>): (r: Option<string>)
    ensures r.None? <==> Filled(name) && Utf16Length(name.value) <= NameMaxLength
  {
    if !Filled(name) then Some("请输入任务名称")
    else if Utf16Length(name.value) > NameMaxLength then Some("任务名称不能超过 20 个字符")
    else None
  }

  /** The run time must be given and lie strictly after `now`. */
  function RunAtError(runAt: Option<int>, now: int): (r: Option<string>)
    ensures r.None? <==> runAt.Some? && runAt.value > now
  {
    if runAt.None? then Some("请选择执行时间")
    else if runAt.value > now then None
    else Some("执行时间必须大于当前时间")
  }

  /** The interval must be given and be at least 1; the `min` rule reports first. */
  function IntervalError(intervalMs: Option<int>): (r: Option<string>)
    ensures r.None? <==> intervalMs.Some? && intervalMs.value >= 1
  {
    if intervalMs.None? then Some("请输入执行间隔时间")
    else if intervalMs.value < 1 then Some("执行间隔不能小于 1 秒")
    else None
  }

  function UseTemplateError(useTemplate: Option<int>): (r: Option<string>)
    ensures r.None? <==> useTemplate.Some?
  {
    if useTemplate.None? then Some("请选择发送信息的方式") else None
  }

  /** A template is demanded only in template mode. */
  function TemplateIdError(useTemplate: Option<int>, templateId: Option<string>): (r: Option<string>)
    ensures r.None? <==> useTemplate != Some(UseTemplateYes) || Filled(templateId)
  {
    if useTemplate == Some(UseTemplateYes) && !Filled(templateId) then Some("请选择所属模板") else None
  }

  /** A text is demanded only in custom-text mode, and white space alone does not count. */
  function MessageError(useTemplate: Option<int>, message: Option<string>): (r: Option<string>)
    ensures r.None? <==> useTemplate != Some(UseTemplateNo) || (message.Some? && !IsBlank(message.value))
  {
    TrimEmptyIffBlank(if message.Some? then message.value else "");
    if useTemplate == Some(UseTemplateNo) && (message.None? || Trim(message.value) == "") then Some("请输入自定义文案")
    else None
  }

  function FileError(file: Option<FileRef>): (r: Option<string>)
    ensures r.None? <==> file.Some?
  {
    if file.None? then Some("请选择上传文件") else None
  }

  datatype FieldErrors = FieldErrors(
    name: Option<string>,
    runAt: Option<string>,
    intervalMs: Option<string>,
    useTemplate: Option<string>,
    templateId: Option<string>,
    message: Option<string>,
    file: Option<string>)

  /** The message each field shows, with the watched mode deciding the two
      conditional fields. */
  function Validate(form: TaskForm, now: int): (r: FieldErrors)
    ensures form.useTemplate != Some(UseTemplateYes) ==> r.templateId.None?
    ensures form.useTemplate != Some(UseTemplateNo) ==> r.message.None?
  {
    FieldErrors(
      NameError(form.name),
      RunAtError(form.runAt, now),
      IntervalError(form.intervalMs),
      UseTemplateError(form.useTemplate),
      TemplateIdError(form.useTemplate, form.templateId),
      MessageError(form.useTemplate, form.message),
      FileError(form.file))
  }

  function Submits(form: TaskForm, now: int): (r: bool)
    ensures r ==> form.runAt.Some? && form.intervalMs.Some? && form.useTemplate.Some? && form.file.Some?
  {
    Validate(form, now) == FieldErrors(None, None, None, None, None, None, None)
  }

  /** The form submits exactly when every rule holds. */
  lemma SubmitsIff(form: TaskForm, now: int)
    ensures Submits(form, now) <==>
      && Filled(form.name) && Utf16Length(form.name.value) <= NameMaxLength
      && form.runAt.Some? && form.runAt.value > now
      && form.intervalMs.Some? && form.intervalMs.value >= 1
      && form.useTemplate.Some?
      && (form.useTemplate == Some(UseTemplateYes) ==> Filled(form.templateId))
      && (form.useTemplate == Some(UseTemplateNo) ==> form.message.Some? && !IsBlank(form.message.value))
      && form.file.Some?
  {
  }

  /** In template mode the custom text is never checked, and in custom-text mode
      the template is never checked. */
  lemma ModesCheckOneSource(form: TaskForm)
    ensures form.useTemplate == Some(UseTemplateYes) ==> MessageError(form.useTemplate, form.message).None?
    ensures form.useTemplate == Some(UseTemplateNo) ==> TemplateIdError(form.useTemplate, form.templateId).None?
  {
  }

  /** White space lies in the Basic Multilingual Plane, so a blank string has one
      UTF-16 unit per character. */
  lemma {:induction false} BlankUtf16Length(s: string)
    requires IsBlank(s)
    ensures Utf16Length(s) == |s|
  {
    if s != [] {
      assert IsJsWhitespace(s[0]);
      assert IsBlank(s[1..]) by {
        forall i | 0 <= i < |s[1..]| ensures IsJsWhitespace(s[1..][i]) {
          assert s[1..][i] == s[i + 1];
        }
      }
      BlankUtf16Length(s[1..]);
    }
  }

  /** `required` does not trim: every non-empty white-space name of at most twenty
      characters passes the name rule. */
  lemma BlankNamePasses(name: string)
    requires name != [] && IsBlank(name) && |name| <= NameMaxLength
    ensures NameError(Some(name)).None?
  {
    BlankUtf16Length(name);
  }

  /** A name of twenty-one characters is too long. */
  lemma LongNameFails(name: string)
    requires |name| > NameMaxLength
    ensures NameError(Some(name)) == Some("任务名称不能超过 20 个字符")
  {
  }

  /** A form value whose `useTemplate` key holds undefined overrides the default,
      and the mode rule then reports it; without the key the default 1 passes. */
  lemma UndefinedModeKeyOverridesDefault(formValue: TaskForm)
    requires formValue.useTemplate.None?
    ensures UseTemplateError(Defaults(formValue, true).useTemplate) == Some("请选择发送信息的方式")
    ensures UseTemplateError(Defaults(formValue, false).useTemplate).None?
  {
  }
}
