/** The bulk-task page of src/pages/message/bulk-tasks/index.tsx: the status
    badge with its fallback, which row actions each status offers, the request the
    submit handler sends, and the page state around the modals. */
module BulkTasks {
  import opened Base
  import TaskModal

  datatype BadgeColor = DefaultColor | SuccessColor | WarningColor | ErrorColor | InfoColor | CancelColor

  datatype StatusBadge = StatusBadge(text: string, color: BadgeColor)

  /** TASK_STATUS_MAP: the five statuses the page knows. */
  function KnownBadge(status: string): (r: Option<StatusBadge>)
    ensures r.Some? <==> status in {"pending", "processing", "completed", "failed", "cancelled"}
  {
    if status == "pending" then Some(StatusBadge("等待中", WarningColor))
    else if status == "processing" then Some(StatusBadge("处理中", InfoColor))
    else if status == "completed" then Some(StatusBadge("已完成", SuccessColor))
    else if status == "failed" then Some(StatusBadge("失败", ErrorColor))
    else if status == "cancelled" then Some(StatusBadge("已取消", CancelColor))
    else None
  }

  /** The status column: the known badge, else the raw status in the default colour. */
  function BadgeOf(status: string): (r: StatusBadge)
    ensures KnownBadge(status).Some? ==> r == KnownBadge(status).value
    ensures KnownBadge(status).None? ==> r == StatusBadge(status, DefaultColor)
    ensures r.color == DefaultColor <==> KnownBadge(status).None?
  {
    match KnownBadge(status)
    case Some(b) => b
    case None => StatusBadge(status, DefaultColor)
  }

  /** The cancel action is offered for a task that has not finished. */
  function CanCancel(status: string): (r: bool)
    ensures r ==> KnownBadge(status).Some?
  {
    status == "pending" || status == "processing"
  }

  /** The progress action is offered for a running task. */
  function CanViewProgress(status: string): (r: bool)
    ensures r ==> CanCancel(status)
  {
    status == "processing"
  }

  /** A task whose progress can be watched can also be cancelled, and the actions
      appear only for the statuses drawn in the warning and info colours. */
  lemma ActionsFollowStatus(status: string)
    ensures CanViewProgress(status) ==> CanCancel(status)
    ensures CanCancel(status) <==> BadgeOf(status).color == WarningColor || BadgeOf(status).color == InfoColor
    ensures CanViewProgress(status) <==> BadgeOf(status).color == InfoColor
  {
  }

  // ---------------------------------------------------------------------------
  // The submit handler

  /** What the modal hands to the page: the form values and, when editing, an id. */
  datatype SubmitData = SubmitData(id: Option<string>, form: TaskModal.TaskForm)

  /** The message source of a new task: a template or a custom text. */
  datatype Source = TemplateSource(templateId: Option<string>) | TextSource(message: Option<string>)

  datatype CreatePayload = CreatePayload(
    name: Option<string>,
    useTemplate: Option<int>,
    taskType: string,
    runAt: Option<int>,
    intervalMs: Option<int>,
    remark: Option<string>,
    source: Source)

  datatype TaskRequest =
    | UpdateTask(id: string, name: Option<string>)
    | CreateTask(file: Option<TaskModal.FileRef>, payload: CreatePayload)

  const SmsTaskType := "sms"

  /** handleOk: an existing task (truthy id) is renamed, anything else is created. */
  function RequestFor(data: SubmitData): (r: TaskRequest)
    ensures r.UpdateTask? <==> Present(data.id)
    ensures r.UpdateTask? ==> r.id == data.id.value && r.name == data.form.name
    ensures r.CreateTask? ==>
      && r.file == data.form.file
      && r.payload.taskType == SmsTaskType
      && r.payload.name == data.form.name && r.payload.useTemplate == data.form.useTemplate
      && r.payload.runAt == data.form.runAt && r.payload.intervalMs == data.form.intervalMs
      && r.payload.remark == data.form.remark
      && (r.payload.source.TemplateSource? <==> data.form.useTemplate == Some(TaskModal.UseTemplateYes))
      && (r.payload.source.TemplateSource? ==> r.payload.source.templateId == data.form.templateId)
      && (r.payload.source.TextSource? ==> r.payload.source.message == data.form.message)
  {
    if Present(data.id) then UpdateTask(data.id.value, data.form.name)
    else
      var f := data.form;
      var source := if f.useTemplate == Some(TaskModal.UseTemplateYes) then TemplateSource(f.templateId) else TextSource(f.message);
      CreateTask(f.file, CreatePayload(f.name, f.useTemplate, SmsTaskType, f.runAt, f.intervalMs, f.remark, source))
  }

  /** A form that passed validation in custom-text mode yields a create request
      carrying a text that is not blank. */
  lemma ValidTextFormCarriesText(form: TaskModal.TaskForm, now: int)
    requires TaskModal.Submits(form, now) && form.useTemplate == Some(TaskModal.UseTemplateNo)
    ensures var r := RequestFor(SubmitData(None, form));
      r.CreateTask? && r.payload.source.TextSource?
      && r.payload.source.message.Some? && !IsBlank(r.payload.source.message.value)
  {
    TaskModal.SubmitsIff(form, now);
  }

  // ---------------------------------------------------------------------------
  // Page state

  class TasksPage {
    var modalShown: bool
    var modalTitle: string
    var formValue: TaskModal.TaskForm
    var selectedTask: Option<string>
    var showProgress: bool
    var showDetail: bool
    var taskSuccessCount: int

    constructor ()
      ensures !modalShown && modalTitle == "新增任务" && selectedTask.None?
      ensures !showProgress && !showDetail && taskSuccessCount == 0
      ensures formValue == TaskModal.TaskForm(Some(""), None, None, None, None, None, None, None)
    {
      modalShown, modalTitle := false, "新增任务";
      formValue := TaskModal.TaskForm(Some(""), None, None, None, None, None, None, None);
      selectedTask, showProgress, showDetail, taskSuccessCount := None, false, false, 0;
    }

    /** onCreate: the modal opens in template mode. */
    method OnCreate()
      modifies this
      ensures modalShown && modalTitle == "创建任务"
      ensures formValue == old(formValue).(useTemplate := Some(TaskModal.UseTemplateYes))
      ensures selectedTask == old(selectedTask) && showProgress == old(showProgress)
      ensures showDetail == old(showDetail) && taskSuccessCount == old(taskSuccessCount)
    {
      modalShown, modalTitle := true, "创建任务";
      formValue := formValue.(useTemplate := Some(TaskModal.UseTemplateYes));
    }

    /** handleOk: the request is sent, and the modal closes once it has succeeded;
        a request that throws leaves the modal open. */
    method HandleOk(data: SubmitData, ack: bool) returns (request: TaskRequest)
      modifies this
      ensures request == RequestFor(data)
      ensures modalShown == (old(modalShown) && !ack)
      ensures modalTitle == old(modalTitle) && formValue == old(formValue) && selectedTask == old(selectedTask)
      ensures showProgress == old(showProgress) && showDetail == old(showDetail) && taskSuccessCount == old(taskSuccessCount)
    {
      request := RequestFor(data);
      if ack {
        modalShown := false;
      }
    }

    /** The progress action, then the effect that refreshes the count for the
        selected task: the count shown starts from 0 and becomes the fetched count
        when the fetch succeeds. */
    method OpenProgress(taskId: string, fetched: Option<int>)
      modifies this
      ensures selectedTask == Some(taskId) && showProgress
      ensures taskSuccessCount == if fetched.Some? then fetched.value else 0
      ensures modalShown == old(modalShown) && showDetail == old(showDetail)
      ensures modalTitle == old(modalTitle) && formValue == old(formValue)
    {
      selectedTask := Some(taskId);
      taskSuccessCount := 0;
      showProgress := true;
      if fetched.Some? {
        taskSuccessCount := fetched.value;
      }
    }

    /** The detail action, then the same refresh effect; unlike the progress action
        it does not reset the count first, so a failed fetch leaves the last one. */
    method OpenDetail(taskId: string, fetched: Option<int>)
      modifies this
      ensures selectedTask == Some(taskId) && showDetail
      ensures taskSuccessCount == if fetched.Some? then fetched.value else old(taskSuccessCount)
      ensures modalShown == old(modalShown) && showProgress == old(showProgress)
      ensures modalTitle == old(modalTitle) && formValue == old(formValue)
    {
      selectedTask := Some(taskId);
      showDetail := true;
      if fetched.Some? {
        taskSuccessCount := fetched.value;
      }
    }

    /** Closing the progress dialog; the refresh effect runs again and fetches only
        while the detail dialog is still open for a selected task. */
    method CloseProgress(fetched: Option<int>)
      modifies this
      ensures !showProgress
      ensures taskSuccessCount == if selectedTask.Some? && showDetail && fetched.Some? then fetched.value else old(taskSuccessCount)
      ensures selectedTask == old(selectedTask) && showDetail == old(showDetail) && modalShown == old(modalShown)
      ensures modalTitle == old(modalTitle) && formValue == old(formValue)
    {
      showProgress := false;
      if selectedTask.Some? && showDetail && fetched.Some? {
        taskSuccessCount := fetched.value;
      }
    }

    /** Closing the detail dialog, symmetrically. */
    method CloseDetail(fetched: Option<int>)
      modifies this
      ensures !showDetail
      ensures taskSuccessCount == if selectedTask.Some? && showProgress && fetched.Some? then fetched.value else old(taskSuccessCount)
      ensures selectedTask == old(selectedTask) && showProgress == old(showProgress) && modalShown == old(modalShown)
      ensures modalTitle == old(modalTitle) && formValue == old(formValue)
    {
      showDetail := false;
      if selectedTask.Some? && showProgress && fetched.Some? {
        taskSuccessCount := fetched.value;
      }
    }
  }
}
