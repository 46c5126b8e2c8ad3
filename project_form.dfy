/**
 * The submit handler of src/components/forms/ProjectForm.tsx: the load /
 * replace-or-append / save cycle on the projects, with the optional end date.
 */
module ProjectForm {
  import opened Wrappers
  import opened Seqs
  import opened Store

  /** The values react-hook-form hands to the submit handler; an untouched end-date
      input gives the empty string. */
  datatype ProjectFormData = ProjectFormData(
    name: string, description: string, clientId: string, status: ProjectStatus,
    startDate: string, endDate: string)

  /** The record the handler builds: the edited id (unless empty) or a fresh one, ISO dates,
      and no end date exactly when the end-date input was left empty. `iso` stands for
      `new Date(x).toISOString()`, None where that throws on a date it cannot read (the
      end date is converted only when given); the handler then stops and builds nothing. */
  function NewProject(form: ProjectFormData, editing: Option<Project>, freshId: string, iso: string -> Option<string>): (r: Option<Project>)
    ensures r.Some? <==> iso(form.startDate).Some? && (form.endDate != "" ==> iso(form.endDate).Some?)
    ensures r.Some? && editing.Some? && editing.value.id != "" ==> r.value.id == editing.value.id
    ensures r.Some? && (editing.None? || editing.value.id == "") ==> r.value.id == freshId
    ensures r.Some? ==> r.value.name == form.name && r.value.description == form.description
    ensures r.Some? ==> r.value.clientId == form.clientId && r.value.status == form.status
    ensures r.Some? ==> Some(r.value.startDate) == iso(form.startDate)
    ensures r.Some? ==> (r.value.endDate.None? <==> form.endDate == "")
    ensures r.Some? && r.value.endDate.Some? ==> Some(r.value.endDate.value) == iso(form.endDate)
  {
    var startDate := iso(form.startDate);
    var endDate := if form.endDate != "" then Some(iso(form.endDate)) else None;
    if startDate.None? || (endDate.Some? && endDate.value.None?) then None
    else
      Some(Project(
        id := if editing.Some? && editing.value.id != "" then editing.value.id else freshId,
        clientId := form.clientId,
        name := form.name,
        description := form.description,
        status := form.status,
        startDate := startDate.value,
        endDate := if endDate.Some? then Some(endDate.value.value) else None))
  }

  /** The projects after a submission: appended when creating; when editing, the first
      project with the edited id is replaced, and nothing changes if there is none. */
  function ProjectsAfterSubmit(projects: seq<Project>, editing: Option<Project>, saved: Project): (r: seq<Project>)
    ensures editing.None? ==> r == projects + [saved]
    ensures editing.Some? ==> |r| == |projects|
    ensures editing.Some? && FindIndex(projects, ProjectIdIs(editing.value.id)) == -1 ==> r == projects
    ensures editing.Some? ==>
      var k := FindIndex(projects, ProjectIdIs(editing.value.id));
      k != -1 ==> r[k] == saved && forall j :: 0 <= j < |r| && j != k ==> r[j] == projects[j]
  {
    if editing.None? then projects + [saved]
    else ReplaceFirst(projects, ProjectIdIs(editing.value.id), saved)
  }

  /**
   * `onSubmitForm`: loads the data, builds the record, replaces the edited project in
   * place (or appends the new one), saves the data, and hands back the record it built.
   * When a date cannot be read the handler throws before saving: the slot is untouched
   * and no record is handed back.
   */
  method SubmitProject(store: DataStore, form: ProjectFormData, editing: Option<Project>, freshId: string, iso: string -> Option<string>)
    returns (saved: Option<Project>)
    modifies store`slot
    ensures saved == NewProject(form, editing, freshId, iso)
    ensures saved.None? ==> store.slot == old(store.slot)
    ensures saved.Some? ==> store.slot == old(store.SavedSlot(
      store.Loaded().(projects := ProjectsAfterSubmit(store.Loaded().projects, editing, saved.value))))
  {
    var appData := store.LoadData();
    saved := NewProject(form, editing, freshId, iso);
    if saved.None? {
      return;
    }
    var newProject := saved.value;
    if editing.Some? {
      var index := FindIndex(appData.projects, ProjectIdIs(editing.value.id));
      if index != -1 {
        appData := appData.(projects := appData.projects[index := newProject]);
      }
    } else {
      appData := appData.(projects := appData.projects + [newProject]);
    }
    store.SaveData(appData);
  }
}
