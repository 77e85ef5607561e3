/** The project form of src/components/projects/ProjectForm.tsx: its schema, the values it
    starts with, and its submit label. */
module ProjectForm {
  import opened Values
  import opened Entities
  import Schema

  datatype Fields = Fields(name: string, description: string)

  datatype Errors = Errors(name: Option<string>, description: Option<string>)

  /** The `mode` the form is given; the form ignores it. */
  datatype Mode = Create | Update

  /** `projectSchema`: name 3..100 characters and description 10..500, bounds included. */
  function Validate(v: Fields): (e: Errors)
    ensures e == Errors(None, None) <==> 3 <= |v.name| <= 100 && 10 <= |v.description| <= 500
    ensures |v.name| < 3 ==> e.name == Some("Name must be at least 3 characters")
    ensures |v.name| > 100 ==> e.name == Some("Name must be less than 100 characters")
    ensures |v.description| < 10 ==> e.description == Some("Description must be at least 10 characters")
    ensures |v.description| > 500 ==> e.description == Some("Description must be less than 500 characters")
    ensures e.name.None? <==> 3 <= |v.name| <= 100
    ensures e.description.None? <==> 10 <= |v.description| <= 500
  {
    Errors(
      Schema.Between(v.name, 3, 100, "Name must be at least 3 characters", "Name must be less than 100 characters"),
      Schema.Between(v.description, 10, 500, "Description must be at least 10 characters",
                     "Description must be less than 500 characters"))
  }

  /** The default values: the project's, or empty. */
  function Defaults(project: Option<Project>): (d: Fields)
    ensures project.Some? ==> d == Fields(project.value.name, project.value.description)
    ensures project.None? ==> d == Fields("", "")
  {
    if project.Some? then Fields(project.value.name, project.value.description) else Fields("", "")
  }

  /** An empty form is never valid, so a new project cannot be submitted untouched. */
  lemma EmptyFormInvalid()
    ensures Validate(Defaults(None)) == Errors(Some("Name must be at least 3 characters"),
                                              Some("Description must be at least 10 characters"))
  {
  }

  /** The submit label depends on whether a project was passed, whatever the mode. */
  function SubmitLabel(project: Option<Project>, mode: Option<Mode>): (r: string)
    ensures r == "Update Project" <==> project.Some?
    ensures project.None? ==> r == "Create Project"
  {
    if project.Some? then "Update Project" else "Create Project"
  }

  lemma ModeIgnored(project: Option<Project>, m1: Option<Mode>, m2: Option<Mode>)
    ensures SubmitLabel(project, m1) == SubmitLabel(project, m2)
  {
  }
}
