/** The template list of src/pages/TemplatesView.tsx: the mount fetch,
    the sync from Meta, and the preview modal opened for a new or an
    existing template. While `loading` the page renders only a spinner,
    so none of its buttons can be clicked then; the sync buttons are also
    disabled while `syncing`. */
module TemplatesView {
  import opened Wrappers
  import opened Types

  /** The modal's form. */
  datatype TemplateForm = TemplateForm(name: string, category: string, language: string, body: string)

  /** The form `useState` starts with and `handleOpenCreate` resets to. */
  const BlankForm := TemplateForm("", "Marketing", "en_US", "")

  /** The form `handleOpenEdit` fills from a template. */
  function FormOf(t: Template): TemplateForm {
    TemplateForm(t.name, t.category, t.language, t.body)
  }

  /** The modal's title: `editingId ? 'View…' : 'Create…'`; an empty id is
      falsy like `null`. */
  function ModalTitle(editingId: Option<string>): string {
    if editingId.Some? && editingId.value != "" then "View Message Template" else "Create Message Template"
  }

  /** Opening for an existing template (whose id is non-empty) titles the
      modal as a view; opening for a new one as a creation; the form of a
      template keeps its four displayed fields. */
  lemma ModalTitleFollowsEditingId(t: Template)
    ensures t.id != "" ==> ModalTitle(Some(t.id)) == "View Message Template"
    ensures ModalTitle(None) == "Create Message Template"
    ensures ModalTitle(Some(t.id)) != ModalTitle(None) <==> t.id != ""
    ensures FormOf(t).name == t.name && FormOf(t).category == t.category
    ensures FormOf(t).language == t.language && FormOf(t).body == t.body
  {
  }

  class TemplatesPage {
    var templates: seq<Template>
    var loading: bool
    var syncing: bool
    var isModalOpen: bool
    var editingId: Option<string>
    var formData: TemplateForm

    constructor ()
      ensures templates == [] && loading && !syncing
      ensures !isModalOpen && editingId == None && formData == BlankForm
    {
      templates := [];
      loading := true;
      syncing := false;
      isModalOpen := false;
      editingId := None;
      formData := BlankForm;
    }

    /** The response to the mount effect's `GET /templates`, which is
        outstanding exactly while `loading`: a list replaces the templates,
        a failure keeps them; `loading` ends false either way. */
    method FetchResponse(outcome: Result<seq<Template>, string>)
      requires loading
      modifies this
      ensures templates == if outcome.Ok? then outcome.value else old(templates)
      ensures !loading
      ensures syncing == old(syncing) && isModalOpen == old(isModalOpen)
      ensures editingId == old(editingId) && formData == old(formData)
    {
      if outcome.Ok? {
        templates := outcome.value;
      }
      loading := false;
    }

    /** A click on 'Sync from Meta': starts the `POST /templates/sync` and
        reports whether it was sent. */
    method SyncClick() returns (sent: bool)
      modifies this
      ensures sent == (!old(loading) && !old(syncing))
      ensures syncing == (old(syncing) || sent)
      ensures templates == old(templates) && loading == old(loading)
      ensures isModalOpen == old(isModalOpen) && editingId == old(editingId) && formData == old(formData)
    {
      sent := !loading && !syncing;
      if sent {
        syncing := true;
      }
    }

    /** The sync response: `data.data` replaces the list on success, a
        failure keeps it; `syncing` ends false either way. */
    method SyncResponse(outcome: Result<seq<Template>, string>)
      requires syncing
      modifies this
      ensures templates == if outcome.Ok? then outcome.value else old(templates)
      ensures !syncing
      ensures loading == old(loading) && isModalOpen == old(isModalOpen)
      ensures editingId == old(editingId) && formData == old(formData)
    {
      if outcome.Ok? {
        templates := outcome.value;
      }
      syncing := false;
    }

    /** `handleOpenCreate`: no template is being edited, the form is blank
        and the modal open. */
    method OpenCreate()
      modifies this
      ensures !old(loading) ==> editingId == None && formData == BlankForm && isModalOpen
      ensures old(loading) ==>
        editingId == old(editingId) && formData == old(formData) && isModalOpen == old(isModalOpen)
      ensures templates == old(templates) && loading == old(loading) && syncing == old(syncing)
    {
      if !loading {
        editingId := None;
        formData := BlankForm;
        isModalOpen := true;
      }
    }

    /** `handleOpenEdit(template)`: the template's id is being edited,
        its four fields fill the form and the modal opens. */
    method OpenEdit(t: Template)
      modifies this
      ensures !old(loading) ==> editingId == Some(t.id) && formData == FormOf(t) && isModalOpen
      ensures old(loading) ==>
        editingId == old(editingId) && formData == old(formData) && isModalOpen == old(isModalOpen)
      ensures templates == old(templates) && loading == old(loading) && syncing == old(syncing)
    {
      if !loading {
        editingId := Some(t.id);
        formData := FormOf(t);
        isModalOpen := true;
      }
    }

    /** `handleSave`, and the modal's 'Close' and backdrop: only the modal
        closes. */
    method Save()
      modifies this
      ensures !isModalOpen
      ensures templates == old(templates) && loading == old(loading) && syncing == old(syncing)
      ensures editingId == old(editingId) && formData == old(formData)
    {
      isModalOpen := false;
    }
  }
}
