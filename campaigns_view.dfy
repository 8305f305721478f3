/** The campaign list editor of src/pages/CampaignsView.tsx: the edit
    form, delete with confirmation and update by id. The new lists are
    built by pure functions (`filter`, `map`); the view class commits
    them and keeps the edit-modal state. */
module CampaignsView {
  import opened Wrappers
  import opened Types

  /** The edit form; `image` is `None` for `null`. */
  datatype EditForm = EditForm(name: string, message: string, image: Option<string>, status: CampaignStatus)

  const EmptyForm := EditForm("", "", None, Draft)

  /** The badge style of each status; the lookup is total. */
  function BadgeStyle(status: CampaignStatus): string {
    match status
    case Sent => "bg-green-100 text-green-700 border-green-200"
    case Scheduled => "bg-blue-100 text-blue-700 border-blue-200"
    case Draft => "bg-slate-100 text-slate-600 border-slate-200"
  }

  /** Every status has its own non-empty badge style. */
  lemma BadgeStylesDistinct(s: CampaignStatus, t: CampaignStatus)
    ensures BadgeStyle(s) != ""
    ensures s != t ==> BadgeStyle(s) != BadgeStyle(t)
  {
  }

  /** The form `handleEditClick` fills from a campaign: `message || ''`
      and `image || null`, so a missing or empty message reads as `''` and
      a missing, null or empty image as `null`. */
  function FormFor(c: Campaign): (f: EditForm)
    ensures f.name == c.name && f.status == c.status
    ensures c.message.Some? ==> f.message == c.message.value
    ensures c.message.None? ==> f.message == ""
    ensures c.image.None? ==> f.image == None
    ensures c.image.Some? && c.image.value != "" ==> f.image == c.image
    ensures f.image.Some? ==> f.image == c.image && f.image.value != ""
  {
    var message := if c.message.Some? then c.message.value else "";
    var image := if c.image.Some? && c.image.value != "" then c.image else None;
    EditForm(c.name, message, image, c.status)
  }

  /** `{...c, name, message, image, status}` from the form. */
  function Patched(c: Campaign, f: EditForm): Campaign {
    c.(name := f.name, message := Some(f.message), image := f.image, status := f.status)
  }

  /** A patch replaces exactly name, message, image and status; the id,
      the counters and the date are kept. */
  lemma PatchKeepsIdentity(c: Campaign, f: EditForm)
    ensures Patched(c, f).id == c.id && Patched(c, f).sent == c.sent
    ensures Patched(c, f).total == c.total && Patched(c, f).date == c.date
    ensures Patched(c, f).name == f.name && Patched(c, f).message == Some(f.message)
    ensures Patched(c, f).image == f.image && Patched(c, f).status == f.status
  {
  }

  /** `campaigns.filter(c => c.id !== id)`. */
  function WithoutId(cs: seq<Campaign>, id: string): (r: seq<Campaign>)
    ensures |r| <= |cs|
    ensures forall c :: c in r ==> c in cs && c.id != id
    ensures forall c :: c in cs && c.id != id ==> c in r
    decreases |cs|
  {
    if |cs| == 0 then []
    else (if cs[0].id == id then [] else [cs[0]]) + WithoutId(cs[1..], id)
  }

  /** Filtering distributes over concatenation, so the kept campaigns stay
      in their original order. */
  lemma {:induction false} WithoutIdAppend(a: seq<Campaign>, b: seq<Campaign>, id: string)
    ensures WithoutId(a + b, id) == WithoutId(a, id) + WithoutId(b, id)
    decreases |a|
  {
    if |a| > 0 {
      assert (a + b)[1..] == a[1..] + b;
      WithoutIdAppend(a[1..], b, id);
    } else {
      assert a + b == b;
    }
  }

  /** Deleting an id that is not in the list leaves it as it was. */
  lemma {:induction false} WithoutAbsentId(cs: seq<Campaign>, id: string)
    requires forall i :: 0 <= i < |cs| ==> cs[i].id != id
    ensures WithoutId(cs, id) == cs
    decreases |cs|
  {
    if |cs| > 0 {
      WithoutAbsentId(cs[1..], id);
      assert [cs[0]] + cs[1..] == cs;
    }
  }

  /** Deleting twice is deleting once. */
  lemma WithoutIdIdempotent(cs: seq<Campaign>, id: string)
    ensures WithoutId(WithoutId(cs, id), id) == WithoutId(cs, id)
  {
    var r := WithoutId(cs, id);
    assert forall i :: 0 <= i < |r| ==> r[i] in r;
    WithoutAbsentId(r, id);
  }

  /** `campaigns.map(c => c.id === id ? {...c, ...form} : c)`. */
  function UpdateById(cs: seq<Campaign>, id: string, f: EditForm): (r: seq<Campaign>)
    ensures |r| == |cs|
    ensures forall i :: 0 <= i < |cs| ==> r[i] == if cs[i].id == id then Patched(cs[i], f) else cs[i]
    decreases |cs|
  {
    if |cs| == 0 then []
    else [if cs[0].id == id then Patched(cs[0], f) else cs[0]] + UpdateById(cs[1..], id, f)
  }

  /** An update keeps every id in place, and applying it twice is the same
      as applying it once. */
  lemma UpdateKeepsIdsAndIsIdempotent(cs: seq<Campaign>, id: string, f: EditForm)
    ensures forall i :: 0 <= i < |cs| ==> UpdateById(cs, id, f)[i].id == cs[i].id
    ensures UpdateById(UpdateById(cs, id, f), id, f) == UpdateById(cs, id, f)
  {
  }

  const InitialCampaigns: seq<Campaign> := [
    Campaign("1", "Summer Promo 2024", Sent, 1250, 1250, "Oct 24, 2024",
             Some("Hey there! Our Summer Sale is live. Get 50% off now!"), None),
    Campaign("2", "Product Launch: Alpha", Scheduled, 0, 5000, "Nov 01, 2024",
             Some("Introducing Alpha. The future of tech."), None),
    Campaign("3", "Inactive User Re-engagement", Draft, 0, 320, "Oct 28, 2024",
             Some("We miss you! Come back for a special treat."), None)
  ]

  class CampaignsPage {
    var campaigns: seq<Campaign>
    var isEditModalOpen: bool
    var editingCampaign: Option<Campaign>
    /** The edit form; its inputs write it directly. */
    var editForm: EditForm

    constructor ()
      ensures campaigns == InitialCampaigns
      ensures !isEditModalOpen && editingCampaign == None && editForm == EmptyForm
    {
      campaigns := InitialCampaigns;
      isEditModalOpen := false;
      editingCampaign := None;
      editForm := EmptyForm;
    }

    /** `handleEditClick`: remember the campaign, fill the form, open the
        modal. */
    method EditClick(c: Campaign)
      modifies this
      ensures editingCampaign == Some(c) && editForm == FormFor(c) && isEditModalOpen
      ensures campaigns == old(campaigns)
    {
      editingCampaign := Some(c);
      editForm := FormFor(c);
      isEditModalOpen := true;
    }

    /** `handleDelete`, where `confirmed` is the answer to `window.confirm`. */
    method Delete(id: string, confirmed: bool)
      modifies this
      ensures campaigns == if confirmed then WithoutId(old(campaigns), id) else old(campaigns)
      ensures isEditModalOpen == old(isEditModalOpen) && editingCampaign == old(editingCampaign)
      ensures editForm == old(editForm)
    {
      if confirmed {
        campaigns := WithoutId(campaigns, id);
      }
    }

    /** 'Cancel', the close button and the backdrop close the edit modal;
        the campaign being edited and the form stay as they were. */
    method CloseEditModal()
      modifies this
      ensures !isEditModalOpen
      ensures campaigns == old(campaigns) && editingCampaign == old(editingCampaign)
      ensures editForm == old(editForm)
    {
      isEditModalOpen := false;
    }

    /** `handleUpdate`. The form is rendered only while the edit modal is
        open, so a submit with the modal closed changes nothing; so does one
        with no campaign being edited. Otherwise the entries with its id are
        patched from the form, the modal is closed and the campaign being
        edited is cleared. */
    method Update()
      modifies this
      ensures !old(isEditModalOpen) || old(editingCampaign).None? ==>
        campaigns == old(campaigns) && isEditModalOpen == old(isEditModalOpen) &&
        editingCampaign == old(editingCampaign)
      ensures old(isEditModalOpen) && old(editingCampaign).Some? ==>
        campaigns == UpdateById(old(campaigns), old(editingCampaign).value.id, old(editForm)) &&
        !isEditModalOpen && editingCampaign == None
      ensures editForm == old(editForm)
    {
      if !isEditModalOpen || editingCampaign.None? {
        return;
      }
      campaigns := UpdateById(campaigns, editingCampaign.value.id, editForm);
      isEditModalOpen := false;
      editingCampaign := None;
    }
  }
}
