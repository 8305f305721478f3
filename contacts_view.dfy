/** The contact list of src/pages/ContactsView.tsx: the add-contact form,
    its comma-separated tag field and the prepend on save. */
module ContactsView {
  import opened Wrappers
  import opened Types
  import opened Text

  /** `.map(t => t.trim()).filter(Boolean)` over the pieces of a split. */
  function CleanTags(pieces: seq<string>): seq<string>
    decreases |pieces|
  {
    if |pieces| == 0 then []
    else
      var t := Trim(pieces[0]);
      (if t == "" then [] else [t]) + CleanTags(pieces[1..])
  }

  /** Every cleaned tag is the non-empty trim of some piece. */
  lemma {:induction false} CleanTagsSound(pieces: seq<string>, t: string)
    requires t in CleanTags(pieces)
    ensures t != "" && exists j :: 0 <= j < |pieces| && t == Trim(pieces[j])
    decreases |pieces|
  {
    var head := Trim(pieces[0]);
    var rest := CleanTags(pieces[1..]);
    assert CleanTags(pieces) == (if head == "" then [] else [head]) + rest;
    if t in rest {
      CleanTagsSound(pieces[1..], t);
      var j :| 0 <= j < |pieces[1..]| && t == Trim(pieces[1..][j]);
      assert t == Trim(pieces[j + 1]);
    } else {
      assert t == head && head != "";
    }
  }

  /** Every piece whose trim is non-empty is kept, trimmed. */
  lemma {:induction false} CleanTagsComplete(pieces: seq<string>, j: nat)
    requires j < |pieces| && Trim(pieces[j]) != ""
    ensures Trim(pieces[j]) in CleanTags(pieces)
    decreases |pieces|
  {
    var head := Trim(pieces[0]);
    var rest := CleanTags(pieces[1..]);
    assert CleanTags(pieces) == (if head == "" then [] else [head]) + rest;
    if j == 0 {
      assert CleanTags(pieces)[0] == head;
    } else {
      assert pieces[j] == pieces[1..][j - 1];
      CleanTagsComplete(pieces[1..], j - 1);
      var k :| 0 <= k < |rest| && rest[k] == Trim(pieces[j]);
      assert CleanTags(pieces)[|CleanTags(pieces)| - |rest| + k] == rest[k];
    }
  }

  /** Cleaning works piece by piece: the tags of two runs of pieces are
      the tags of the first followed by the tags of the second. With
      `CleanTagsOfPiece` this fixes the order and the repetitions of the
      tags: they are those of the pieces they come from. */
  lemma {:induction false} CleanTagsAppend(a: seq<string>, b: seq<string>)
    ensures CleanTags(a + b) == CleanTags(a) + CleanTags(b)
    decreases |a|
  {
    if |a| > 0 {
      var head := Trim(a[0]);
      var kept := if head == "" then [] else [head];
      assert (a + b)[0] == a[0] && (a + b)[1..] == a[1..] + b;
      assert CleanTags(a + b) == kept + CleanTags(a[1..] + b);
      CleanTagsAppend(a[1..], b);
      assert CleanTags(a) == kept + CleanTags(a[1..]);
    } else {
      assert a + b == b;
    }
  }

  /** One piece gives its trim, or nothing when that is empty. */
  lemma CleanTagsOfPiece(p: string)
    ensures CleanTags([p]) == if Trim(p) == "" then [] else [Trim(p)]
  {
    assert [p][1..] == [];
  }

  /** `formData.tags.split(',').map(t => t.trim()).filter(Boolean)`. */
  function ParseTags(input: string): seq<string> {
    CleanTags(Split(input, ','))
  }

  /** No parsed tag is empty, has whitespace at an end, or holds a comma;
      and every comma-separated piece that is not blank is kept, trimmed. */
  lemma ParsedTagsAreClean(input: string)
    ensures forall t :: t in ParseTags(input) ==> t != "" && IsTrimmed(t) && ',' !in t
    ensures forall j :: 0 <= j < |Split(input, ',')| && Trim(Split(input, ',')[j]) != "" ==>
      Trim(Split(input, ',')[j]) in ParseTags(input)
  {
    var pieces := Split(input, ',');
    forall t | t in ParseTags(input)
      ensures t != "" && IsTrimmed(t) && ',' !in t
    {
      CleanTagsSound(pieces, t);
      var j :| 0 <= j < |pieces| && t == Trim(pieces[j]);
      TrimIsTrimmedSlice(pieces[j]);
      if ',' in t {
        TrimKeepsCharacters(pieces[j], ',');
      }
    }
    forall j | 0 <= j < |pieces| && Trim(pieces[j]) != ""
      ensures Trim(pieces[j]) in ParseTags(input)
    {
      CleanTagsComplete(pieces, j);
    }
  }

  /** Cleaning already clean tags keeps them as they are. */
  lemma {:induction false} CleanTagsOfCleanTags(tags: seq<string>)
    requires forall i :: 0 <= i < |tags| ==> tags[i] != "" && IsTrimmed(tags[i])
    ensures CleanTags(tags) == tags
    decreases |tags|
  {
    if |tags| > 0 {
      TrimOfTrimmed(tags[0]);
      CleanTagsOfCleanTags(tags[1..]);
      assert [tags[0]] + tags[1..] == tags;
    }
  }

  /** Round trip: tags that are non-empty, trimmed and comma-free, written
      into the field joined by commas, parse back to the same list. */
  lemma ParseJoinedTags(tags: seq<string>)
    requires forall i :: 0 <= i < |tags| ==> tags[i] != "" && IsTrimmed(tags[i]) && ',' !in tags[i]
    ensures ParseTags(Join(tags, ',')) == tags
  {
    if |tags| == 0 {
      assert Split("", ',') == [""];
      assert Trim("") == "";
    } else {
      SplitJoin(tags, ',');
      CleanTagsOfCleanTags(tags);
    }
  }

  /** `"b, a, b"` splits into `"b"`, `" a"` and `" b"`. */
  lemma SplitOfExample()
    ensures Split("b, a, b", ',') == ["b", " a", " b"]
  {
    var pieces := ["b", " a", " b"];
    assert Join(pieces, ',') == "b, a, b" by {
      assert Join(pieces[1..], ',') == " a, b" by {
        assert Join(pieces[2..], ',') == " b";
      }
    }
    SplitJoin(pieces, ',');
  }

  /** The three pieces trim to `"b"`, `"a"` and `"b"`. */
  lemma TrimOfExamplePieces()
    ensures Trim("b") == "b" && Trim(" a") == "a" && Trim(" b") == "b"
  {
    assert LeadingSpace("b") == 0 && TrailingSpace("b") == 0;
    assert LeadingSpace(" a") == 1 && TrailingSpace("a") == 0;
    assert LeadingSpace(" b") == 1;
  }

  /** Cleaning the three pieces keeps all three, in order. */
  lemma CleanTagsOfExample()
    ensures CleanTags(["b", " a", " b"]) == ["b", "a", "b"]
  {
    TrimOfExamplePieces();
    CleanTagsOfPiece("b");
    CleanTagsOfPiece(" a");
    CleanTagsOfPiece(" b");
    assert ["b", " a", " b"] == ["b"] + ([" a"] + [" b"]);
    CleanTagsAppend([" a"], [" b"]);
    CleanTagsAppend(["b"], [" a"] + [" b"]);
  }

  /** The tags keep the order and the repetitions of the input:
      `"b, a, b"` gives `["b", "a", "b"]`, not a sorted or de-duplicated
      list. */
  lemma TagsKeepOrderAndRepeats()
    ensures ParseTags("b, a, b") == ["b", "a", "b"]
  {
    SplitOfExample();
    CleanTagsOfExample();
  }

  /** The add-contact form. */
  datatype ContactForm = ContactForm(name: string, phone: string, tags: string)

  const EmptyForm := ContactForm("", "", "")

  const InitialContacts: seq<Contact> := [
    Contact("1", "John Doe", "+1 234 567 8900", ["VIP", "Customer"], StatusValid),
    Contact("2", "Jane Smith", "+1 987 654 3210", ["Lead"], StatusValid),
    Contact("3", "Bob Johnson", "+44 7700 900077", ["Inactive"], StatusInvalid),
    Contact("4", "Alice Williams", "+1 555 123 4567", ["Customer", "2024"], StatusValid)
  ]

  class ContactsPage {
    var contacts: seq<Contact>
    var isModalOpen: bool
    /** The modal's form; its inputs write it directly. */
    var formData: ContactForm

    constructor ()
      ensures contacts == InitialContacts && !isModalOpen && formData == EmptyForm
    {
      contacts := InitialContacts;
      isModalOpen := false;
      formData := EmptyForm;
    }

    /** 'Add Contact' opens the modal; the form keeps what it held. */
    method OpenModal()
      modifies this
      ensures isModalOpen
      ensures contacts == old(contacts) && formData == old(formData)
    {
      isModalOpen := true;
    }

    /** 'Cancel', the close button and the backdrop close the modal; the
        form keeps what it held. */
    method CloseModal()
      modifies this
      ensures !isModalOpen
      ensures contacts == old(contacts) && formData == old(formData)
    {
      isModalOpen := false;
    }

    /** `handleSave`; `freshId` stands for `Date.now().toString()`. The
        form is rendered only while the modal is open, so a save with the
        modal closed changes nothing. With an empty name or phone nothing
        changes; otherwise one valid contact with the entered name, phone
        and parsed tags is put in front of the unchanged list, the form is
        reset and the modal closed. */
    method Save(freshId: string)
      modifies this
      ensures !old(isModalOpen) || old(formData).name == "" || old(formData).phone == "" ==>
        contacts == old(contacts) && formData == old(formData) && isModalOpen == old(isModalOpen)
      ensures old(isModalOpen) && old(formData).name != "" && old(formData).phone != "" ==>
        && |contacts| == |old(contacts)| + 1
        && contacts[1..] == old(contacts)
        && contacts[0] == Contact(freshId, old(formData).name, old(formData).phone,
                                  ParseTags(old(formData).tags), StatusValid)
        && formData == EmptyForm && !isModalOpen
    {
      if !isModalOpen || formData.name == "" || formData.phone == "" {
        return;
      }
      var newContact := Contact(freshId, formData.name, formData.phone, ParseTags(formData.tags), StatusValid);
      contacts := [newContact] + contacts;
      formData := EmptyForm;
      isModalOpen := false;
    }
  }
}
