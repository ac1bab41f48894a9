/** The detail view of `components/contact-detail.tsx`: the partial updates its quick actions
    issue, the LinkedIn link, the text shown when a field is empty, and the view's two
    toggles (`isEditing`, `showDeleteConfirm`). The header's initials and the overdue flag
    are the card's (`HomePage.Initials`, `HomePage.IsOverdue`). */
module ContactDetailModel {
  import opened Wrappers
  import opened Strings
  import opened ContactTypes
  import opened Contacts
  import opened HomePage

  // =======================================================================================
  // Quick actions
  // =======================================================================================

  /** `{ lastContact: today, nextFollowUp: '' }`, the update of "Mark Contacted Today". */
  function MarkContactedPatch(today: string): (p: Patch)
    ensures p.id.None? && p.createdAt.None?
  {
    NoChange.(lastContact := Some(Some(today)), nextFollowUp := Some(Some("")))
  }

  /** `{ nextFollowUp: date }`, the update of "Follow up in N days"; the date N days ahead is
      the caller's. */
  function FollowUpPatch(date: string): (p: Patch)
    ensures p.id.None? && p.createdAt.None?
  {
    NoChange.(nextFollowUp := Some(Some(date)))
  }

  /** Marking a contact as contacted sets the last contact to today, clears the follow-up
      and changes nothing else; afterwards the contact is neither due nor overdue on any
      day. */
  lemma MarkContactedEffect(c: Contact, today: string, day: string)
    ensures Merge(c, MarkContactedPatch(today))
            == c.(lastContact := Some(today), nextFollowUp := Some(""))
    ensures !IsDue(Merge(c, MarkContactedPatch(today)), day)
    ensures !IsOverdue(Merge(c, MarkContactedPatch(today)), day)
  {
  }

  /** Setting a follow-up changes only the follow-up date; a non-empty date is due exactly
      from that day on. */
  lemma FollowUpEffect(c: Contact, date: string, day: string)
    ensures Merge(c, FollowUpPatch(date)) == c.(nextFollowUp := Some(date))
    ensures date != "" ==> (IsDue(Merge(c, FollowUpPatch(date)), day) <==> LexLe(date, day))
  {
  }

  /** In the store, after marking a contact as contacted, no record with its id is among the
      follow-ups due, on any day, while other records' dues are as before. */
  lemma {:induction false} MarkContactedNotDue(cs: seq<Contact>, id: string, today: string,
                                               day: string)
    ensures forall c :: c in GetFollowUpsDue(Updated(cs, id, MarkContactedPatch(today)), day)
                        ==> c.id != id
    ensures forall c :: c in cs && c.id != id ==>
              (c in GetFollowUpsDue(Updated(cs, id, MarkContactedPatch(today)), day)
               <==> c in GetFollowUpsDue(cs, day))
  {
    var after := Updated(cs, id, MarkContactedPatch(today));
    forall c | c in after ensures IsDue(c, day) ==> c.id != id {
      var i :| 0 <= i < |after| && after[i] == c;
      UpdatedAt(cs, id, MarkContactedPatch(today), i);
    }
    forall c | c in cs && c.id != id ensures c in after {
      var i :| 0 <= i < |cs| && cs[i] == c;
      UpdatedAt(cs, id, MarkContactedPatch(today), i);
    }
  }

  // =======================================================================================
  // Contact information
  // =======================================================================================

  /** The LinkedIn link: a value starting with "http" as it is, anything else after
      "https://". The link always starts with "http" and ends with the stored value. */
  function LinkedInHref(v: string): (r: string)
    ensures StartsWith(r, "http")
    ensures |v| <= |r| && r[|r| - |v|..] == v
    ensures StartsWith(v, "http") <==> r == v
    ensures !StartsWith(v, "http") ==> r == "https://" + v
  {
    if StartsWith(v, "http") then v
    else
      assert ("https://" + v)[..4] == "http";
      "https://" + v
  }

  /** Normalising a link twice is normalising it once. */
  lemma LinkedInHrefIdempotent(v: string)
    ensures LinkedInHref(LinkedInHref(v)) == LinkedInHref(v)
  {
  }

  /** `contact.source || 'Not specified'` */
  function SourceText(c: Contact): (r: string)
    ensures r != ""
    ensures c.source != "" ==> r == c.source
    ensures c.source == "" ==> r == "Not specified"
  {
    if c.source == "" then "Not specified" else c.source
  }

  /** `contact.notes || 'No notes added yet.'` */
  function NotesText(c: Contact): (r: string)
    ensures r != ""
    ensures c.notes != "" ==> r == c.notes
    ensures c.notes == "" ==> r == "No notes added yet."
  {
    if c.notes == "" then "No notes added yet." else c.notes
  }

  /** A timeline date: a set date, which the view formats, or the fallback text. */
  datatype DateLine = Formatted(date: string) | Fallback(text: string)

  /** `date ? <formatted date> : fallback` */
  function DateLineOf(d: Option<string>, fallback: string): (r: DateLine)
    ensures r.Formatted? <==> IsSet(d)
    ensures r.Formatted? ==> r.date == d.value
  {
    if IsSet(d) then Formatted(d.value) else Fallback(fallback)
  }

  /** "Last Contact": the date, or "Never". */
  function LastContactLine(c: Contact): (r: DateLine)
    ensures r.Formatted? <==> IsSet(c.lastContact)
    ensures r.Fallback? ==> r.text == "Never"
  {
    DateLineOf(c.lastContact, "Never")
  }

  /** "Next Follow-up": the date, or "Not scheduled". */
  function NextFollowUpLine(c: Contact): (r: DateLine)
    ensures r.Formatted? <==> HasFollowUp(c)
    ensures r.Fallback? ==> r.text == "Not scheduled"
  {
    DateLineOf(c.nextFollowUp, "Not scheduled")
  }

  /** After "Mark Contacted Today" the timeline shows today's date as the last contact and
      "Not scheduled" as the next follow-up. */
  lemma MarkContactedTimeline(c: Contact, today: string)
    requires today != ""
    ensures LastContactLine(Merge(c, MarkContactedPatch(today))) == Formatted(today)
    ensures NextFollowUpLine(Merge(c, MarkContactedPatch(today))) == Fallback("Not scheduled")
  {
  }

  /** A follow-up line is shown as a date exactly when the contact has a follow-up, so an
      overdue contact always shows its date. */
  lemma OverdueShowsDate(c: Contact, today: string)
    ensures IsOverdue(c, today) ==> NextFollowUpLine(c) == Formatted(c.nextFollowUp.value)
    ensures NextFollowUpLine(c).Fallback? ==> !IsOverdue(c, today) && !IsDue(c, today)
  {
  }

  // =======================================================================================
  // The view's state
  // =======================================================================================

  /** The `ContactDetail` component: the contact it shows and its two toggles. */
  class ContactDetail {
    const contact: Contact
    var isEditing: bool
    var showDeleteConfirm: bool

    /** `useState(false)` twice. */
    constructor (c: Contact)
      ensures contact == c && !isEditing && !showDeleteConfirm
    {
      contact := c;
      isEditing := false;
      showDeleteConfirm := false;
    }

    /** The "Edit" button, and the close and cancel buttons of the edit form. */
    method SetEditing(on: bool)
      modifies this
      ensures isEditing == on && showDeleteConfirm == old(showDeleteConfirm)
    {
      isEditing := on;
    }

    /** The delete button and the confirmation's "Cancel". */
    method SetDeleteConfirm(on: bool)
      modifies this
      ensures showDeleteConfirm == on && isEditing == old(isEditing)
    {
      showDeleteConfirm := on;
    }

    /** `handleMarkContacted`: the update passed to `onUpdate`. */
    method MarkContacted(today: string) returns (updates: Patch)
      ensures updates == MarkContactedPatch(today)
      ensures Merge(contact, updates) == contact.(lastContact := Some(today), nextFollowUp := Some(""))
    {
      updates := MarkContactedPatch(today);
      MarkContactedEffect(contact, today, today);
    }

    /** `handleSetFollowUp`, given the date `days` ahead. */
    method SetFollowUp(date: string) returns (updates: Patch)
      ensures updates == FollowUpPatch(date)
      ensures Merge(contact, updates) == contact.(nextFollowUp := Some(date))
    {
      updates := FollowUpPatch(date);
      FollowUpEffect(contact, date, date);
    }

    /** The edit form's `onSave`: the form's record goes to `onUpdate` as it is, and the
        view leaves edit mode. The update keeps the contact's id and creation date. */
    method SaveEdit(d: Draft) returns (updates: Patch)
      requires isEditing
      modifies this
      ensures updates == DraftAsPatch(d) && updates.id.None? && updates.createdAt.None?
      ensures !isEditing && showDeleteConfirm == old(showDeleteConfirm)
    {
      updates := DraftAsPatch(d);
      isEditing := false;
    }
  }
}
