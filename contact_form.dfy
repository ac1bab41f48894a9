/** The add/edit form of `components/contact-form.tsx`: the form state and its defaults,
    the field edits, and `handleSubmit`, which turns the comma-separated tag text back into a
    list of tags. */
module ContactFormModel {
  import opened Wrappers
  import opened Strings
  import opened Seqs
  import opened ContactTypes
  import opened Contacts

  /** `formData`: every field as the inputs hold it, the tags as one line of text. */
  datatype FormData = FormData(
    name: string,
    role: string,
    company: string,
    email: string,
    phone: string,
    linkedin: string,
    priority: Priority,
    status: Status,
    source: string,
    lastContact: string,
    nextFollowUp: string,
    notes: string,
    tags: string,
    context: string,
    value: string)

  // =======================================================================================
  // Tags as text
  // =======================================================================================

  /** `tags.join(', ')` */
  function JoinTags(tags: seq<string>): string
  {
    Join(tags, ", ")
  }

  /** `parts.map(t => t.trim())` */
  function TrimEach(parts: seq<string>): (r: seq<string>)
    ensures |r| == |parts|
    ensures forall i :: 0 <= i < |r| ==> r[i] == Trim(parts[i])
  {
    seq(|parts|, i requires 0 <= i < |parts| => Trim(parts[i]))
  }

  /** A tag as the parser can return it: non-empty, without whitespace at either end, and
      without a comma. */
  predicate WellFormedTag(t: string)
  {
    t != [] && Trimmed(t) && ',' !in t
  }

  /** `text.split(',').map(t => t.trim()).filter(Boolean)`: every tag it returns is well
      formed. */
  function ParseTags(text: string): (r: seq<string>)
    ensures forall t :: t in r ==> WellFormedTag(t)
  {
    var pieces := Split(text, ',');
    var trimmed := TrimEach(pieces);
    forall t | t in trimmed ensures Trimmed(t) && ',' !in t {
      var i :| 0 <= i < |trimmed| && trimmed[i] == t;
      TrimKeeps(pieces[i], ',');
    }
    Filter(NonEmpty(), trimmed)
  }

  lemma TrimEachConcat(a: seq<string>, b: seq<string>)
    ensures TrimEach(a + b) == TrimEach(a) + TrimEach(b)
  {
  }

  /** Joining well-formed tags with ", " (after an optional run of leading whitespace `p`)
      and splitting on ',' gives pieces that trim back to the tags. */
  lemma {:induction false} TrimSplitJoin(p: string, tags: seq<string>)
    requires AllSpace(p) && tags != []
    requires forall i :: 0 <= i < |tags| ==> WellFormedTag(tags[i])
    ensures TrimEach(Split(p + JoinTags(tags), ',')) == tags
    decreases |tags|
  {
    if |tags| == 1 {
      TrimSplitOne(p, tags);
    } else {
      var tail := tags[1..];
      forall i | 0 <= i < |tail| ensures WellFormedTag(tail[i]) {
        assert tail[i] == tags[i + 1];
      }
      assert AllSpace(" ");
      TrimSplitJoin(" ", tail);
      TrimSplitStep(p, tags);
    }
  }

  /** A single tag: the text has no comma, so it is one piece, which trims to the tag. */
  lemma TrimSplitOne(p: string, tags: seq<string>)
    requires AllSpace(p) && |tags| == 1 && WellFormedTag(tags[0])
    ensures TrimEach(Split(p + JoinTags(tags), ',')) == tags
  {
    var t := tags[0];
    NoCommaInSpace(p);
    assert ',' !in p + t;
    assert p + JoinTags(tags) == p + t;
    SplitWithout(p + t, ',');
    TrimPadded(p, t);
    TrimEachOne(p + t);
  }

  /** Several tags: the first piece trims to the first tag, and the rest of the text is
      " " followed by the other tags joined. */
  lemma TrimSplitStep(p: string, tags: seq<string>)
    requires AllSpace(p) && |tags| >= 2 && WellFormedTag(tags[0])
    requires TrimEach(Split(" " + JoinTags(tags[1..]), ',')) == tags[1..]
    ensures TrimEach(Split(p + JoinTags(tags), ',')) == tags
  {
    var t := tags[0];
    var later := Split(" " + JoinTags(tags[1..]), ',');
    calc {
      TrimEach(Split(p + JoinTags(tags), ','));
      == { NoCommaInSpace(p); assert ',' !in p + t; SplitJoinStep(p, tags); }
      TrimEach([p + t] + later);
      == { TrimEachConcat([p + t], later); }
      TrimEach([p + t]) + tags[1..];
      == { TrimPadded(p, t); TrimEachOne(p + t); }
      [t] + tags[1..];
    }
    assert tags == [t] + tags[1..];
  }

  lemma TrimEachOne(s: string)
    ensures TrimEach([s]) == [Trim(s)]
  {
  }

  /** After the first tag, the split goes on at the ", " that follows it. */
  lemma SplitJoinStep(p: string, tags: seq<string>)
    requires |tags| >= 2 && ',' !in p + tags[0]
    ensures Split(p + JoinTags(tags), ',')
            == [p + tags[0]] + Split(" " + JoinTags(tags[1..]), ',')
  {
    JoinStep(p, tags);
    SplitConcat(p + tags[0], " " + JoinTags(tags[1..]), ',');
  }

  lemma NoCommaInSpace(p: string)
    requires AllSpace(p)
    ensures ',' !in p
  {
    assert forall k :: 0 <= k < |p| ==> p[k] != ',' by {
      forall k | 0 <= k < |p| ensures p[k] != ',' {
        assert IsSpace(p[k]);
      }
    }
  }

  lemma JoinStep(p: string, tags: seq<string>)
    requires |tags| >= 2
    ensures p + JoinTags(tags) == (p + tags[0]) + [','] + (" " + JoinTags(tags[1..]))
  {
    assert JoinTags(tags) == tags[0] + ", " + JoinTags(tags[1..]);
  }

  /** Round trip: parsing the text that `join(', ')` makes of well-formed tags gives the
      tags back, in order. */
  lemma ParseJoinTags(tags: seq<string>)
    requires forall i :: 0 <= i < |tags| ==> WellFormedTag(tags[i])
    ensures ParseTags(JoinTags(tags)) == tags
  {
    if tags == [] {
      assert Split(JoinTags(tags), ',') == [[]];
      assert TrimEach([[]]) == [[]];
    } else {
      TrimSplitJoin([], tags);
      assert [] + JoinTags(tags) == JoinTags(tags);
      FilterAll(NonEmpty(), tags);
    }
  }

  /** Parsing text that has already been parsed and joined again changes nothing. */
  lemma ParseTagsStable(text: string)
    ensures ParseTags(JoinTags(ParseTags(text))) == ParseTags(text)
  {
    var tags := ParseTags(text);
    assert forall i :: 0 <= i < |tags| ==> tags[i] in tags;
    ParseJoinTags(tags);
  }

  // =======================================================================================
  // Defaults and submission
  // =======================================================================================

  /** `x || ''` on an optional or nullable text field. */
  function TextOf(d: Option<string>): string
  {
    d.GetOr("")
  }

  /** The initial `formData`: the fields of the contact being edited, or the defaults for a
      new one (every text field "", priority medium, status active). */
  function InitialFormData(contact: Option<Contact>): FormData
  {
    if contact.None? then
      FormData("", "", "", "", "", "", Medium, Active, "", "", "", "", "", "", "")
    else
      var c := contact.value;
      FormData(c.name, c.role, c.company, TextOf(c.email), TextOf(c.phone), TextOf(c.linkedin),
               c.priority, c.status, c.source, TextOf(c.lastContact), TextOf(c.nextFollowUp),
               c.notes, JoinTags(c.tags), TextOf(c.context), TextOf(c.value))
  }

  /** `{ ...formData, tags: <parsed> }`, the record `handleSubmit` passes to `onSave`. Every
      optional field is present, the two dates are strings and never null, and the tags are
      well formed. */
  function Submitted(f: FormData): (d: Draft)
    ensures d.email.Some? && d.phone.Some? && d.linkedin.Some? && d.context.Some? && d.value.Some?
    ensures d.lastContact.Some? && d.nextFollowUp.Some?
    ensures forall t :: t in d.tags ==> WellFormedTag(t)
  {
    Draft(f.name, f.role, f.company, Some(f.email), Some(f.phone), Some(f.linkedin), f.priority,
          f.status, f.source, Some(f.lastContact), Some(f.nextFollowUp), f.notes,
          ParseTags(f.tags), Some(f.context), Some(f.value))
  }

  /** Submitting the untouched form for a new contact gives a medium-priority, active
      contact with every text field empty, the two dates "" rather than null, and no tags. */
  lemma NewFormSubmit()
    ensures Submitted(InitialFormData(None))
            == Draft("", "", "", Some(""), Some(""), Some(""), Medium, Active, "", Some(""),
                     Some(""), "", [], Some(""), Some(""))
  {
    ParseNoTags();
  }

  /** An empty tags field gives no tags: `''.split(',')` is `['']`, which trims to `''` and
      is then dropped. */
  lemma ParseNoTags()
    ensures ParseTags("") == []
  {
    var empty: string := [];
    assert Split(empty, ',') == [empty];
    assert |Trim(empty)| == 0;
    var t := TrimEach([empty]);
    assert t == [empty];
    assert Filter(NonEmpty(), t) == Filter(NonEmpty(), t[1..]);
    assert t[1..] == [];
  }

  /** A contact whose optional fields are all present, whose dates are set, and whose tags
      are well formed comes back unchanged when it is opened in the form and saved
      without edits. */
  lemma EditWithoutChange(c: Contact)
    requires c.email.Some? && c.phone.Some? && c.linkedin.Some? && c.context.Some? && c.value.Some?
    requires c.lastContact.Some? && c.nextFollowUp.Some?
    requires forall i :: 0 <= i < |c.tags| ==> WellFormedTag(c.tags[i])
    ensures Merge(c, DraftAsPatch(Submitted(InitialFormData(Some(c))))) == c
  {
    ParseJoinTags(c.tags);
    assert Submitted(InitialFormData(Some(c))) == DraftOf(c);
    MergeDraft(c, DraftOf(c));
  }

  /** Opening any contact in the form and saving without edits replaces a null date or an
      absent optional field by "", and keeps every other field. */
  lemma EditWithoutChangeNormalises(c: Contact)
    requires forall i :: 0 <= i < |c.tags| ==> WellFormedTag(c.tags[i])
    ensures Merge(c, DraftAsPatch(Submitted(InitialFormData(Some(c)))))
            == c.(email := Some(TextOf(c.email)), phone := Some(TextOf(c.phone)),
                  linkedin := Some(TextOf(c.linkedin)), lastContact := Some(TextOf(c.lastContact)),
                  nextFollowUp := Some(TextOf(c.nextFollowUp)), context := Some(TextOf(c.context)),
                  value := Some(TextOf(c.value)))
  {
    ParseJoinTags(c.tags);
  }

  // =======================================================================================
  // Field edits
  // =======================================================================================

  /** One input's `onChange`: `setFormData({ ...formData, <field>: <new value> })`. The form
      has no input for `value`. */
  datatype FieldEdit =
    | EditName(name: string)
    | EditCompany(company: string)
    | EditRole(role: string)
    | EditSource(source: string)
    | EditEmail(email: string)
    | EditPhone(phone: string)
    | EditLinkedIn(linkedin: string)
    | EditPriority(priority: Priority)
    | EditStatus(status: Status)
    | EditLastContact(lastContact: string)
    | EditNextFollowUp(nextFollowUp: string)
    | EditContext(context: string)
    | EditTags(tags: string)
    | EditNotes(notes: string)

  function Applied(f: FormData, e: FieldEdit): FormData
  {
    match e
    case EditName(v) => f.(name := v)
    case EditCompany(v) => f.(company := v)
    case EditRole(v) => f.(role := v)
    case EditSource(v) => f.(source := v)
    case EditEmail(v) => f.(email := v)
    case EditPhone(v) => f.(phone := v)
    case EditLinkedIn(v) => f.(linkedin := v)
    case EditPriority(v) => f.(priority := v)
    case EditStatus(v) => f.(status := v)
    case EditLastContact(v) => f.(lastContact := v)
    case EditNextFollowUp(v) => f.(nextFollowUp := v)
    case EditContext(v) => f.(context := v)
    case EditTags(v) => f.(tags := v)
    case EditNotes(v) => f.(notes := v)
  }

  /** Two edits of the same input. */
  predicate SameField(a: FieldEdit, b: FieldEdit)
  {
    match a
    case EditName(_) => b.EditName?
    case EditCompany(_) => b.EditCompany?
    case EditRole(_) => b.EditRole?
    case EditSource(_) => b.EditSource?
    case EditEmail(_) => b.EditEmail?
    case EditPhone(_) => b.EditPhone?
    case EditLinkedIn(_) => b.EditLinkedIn?
    case EditPriority(_) => b.EditPriority?
    case EditStatus(_) => b.EditStatus?
    case EditLastContact(_) => b.EditLastContact?
    case EditNextFollowUp(_) => b.EditNextFollowUp?
    case EditContext(_) => b.EditContext?
    case EditTags(_) => b.EditTags?
    case EditNotes(_) => b.EditNotes?
  }

  /** The last edit of an input wins. */
  lemma EditLastWins(f: FormData, a: FieldEdit, b: FieldEdit)
    requires SameField(a, b)
    ensures Applied(Applied(f, a), b) == Applied(f, b)
  {
  }

  /** Edits of different inputs do not interfere: their order does not matter. */
  lemma EditsCommute(f: FormData, a: FieldEdit, b: FieldEdit)
    requires !SameField(a, b)
    ensures Applied(Applied(f, a), b) == Applied(Applied(f, b), a)
  {
  }

  /** No edit reaches `value`, which the form has no input for. */
  lemma EditKeepsValue(f: FormData, a: FieldEdit)
    ensures Applied(f, a).value == f.value
  {
  }

  /** The `ContactForm` component: its `formData` state. */
  class ContactForm {
    var formData: FormData

    /** `useState({...})` for the contact being edited, or for a new one. */
    constructor (contact: Option<Contact>)
      ensures formData == InitialFormData(contact)
    {
      formData := InitialFormData(contact);
    }

    /** An input's `onChange`. */
    method Change(e: FieldEdit)
      modifies this
      ensures formData == Applied(old(formData), e)
    {
      formData := Applied(formData, e);
    }

    /** `handleSubmit`: the record passed to `onSave`. */
    method Submit() returns (d: Draft)
      ensures d == Submitted(formData)
      ensures d.lastContact.Some? && d.nextFollowUp.Some?
      ensures forall t :: t in d.tags ==> WellFormedTag(t)
    {
      d := Submitted(formData);
    }
  }
}
