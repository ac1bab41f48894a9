/** The contact store of `lib/hooks.ts`. The list operations (`addContact`, `updateContact`,
    `deleteContact`) and the queries (`getContact`, `getFollowUpsDue`, `getStats`) are pure
    functions on a sequence of contacts; `ContactStore` holds the hook's state (`contacts`,
    `loaded` and the browser storage slot) and applies them. */
module Contacts {
  import opened Wrappers
  import opened Strings
  import opened Seqs
  import opened ContactTypes

  // =======================================================================================
  // Records without an id (the input of `addContact`) and partial records (`updates`)
  // =======================================================================================

  /** `Omit<Contact, 'id' | 'createdAt'>`: what a caller supplies to `addContact`. */
  datatype Draft = Draft(
    name: string,
    role: string,
    company: string,
    email: Option<string>,
    phone: Option<string>,
    linkedin: Option<string>,
    priority: Priority,
    status: Status,
    source: string,
    lastContact: Option<string>,
    nextFollowUp: Option<string>,
    notes: string,
    tags: seq<string>,
    context: Option<string>,
    value: Option<string>)

  /** `Partial<Contact>`: each field either absent (None) or a new value. */
  datatype Patch = Patch(
    id: Option<string>,
    name: Option<string>,
    role: Option<string>,
    company: Option<string>,
    email: Option<string>,
    phone: Option<string>,
    linkedin: Option<string>,
    priority: Option<Priority>,
    status: Option<Status>,
    source: Option<string>,
    lastContact: Option<Option<string>>,
    nextFollowUp: Option<Option<string>>,
    notes: Option<string>,
    tags: Option<seq<string>>,
    createdAt: Option<string>,
    context: Option<string>,
    value: Option<string>)

  /** The empty update `{}`. */
  const NoChange: Patch :=
    Patch(None, None, None, None, None, None, None, None, None, None, None, None, None, None,
          None, None, None)

  /** The fields of a contact other than `id` and `createdAt`. */
  function DraftOf(c: Contact): Draft
  {
    Draft(c.name, c.role, c.company, c.email, c.phone, c.linkedin, c.priority, c.status,
          c.source, c.lastContact, c.nextFollowUp, c.notes, c.tags, c.context, c.value)
  }

  /** `{ ...contact, id, createdAt }` (hooks.ts, `addContact`): the new record carries the
      given id and creation date and every other field of the input. */
  function NewContact(d: Draft, id: string, createdAt: string): (c: Contact)
    ensures c.id == id && c.createdAt == createdAt
    ensures DraftOf(c) == d
  {
    Contact(id, d.name, d.role, d.company, d.email, d.phone, d.linkedin, d.priority, d.status,
            d.source, d.lastContact, d.nextFollowUp, d.notes, d.tags, createdAt, d.context,
            d.value)
  }

  /** A draft used as an update, as the edit form does: every field of the draft that is
      present, and neither `id` nor `createdAt`. */
  function DraftAsPatch(d: Draft): (p: Patch)
    ensures p.id.None? && p.createdAt.None?
  {
    Patch(None, Some(d.name), Some(d.role), Some(d.company), d.email, d.phone, d.linkedin,
          Some(d.priority), Some(d.status), Some(d.source), Some(d.lastContact),
          Some(d.nextFollowUp), Some(d.notes), Some(d.tags), None, d.context, d.value)
  }

  /** The value of a spread field: the update's when present, the record's otherwise. */
  function Over<T>(update: Option<T>, current: T): T
  {
    if update.Some? then update.value else current
  }

  /** An optional field (`email?`) under a spread: the update's value when present. */
  function OverOptional<T>(update: Option<T>, current: Option<T>): Option<T>
  {
    if update.Some? then Some(update.value) else current
  }

  /** `{ ...c, ...p }`: an update without an id or a creation date keeps the record's. */
  function Merge(c: Contact, p: Patch): (r: Contact)
    ensures p.id.None? ==> r.id == c.id
    ensures p.createdAt.None? ==> r.createdAt == c.createdAt
  {
    Contact(Over(p.id, c.id), Over(p.name, c.name), Over(p.role, c.role),
            Over(p.company, c.company), OverOptional(p.email, c.email),
            OverOptional(p.phone, c.phone), OverOptional(p.linkedin, c.linkedin),
            Over(p.priority, c.priority), Over(p.status, c.status), Over(p.source, c.source),
            Over(p.lastContact, c.lastContact), Over(p.nextFollowUp, c.nextFollowUp),
            Over(p.notes, c.notes), Over(p.tags, c.tags), Over(p.createdAt, c.createdAt),
            OverOptional(p.context, c.context), OverOptional(p.value, c.value))
  }

  /** Spreading the empty update changes nothing; spreading an update twice is spreading
      it once. */
  lemma MergeLaws(c: Contact, p: Patch)
    ensures Merge(c, NoChange) == c
    ensures Merge(Merge(c, p), p) == Merge(c, p)
  {
  }

  /** Saving a complete draft over a record keeps the record's id and creation date and
      takes every other field from the draft. */
  lemma MergeDraft(c: Contact, d: Draft)
    requires d.email.Some? && d.phone.Some? && d.linkedin.Some?
    requires d.context.Some? && d.value.Some?
    ensures Merge(c, DraftAsPatch(d)) == NewContact(d, c.id, c.createdAt)
  {
  }

  // =======================================================================================
  // Identity
  // =======================================================================================

  /** Some record in `cs` has this id. */
  predicate HasId(cs: seq<Contact>, id: string)
  {
    exists c :: c in cs && c.id == id
  }

  /** No two records share an id. */
  predicate UniqueIds(cs: seq<Contact>)
  {
    forall i, j :: 0 <= i < j < |cs| ==> cs[i].id != cs[j].id
  }

  // =======================================================================================
  // addContact: the list operation is `[newContact, ...prev]`
  // =======================================================================================

  /** The code does not make ids fresh (two additions in one millisecond collide), so
      freshness is the caller's premise: given it, prepending keeps ids unique. */
  lemma AddKeepsIdsUnique(cs: seq<Contact>, c: Contact)
    requires UniqueIds(cs) && !HasId(cs, c.id)
    ensures UniqueIds([c] + cs)
  {
    var r := [c] + cs;
    forall i, j | 0 <= i < j < |r| ensures r[i].id != r[j].id {
      if i == 0 {
        assert r[j] in cs;
      } else {
        assert r[i] == cs[i - 1] && r[j] == cs[j - 1];
      }
    }
  }

  // =======================================================================================
  // getContact: `contacts.find(c => c.id === id)`
  // =======================================================================================

  /** The first record with this id, if any. */
  function GetContact(cs: seq<Contact>, id: string): (r: Option<Contact>)
    ensures r.None? <==> !HasId(cs, id)
    ensures r.Some? ==> r.value in cs && r.value.id == id
  {
    if cs == [] then None
    else if cs[0].id == id then Some(cs[0])
    else
      assert forall c :: c in cs ==> c == cs[0] || c in cs[1..];
      GetContact(cs[1..], id)
  }

  /** `find` returns the record at the first index carrying the id. */
  lemma {:induction false} GetContactFirst(cs: seq<Contact>, id: string, i: nat)
    requires i < |cs| && cs[i].id == id
    requires forall j :: 0 <= j < i ==> cs[j].id != id
    ensures GetContact(cs, id) == Some(cs[i])
  {
    if i > 0 {
      GetContactFirst(cs[1..], id, i - 1);
    }
  }

  /** With unique ids, `find` returns the one record that carries the id. */
  lemma GetContactUnique(cs: seq<Contact>, i: nat)
    requires UniqueIds(cs) && i < |cs|
    ensures GetContact(cs, cs[i].id) == Some(cs[i])
  {
    GetContactFirst(cs, cs[i].id, i);
  }

  // =======================================================================================
  // updateContact: `prev.map(c => c.id === id ? { ...c, ...updates } : c)`
  // =======================================================================================

  function Updated(cs: seq<Contact>, id: string, p: Patch): (r: seq<Contact>)
    ensures |r| == |cs|
  {
    if cs == [] then []
    else [if cs[0].id == id then Merge(cs[0], p) else cs[0]] + Updated(cs[1..], id, p)
  }

  /** Position by position, an update merges into each record with the id and leaves every
      other record as it was; order and length are kept. */
  lemma {:induction false} UpdatedAt(cs: seq<Contact>, id: string, p: Patch, i: nat)
    requires i < |cs|
    ensures cs[i].id == id ==> Updated(cs, id, p)[i] == Merge(cs[i], p)
    ensures cs[i].id != id ==> Updated(cs, id, p)[i] == cs[i]
  {
    if i > 0 {
      UpdatedAt(cs[1..], id, p, i - 1);
    }
  }

  /** An update of an id that no record carries leaves the list unchanged. */
  lemma {:induction false} UpdateAbsent(cs: seq<Contact>, id: string, p: Patch)
    requires !HasId(cs, id)
    ensures Updated(cs, id, p) == cs
  {
    if cs != [] {
      assert cs[0] in cs;
      assert forall c :: c in cs[1..] ==> c in cs;
      UpdateAbsent(cs[1..], id, p);
    }
  }

  /** An update that does not carry `id` keeps every record's id in place. */
  lemma UpdateKeepsIds(cs: seq<Contact>, id: string, p: Patch, i: nat)
    requires p.id.None? && i < |cs|
    ensures Updated(cs, id, p)[i].id == cs[i].id
  {
    UpdatedAt(cs, id, p, i);
  }

  /** Reading back after an update (without `id` among the updated fields) finds the old
      record with the update spread over it, and any other id finds what it found before. */
  lemma {:induction false} UpdateThenGet(cs: seq<Contact>, id: string, p: Patch, x: string)
    requires p.id.None?
    ensures x == id ==>
              GetContact(Updated(cs, id, p), x)
              == (if HasId(cs, id) then Some(Merge(GetContact(cs, id).value, p)) else None)
    ensures x != id ==> GetContact(Updated(cs, id, p), x) == GetContact(cs, x)
  {
    if cs != [] {
      UpdateThenGet(cs[1..], id, p, x);
      var r := Updated(cs, id, p);
      assert r[1..] == Updated(cs[1..], id, p);
      assert forall c :: c in cs ==> c == cs[0] || c in cs[1..];
    }
  }

  // =======================================================================================
  // deleteContact: `prev.filter(c => c.id !== id)`
  // =======================================================================================

  /** The filter predicate of `deleteContact`. */
  function OtherThan(id: string): Contact -> bool
  {
    (c: Contact) => c.id != id
  }

  /** `prev.filter(c => c.id !== id)`: no record with the id is left, and the list does not
      grow. */
  function Deleted(cs: seq<Contact>, id: string): (r: seq<Contact>)
    ensures |r| <= |cs|
    ensures forall c :: c in r ==> c.id != id
  {
    Filter(OtherThan(id), cs)
  }

  /** After deleting an id, exactly the records with other ids remain, so `find` on that
      id comes back empty. */
  lemma DeleteRemoves(cs: seq<Contact>, id: string)
    ensures forall c :: c in Deleted(cs, id) <==> c in cs && c.id != id
    ensures !HasId(Deleted(cs, id), id)
    ensures GetContact(Deleted(cs, id), id) == None
  {
  }

  /** Deleting an absent id is a no-op. */
  lemma DeleteAbsent(cs: seq<Contact>, id: string)
    requires !HasId(cs, id)
    ensures Deleted(cs, id) == cs
  {
    FilterAll(OtherThan(id), cs);
  }

  /** Deleting twice is deleting once. */
  lemma DeleteIdempotent(cs: seq<Contact>, id: string)
    ensures Deleted(Deleted(cs, id), id) == Deleted(cs, id)
  {
    FilterIdempotent(OtherThan(id), cs);
  }

  /** Deletion keeps the order of what remains: deleting from a concatenation deletes from
      each part. */
  lemma DeleteKeepsOrder(a: seq<Contact>, b: seq<Contact>, id: string)
    ensures Deleted(a + b, id) == Deleted(a, id) + Deleted(b, id)
  {
    FilterConcat(OtherThan(id), a, b);
  }

  /** Deleting one id does not change what `find` returns for any other id. */
  lemma {:induction false} DeleteThenGetOther(cs: seq<Contact>, id: string, x: string)
    requires x != id
    ensures GetContact(Deleted(cs, id), x) == GetContact(cs, x)
  {
    if cs != [] {
      DeleteThenGetOther(cs[1..], id, x);
    }
  }

  /** With unique ids, deleting a present id shortens the list by exactly one, and an
      absent id leaves the length as it was. */
  lemma {:induction false} DeleteLength(cs: seq<Contact>, id: string)
    requires UniqueIds(cs)
    ensures |Deleted(cs, id)| == if HasId(cs, id) then |cs| - 1 else |cs|
  {
    if cs == [] {
    } else if cs[0].id == id {
      assert forall c :: c in cs[1..] ==> c.id != id by {
        forall c | c in cs[1..] ensures c.id != id {
          var j :| 0 <= j < |cs[1..]| && cs[1..][j] == c;
          assert cs[j + 1] == c;
        }
      }
      DeleteAbsent(cs[1..], id);
    } else {
      DeleteLength(cs[1..], id);
      assert forall c :: c in cs ==> c == cs[0] || c in cs[1..];
    }
  }

  /** A deletion keeps the ids of what remains unique. */
  lemma {:induction false} DeleteKeepsIdsUnique(cs: seq<Contact>, id: string)
    requires UniqueIds(cs)
    ensures UniqueIds(Deleted(cs, id))
  {
    if cs != [] {
      DeleteKeepsIdsUnique(cs[1..], id);
      var rest := Deleted(cs[1..], id);
      if cs[0].id != id {
        var r := [cs[0]] + rest;
        assert Deleted(cs, id) == r;
        forall i, j | 0 <= i < j < |r| ensures r[i].id != r[j].id {
          if i == 0 {
            assert r[j] in cs[1..];
            var k :| 0 <= k < |cs[1..]| && cs[1..][k] == r[j];
            assert cs[k + 1] == r[j];
          } else {
            assert r[i] == rest[i - 1] && r[j] == rest[j - 1];
          }
        }
      }
    }
  }

  // =======================================================================================
  // getFollowUpsDue and getStats
  // =======================================================================================

  /** `c.nextFollowUp && c.nextFollowUp <= today`: a follow-up is set and falls on or
      before today, comparing the `YYYY-MM-DD` strings. */
  predicate IsDue(c: Contact, today: string)
  {
    HasFollowUp(c) && LexLe(c.nextFollowUp.value, today)
  }

  function DueOn(today: string): Contact -> bool
  {
    (c: Contact) => IsDue(c, today)
  }

  /** The records whose follow-up is due, in list order. */
  function GetFollowUpsDue(cs: seq<Contact>, today: string): (r: seq<Contact>)
    ensures forall c :: c in r <==> c in cs && HasFollowUp(c) && LexLe(c.nextFollowUp.value, today)
    ensures |r| <= |cs|
  {
    Filter(DueOn(today), cs)
  }

  function WithPriority(p: Priority): Contact -> bool
  {
    (c: Contact) => c.priority == p
  }

  function WithStatus(s: Status): Contact -> bool
  {
    (c: Contact) => c.status == s
  }

  datatype Stats = Stats(total: nat, highPriority: nat, needToFoster: nat, followUpsDue: nat,
                         active: nat)

  /** The five counts that head the page. */
  function GetStats(cs: seq<Contact>, today: string): (r: Stats)
    ensures r.total == |cs|
    ensures r.highPriority <= r.total && r.needToFoster <= r.total
    ensures r.followUpsDue <= r.total && r.active <= r.total
    ensures r.needToFoster + r.active <= r.total
    ensures r.followUpsDue == |GetFollowUpsDue(cs, today)|
  {
    FilterDisjoint(WithStatus(NeedToFoster), WithStatus(Active), cs);
    Stats(|cs|,
          |Filter(WithPriority(High), cs)|,
          |Filter(WithStatus(NeedToFoster), cs)|,
          |Filter(DueOn(today), cs)|,
          |Filter(WithStatus(Active), cs)|)
  }

  /** The counts of no records are all zero. */
  lemma StatsEmpty(today: string)
    ensures GetStats([], today) == Stats(0, 0, 0, 0, 0)
  {
  }

  /** One record counts once in each count whose condition it meets, and nowhere else. */
  lemma StatsOne(c: Contact, today: string)
    ensures GetStats([c], today)
            == Stats(1, if c.priority == High then 1 else 0,
                     if c.status == NeedToFoster then 1 else 0,
                     if IsDue(c, today) then 1 else 0,
                     if c.status == Active then 1 else 0)
  {
    assert [c][1..] == [];
  }

  /** The counts of two lists in a row add up field by field. With StatsEmpty and StatsOne
      this pins every count to the number of records that meet its condition. */
  lemma StatsConcat(a: seq<Contact>, b: seq<Contact>, today: string)
    ensures var s, sa, sb := GetStats(a + b, today), GetStats(a, today), GetStats(b, today);
            s.total == sa.total + sb.total
            && s.highPriority == sa.highPriority + sb.highPriority
            && s.needToFoster == sa.needToFoster + sb.needToFoster
            && s.followUpsDue == sa.followUpsDue + sb.followUpsDue
            && s.active == sa.active + sb.active
  {
    FilterConcat(WithPriority(High), a, b);
    FilterConcat(WithStatus(NeedToFoster), a, b);
    FilterConcat(DueOn(today), a, b);
    FilterConcat(WithStatus(Active), a, b);
  }

  // =======================================================================================
  // Seed data and loading
  // =======================================================================================

  /** The eight `sampleContacts` that a first run starts from. */
  const SampleContacts: seq<Contact> :=
    [Sample1, Sample2, Sample3, Sample4, Sample5, Sample6, Sample7, Sample8]

  const Sample1: Contact :=
    Contact(id := "1", name := "Raj Shah", role := "Managing Partner", company := "Shield Capital",
            email := Some("raj@shieldcapital.com"), phone := None, linkedin := None,
            priority := High, status := Active, source := "Waypoint Ventures",
            lastContact := Some("2026-02-12"), nextFollowUp := Some("2026-02-19"),
            notes := "Met for coffee. Interested in AI defense tech. Portfolio includes Airspace Intelligence, Apex, Code Metal. Follow up on portco intros.",
            tags := ["VC", "Defense Tech", "Priority"], createdAt := "2026-02-12",
            context := Some("Potential co-investor in AI firm"), value := Some("Strategic"))

  const Sample2: Contact :=
    Contact(id := "2", name := "Alexa Chiriac", role := "Girlfriend", company := "Personal",
            email := None, phone := Some("+1 (XXX) XXX-XXXX"), linkedin := None,
            priority := High, status := Active, source := "Personal",
            lastContact := Some("2026-02-14"), nextFollowUp := Some("2026-02-21"),
            notes := "Valentine's Day virtual dinner. Based in Montreal. Long distance relationship.",
            tags := ["Personal", "Priority"], createdAt := "2025-01-01",
            context := Some("Long-term relationship"), value := None)

  const Sample3: Contact :=
    Contact(id := "3", name := "Alex Gill", role := "Best Friend", company := "Personal",
            email := None, phone := None, linkedin := None,
            priority := High, status := Active, source := "High School",
            lastContact := Some("2026-02-15"), nextFollowUp := Some("2026-03-01"),
            notes := "Best friend since high school. Regular catch-up calls.",
            tags := ["Personal", "Inner Circle"], createdAt := "2010-01-01",
            context := Some("Lifelong friend"), value := None)

  const Sample4: Contact :=
    Contact(id := "4", name := "Christo", role := "Co-Founder", company := "Pathway Automation",
            email := None, phone := None, linkedin := None,
            priority := High, status := Active, source := "Kellogg EMBA",
            lastContact := Some("2026-02-16"), nextFollowUp := Some("2026-02-18"),
            notes := "Kellogg EMBA classmate. Co-founding AI automation agency. $50k/mo goal.",
            tags := ["AI", "Co-Founder", "Kellogg"], createdAt := "2025-01-01",
            context := Some("AI firm co-founder"), value := None)

  const Sample5: Contact :=
    Contact(id := "5", name := "John Richmond", role := "Contact", company := "TBD",
            email := None, phone := None, linkedin := None,
            priority := Medium, status := NeedToFoster, source := "Network",
            lastContact := None, nextFollowUp := Some("2026-02-24"),
            notes := "Priority outreach target. Need to establish connection.",
            tags := ["Priority Outreach"], createdAt := "2026-02-15",
            context := Some("Bi-weekly scan target"), value := None)

  const Sample6: Contact :=
    Contact(id := "6", name := "Andrew Shen", role := "Contact", company := "TBD",
            email := None, phone := None, linkedin := None,
            priority := Medium, status := NeedToFoster, source := "Network",
            lastContact := None, nextFollowUp := Some("2026-02-24"),
            notes := "Priority outreach target.",
            tags := ["Priority Outreach"], createdAt := "2026-02-15",
            context := Some("Bi-weekly scan target"), value := None)

  const Sample7: Contact :=
    Contact(id := "7", name := "Ami Patel", role := "Contact", company := "TBD",
            email := None, phone := None, linkedin := None,
            priority := Medium, status := NeedToFoster, source := "Network",
            lastContact := None, nextFollowUp := Some("2026-02-24"),
            notes := "Priority outreach target.",
            tags := ["Priority Outreach"], createdAt := "2026-02-15",
            context := Some("Bi-weekly scan target"), value := None)

  const Sample8: Contact :=
    Contact(id := "8", name := "Paul Kwan", role := "Contact", company := "TBD",
            email := None, phone := None, linkedin := None,
            priority := Medium, status := NeedToFoster, source := "Network",
            lastContact := None, nextFollowUp := Some("2026-02-24"),
            notes := "Priority outreach target.",
            tags := ["Priority Outreach"], createdAt := "2026-02-15",
            context := Some("Bi-weekly scan target"), value := None)

  /** The seed list holds eight records with the distinct ids "1" to "8". */
  lemma SampleIds()
    ensures |SampleContacts| == 8
    ensures forall i :: 0 <= i < 8 ==> SampleContacts[i].id == [('1' as int + i) as char]
    ensures UniqueIds(SampleContacts)
  {
  }

  /** On 24 February 2026 the seed list counts 8 contacts, 4 of high priority, 4 to
      foster, 4 active and 7 follow-ups due (every one but the 1 March follow-up). */
  lemma SampleStats()
    ensures GetStats(SampleContacts, "2026-02-24") == Stats(8, 4, 4, 7, 4)
  {
    SampleIds();
    SampleHighPriority();
    SampleActive();
    SampleToFoster();
    SampleDue();
  }

  /** The fields the seed statistics depend on. */
  lemma SampleFields()
    ensures |SampleContacts| == 8
    ensures forall i :: 0 <= i < 4 ==>
              SampleContacts[i].priority == High && SampleContacts[i].status == Active
    ensures forall i :: 4 <= i < 8 ==>
              SampleContacts[i].priority == Medium && SampleContacts[i].status == NeedToFoster
    ensures SampleContacts[2].nextFollowUp == Some("2026-03-01")
    ensures forall i :: 4 <= i < 8 ==> SampleContacts[i].nextFollowUp == Some("2026-02-24")
    ensures SampleContacts[0].nextFollowUp == Some("2026-02-19")
    ensures SampleContacts[1].nextFollowUp == Some("2026-02-21")
    ensures SampleContacts[3].nextFollowUp == Some("2026-02-18")
  {
  }

  /** The first four seed records are of high priority. */
  lemma SampleHighPriority()
    ensures Filter(WithPriority(High), SampleContacts) == SampleContacts[..4]
    ensures |Filter(WithPriority(High), SampleContacts)| == 4
  {
    SampleFields();
    FilterPrefix(WithPriority(High), SampleContacts, 4);
  }

  /** The first four seed records are active. */
  lemma SampleActive()
    ensures Filter(WithStatus(Active), SampleContacts) == SampleContacts[..4]
    ensures |Filter(WithStatus(Active), SampleContacts)| == 4
  {
    SampleFields();
    FilterPrefix(WithStatus(Active), SampleContacts, 4);
  }

  /** The last four seed records are to be fostered. */
  lemma SampleToFoster()
    ensures Filter(WithStatus(NeedToFoster), SampleContacts) == SampleContacts[4..]
    ensures |Filter(WithStatus(NeedToFoster), SampleContacts)| == 4
  {
    SampleFields();
    FilterSuffix(WithStatus(NeedToFoster), SampleContacts, 4);
  }

  /** On 24 February 2026 every seed follow-up is due but the third, set for 1 March
      (`DueOn(today)(c)` is `IsDue(c, today)`). */
  lemma SampleDueDates()
    ensures forall i :: 0 <= i < |SampleContacts| && i != 2 ==>
              DueOn("2026-02-24")(SampleContacts[i])
    ensures !IsDue(SampleContacts[2], "2026-02-24")
  {
    SampleDue0();
    SampleDue1();
    SampleDue3();
    SampleDueBack();
    AllButThird(DueOn("2026-02-24"), SampleContacts);
    SampleNotDue();
  }

  lemma AllButThird<T>(p: T -> bool, s: seq<T>)
    requires |s| == 8 && p(s[0]) && p(s[1]) && p(s[3])
    requires forall i :: 4 <= i < 8 ==> p(s[i])
    ensures forall i :: 0 <= i < |s| && i != 2 ==> p(s[i])
  {
  }

  lemma SampleDue0()
    ensures IsDue(SampleContacts[0], "2026-02-24")
  {
    DateBefore(SampleContacts[0].nextFollowUp.value, 8);
  }

  lemma SampleDue1()
    ensures IsDue(SampleContacts[1], "2026-02-24")
  {
    DateBefore(SampleContacts[1].nextFollowUp.value, 9);
  }

  lemma SampleDue3()
    ensures IsDue(SampleContacts[3], "2026-02-24")
  {
    DateBefore(SampleContacts[3].nextFollowUp.value, 8);
  }

  lemma SampleDueBack()
    ensures forall i :: 4 <= i < 8 ==> IsDue(SampleContacts[i], "2026-02-24")
  {
    SampleFollowUpsBack();
    LexLtIrreflexive("2026-02-24");
  }

  lemma SampleFollowUpsBack()
    ensures forall i :: 4 <= i < 8 ==> SampleContacts[i].nextFollowUp == Some("2026-02-24")
  {
  }

  lemma SampleNotDue()
    ensures !IsDue(SampleContacts[2], "2026-02-24")
  {
    LexLtAt("2026-02-24", SampleContacts[2].nextFollowUp.value, 6);
  }

  /** A date that first differs from 24 February 2026 at index `k`, by a smaller digit. */
  lemma DateBefore(d: string, k: nat)
    requires |d| == 10 && k < 10 && d[k] < "2026-02-24"[k]
    requires forall i :: 0 <= i < k ==> d[i] == "2026-02-24"[i]
    ensures LexLe(d, "2026-02-24")
  {
    LexLtAt(d, "2026-02-24", k);
    LexLeIff(d, "2026-02-24");
  }

  /** So the follow-ups due that day are the seed list without its third record. */
  lemma SampleDue()
    ensures GetFollowUpsDue(SampleContacts, "2026-02-24") == SampleContacts[..2] + SampleContacts[3..]
    ensures |GetFollowUpsDue(SampleContacts, "2026-02-24")| == 7
  {
    SampleDueDates();
    FilterAllBut(DueOn("2026-02-24"), SampleContacts, 2);
  }

  /** What the storage slot holds at start-up: nothing, the empty string, text that
      `JSON.parse` rejects, or a list it reads back. */
  datatype Payload = Absent | Blank | Malformed | Serialized(contacts: seq<Contact>)

  /** The state of `useContacts`: the list, whether it has been loaded, and the storage
      slot (the browser storage key `rm_contacts_v1`). */
  class ContactStore {
    var contacts: seq<Contact>
    var loaded: bool
    var storage: Payload

    /** The persistence effect has caught up: once loaded, the slot holds the list. */
    ghost predicate Persisted()
      reads this
    {
      loaded ==> storage == Serialized(contacts)
    }

    /** `useState([])`, `useState(false)`, before the load effect has run. */
    constructor (stored: Payload)
      ensures contacts == [] && !loaded && storage == stored
      ensures Persisted()
    {
      contacts := [];
      loaded := false;
      storage := stored;
    }

    /** The load effect, followed by the persistence effect it triggers: a stored list is
        used as it is; a missing, empty or unreadable one is replaced by the seed list.
        Either way the store is then loaded and the slot holds the list. */
    method Load()
      modifies this
      ensures old(storage).Serialized? ==> contacts == old(storage).contacts
      ensures !old(storage).Serialized? ==> contacts == SampleContacts
      ensures loaded && Persisted()
    {
      if storage.Serialized? {
        contacts := storage.contacts;
      } else {
        contacts := SampleContacts;
      }
      loaded := true;
      storage := Serialized(contacts);
    }

    /** `addContact`: the new record goes in front of the list and is returned. */
    method AddContact(d: Draft, newId: string, today: string) returns (c: Contact)
      requires Persisted()
      modifies this
      ensures c.id == newId && c.createdAt == today && DraftOf(c) == d
      ensures contacts == [c] + old(contacts)
      ensures loaded == old(loaded) && Persisted()
      ensures !loaded ==> storage == old(storage)
    {
      c := NewContact(d, newId, today);
      contacts := [c] + contacts;
      if loaded {
        storage := Serialized(contacts);
      }
    }

    /** `updateContact` */
    method UpdateContact(id: string, updates: Patch)
      requires Persisted()
      modifies this
      ensures contacts == Updated(old(contacts), id, updates)
      ensures loaded == old(loaded) && Persisted()
      ensures !loaded ==> storage == old(storage)
    {
      contacts := Updated(contacts, id, updates);
      if loaded {
        storage := Serialized(contacts);
      }
    }

    /** `deleteContact` */
    method DeleteContact(id: string)
      requires Persisted()
      modifies this
      ensures contacts == Deleted(old(contacts), id)
      ensures loaded == old(loaded) && Persisted()
      ensures !loaded ==> storage == old(storage)
    {
      contacts := Deleted(contacts, id);
      if loaded {
        storage := Serialized(contacts);
      }
    }
  }

  /** Loading an empty saved list, adding a record and deleting it again leaves the store
      empty and the slot holding the empty list. */
  method AddThenDelete(d: Draft, newId: string, today: string)
    returns (after: seq<Contact>, slot: Payload)
    ensures after == [] && slot == Serialized([])
  {
    var store := new ContactStore(Serialized([]));
    store.Load();
    var c := store.AddContact(d, newId, today);
    store.DeleteContact(c.id);
    after, slot := store.contacts, store.storage;
  }
}
