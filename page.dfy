/** The home page of `app/page.tsx`: the search-and-tab filter over the contact list, the
    contact card's initials, overdue flag and tag strip, and the page's own state (`search`,
    `selectedContact`, `isAddOpen`, `activeTab`) with the handlers that change it. */
module HomePage {
  import opened Wrappers
  import opened Strings
  import opened Seqs
  import opened ContactTypes
  import opened Contacts

  // =======================================================================================
  // The search
  // =======================================================================================

  /** `tags.some(t => t.toLowerCase().includes(q))` */
  predicate AnyTagContains(tags: seq<string>, q: string)
    ensures AnyTagContains(tags, q) <==> exists i :: 0 <= i < |tags| && Contains(Lower(tags[i]), q)
  {
    if tags == [] then false
    else
      assert forall i :: 0 < i < |tags| ==> tags[i] == tags[1..][i - 1];
      Contains(Lower(tags[0]), q) || AnyTagContains(tags[1..], q)
  }

  /** The search text, lower-cased, occurs in the lower-cased name, company or role, or in
      some lower-cased tag. `source` and `notes` are not searched. */
  predicate MatchesSearch(c: Contact, search: string)
  {
    var q := Lower(search);
    Contains(Lower(c.name), q) || Contains(Lower(c.company), q) || Contains(Lower(c.role), q)
    || AnyTagContains(c.tags, q)
  }

  /** Only the name, company, role and tags are searched: a contact's source and notes
      play no part in whether it matches. */
  lemma SearchIgnoresSourceAndNotes(c: Contact, search: string, source: string, notes: string)
    ensures MatchesSearch(c.(source := source, notes := notes), search) == MatchesSearch(c, search)
  {
  }

  /** The empty search matches every contact. */
  lemma EmptySearchMatches(c: Contact)
    ensures MatchesSearch(c, "")
  {
    ContainsEmpty(Lower(c.name));
  }

  /** A search text can only be found where its first letter, lower-cased, stands at a
      position early enough for the rest to fit. */
  lemma {:induction false} NotFoundWithoutStart(s: string, q: string)
    requires q != []
    requires forall k :: 0 <= k <= |s| - |q| ==> LowerChar(s[k]) != q[0]
    ensures !Contains(Lower(s), q)
  {
    ContainsIff(Lower(s), q);
    forall i ensures !OccursAt(Lower(s), q, i) {
      if 0 <= i <= |s| - |q| {
        assert Lower(s)[i..i + |q|][0] == LowerChar(s[i]);
      }
    }
  }

  // =======================================================================================
  // The tabs
  // =======================================================================================

  /** What a tab adds to the search: "high" a high priority, "foster" the need-to-foster
      status, "followup" a follow-up due today; "all", and any value other than these four,
      add nothing. */
  predicate TabAccepts(tab: string, c: Contact, today: string)
  {
    if tab == "all" then true
    else if tab == "high" then c.priority == High
    else if tab == "foster" then c.status == NeedToFoster
    else if tab == "followup" then IsDue(c, today)
    else true
  }

  /** The four tabs the page offers. */
  predicate KnownTab(tab: string)
  {
    tab == "all" || tab == "high" || tab == "foster" || tab == "followup"
  }

  /** The callback given to `contacts.filter`. */
  function Shown(search: string, tab: string, today: string): Contact -> bool
  {
    (c: Contact) => MatchesSearch(c, search) && TabAccepts(tab, c, today)
  }

  /** `filteredContacts`: the contacts the grid shows, in list order. */
  function FilteredContacts(cs: seq<Contact>, search: string, tab: string, today: string)
    : (r: seq<Contact>)
    ensures |r| <= |cs|
  {
    Filter(Shown(search, tab, today), cs)
  }

  /** A contact is shown exactly when it is in the list, matches the search, and meets the
      tab's condition. */
  lemma FilteredIff(cs: seq<Contact>, search: string, tab: string, today: string, c: Contact)
    ensures c in FilteredContacts(cs, search, tab, today) <==>
              c in cs && MatchesSearch(c, search)
              && (tab == "high" ==> c.priority == High)
              && (tab == "foster" ==> c.status == NeedToFoster)
              && (tab == "followup" ==> HasFollowUp(c) && LexLe(c.nextFollowUp.value, today))
  {
  }

  /** The filter keeps the list order: filtering a concatenation filters each part. */
  lemma FilteredKeepsOrder(a: seq<Contact>, b: seq<Contact>, search: string, tab: string,
                           today: string)
    ensures FilteredContacts(a + b, search, tab, today)
            == FilteredContacts(a, search, tab, today) + FilteredContacts(b, search, tab, today)
  {
    FilterConcat(Shown(search, tab, today), a, b);
  }

  /** With an empty search the "all" tab shows the whole list. */
  lemma EmptySearchShowsAll(cs: seq<Contact>, today: string)
    ensures FilteredContacts(cs, "", "all", today) == cs
  {
    forall c | c in cs ensures Shown("", "all", today)(c) {
      EmptySearchMatches(c);
    }
    FilterAll(Shown("", "all", today), cs);
  }

  /** A tab value other than the four behaves like "all". */
  lemma UnknownTabIsAll(cs: seq<Contact>, search: string, tab: string, today: string)
    requires !KnownTab(tab)
    ensures FilteredContacts(cs, search, tab, today) == FilteredContacts(cs, search, "all", today)
  {
    FilterAgree(Shown(search, tab, today), Shown(search, "all", today), cs);
  }

  /** With an empty search, the "high" tab shows as many contacts as the high-priority
      count, the "foster" tab as many as the need-to-foster count, and the "followup" tab
      exactly the follow-ups due. */
  lemma EmptySearchTabs(cs: seq<Contact>, today: string)
    ensures |FilteredContacts(cs, "", "high", today)| == GetStats(cs, today).highPriority
    ensures |FilteredContacts(cs, "", "foster", today)| == GetStats(cs, today).needToFoster
    ensures FilteredContacts(cs, "", "followup", today) == GetFollowUpsDue(cs, today)
  {
    forall c | c in cs ensures MatchesSearch(c, "") {
      EmptySearchMatches(c);
    }
    FilterAgree(Shown("", "high", today), WithPriority(High), cs);
    FilterAgree(Shown("", "foster", today), WithStatus(NeedToFoster), cs);
    FilterAgree(Shown("", "followup", today), DueOn(today), cs);
  }

  // =======================================================================================
  // The search "kellogg" on the seed list
  // =======================================================================================

  /** No 'k' or 'K' stands where "kellogg" could start. */
  predicate NoKellogg(s: string)
  {
    forall k :: 0 <= k <= |s| - 7 ==> LowerChar(s[k]) != 'k'
  }

  lemma MissesKellogg(c: Contact)
    requires NoKellogg(c.name) && NoKellogg(c.company) && NoKellogg(c.role)
    requires forall i :: 0 <= i < |c.tags| ==> NoKellogg(c.tags[i])
    ensures !MatchesSearch(c, "kellogg")
  {
    var q := Lower("kellogg");
    assert q == "kellogg";
    NotFoundWithoutStart(c.name, q);
    NotFoundWithoutStart(c.company, q);
    NotFoundWithoutStart(c.role, q);
    forall i | 0 <= i < |c.tags| ensures !Contains(Lower(c.tags[i]), q) {
      NotFoundWithoutStart(c.tags[i], q);
    }
  }

  lemma SampleKellogg0()
    ensures !MatchesSearch(SampleContacts[0], "kellogg")
  {
    SampleTerms1();
    var c := SampleContacts[0];
    assert c == Sample1;
    MissesKellogg(c);
  }

  lemma SampleTerms1()
    ensures NoKellogg("Raj Shah") && NoKellogg("Managing Partner") &&
            NoKellogg("Shield Capital") && NoKellogg("VC") && NoKellogg("Defense Tech") &&
            NoKellogg("Priority")
  {
  }

  lemma SampleKellogg1()
    ensures !MatchesSearch(SampleContacts[1], "kellogg")
  {
    SampleTerms2();
    var c := SampleContacts[1];
    assert c == Sample2;
    MissesKellogg(c);
  }

  lemma SampleTerms2()
    ensures NoKellogg("Alexa Chiriac") && NoKellogg("Girlfriend") && NoKellogg("Personal") &&
            NoKellogg("Priority")
  {
  }

  lemma SampleKellogg2()
    ensures !MatchesSearch(SampleContacts[2], "kellogg")
  {
    SampleTerms3();
    var c := SampleContacts[2];
    assert c == Sample3;
    MissesKellogg(c);
  }

  lemma SampleTerms3()
    ensures NoKellogg("Alex Gill") && NoKellogg("Best Friend") && NoKellogg("Personal") &&
            NoKellogg("Inner Circle")
  {
  }

  lemma SampleKelloggLast()
    ensures forall i :: 4 <= i < 8 ==> !MatchesSearch(SampleContacts[i], "kellogg")
  {
    SampleTermsLast();
    var s := SampleContacts;
    forall i | 4 <= i < 8 ensures !MatchesSearch(s[i], "kellogg") {
      assert s[i].role == "Contact" && s[i].company == "TBD";
      assert s[i].tags == ["Priority Outreach"];
      assert s[i].name in ["John Richmond", "Andrew Shen", "Ami Patel", "Paul Kwan"];
      MissesKellogg(s[i]);
    }
  }

  lemma SampleTermsLast()
    ensures NoKellogg("John Richmond") && NoKellogg("Andrew Shen") && NoKellogg("Ami Patel") &&
            NoKellogg("Paul Kwan") && NoKellogg("Contact") && NoKellogg("TBD") &&
            NoKellogg("Priority Outreach")
  {
  }

  /** Christo's tag "Kellogg" matches the search. */
  lemma SampleKellogg3()
    ensures MatchesSearch(SampleContacts[3], "kellogg") && SampleContacts[3].id == "4"
  {
    var c := SampleContacts[3];
    assert c == Sample4;
    assert Lower(c.tags[2]) == "kellogg";
    assert StartsWith(Lower(c.tags[2]), Lower("kellogg"));
  }

  /** Searching the seed list for "kellogg" finds only Christo (id "4"), through his tag. */
  lemma SampleKellogg(today: string)
    ensures FilteredContacts(SampleContacts, "kellogg", "all", today) == [SampleContacts[3]]
    ensures SampleContacts[3].id == "4"
  {
    SampleKellogg0();
    SampleKellogg1();
    SampleKellogg2();
    SampleKelloggLast();
    AllButFourth(Misses("kellogg"), SampleContacts);
    SampleKellogg3();
    OnlyOneMatches(SampleContacts, "kellogg", today, 3);
  }

  /** The contacts a search does not match. */
  function Misses(search: string): Contact -> bool
  {
    (c: Contact) => !MatchesSearch(c, search)
  }

  lemma AllButFourth<T>(p: T -> bool, s: seq<T>)
    requires |s| == 8 && p(s[0]) && p(s[1]) && p(s[2])
    requires forall i :: 4 <= i < 8 ==> p(s[i])
    ensures forall i :: 0 <= i < |s| && i != 3 ==> p(s[i])
  {
  }

  /** When the search matches exactly one contact, the "all" tab shows it alone. */
  lemma OnlyOneMatches(cs: seq<Contact>, search: string, today: string, k: nat)
    requires k < |cs| && MatchesSearch(cs[k], search)
    requires forall i :: 0 <= i < |cs| && i != k ==> Misses(search)(cs[i])
    ensures FilteredContacts(cs, search, "all", today) == [cs[k]]
  {
    FilterOnly(Shown(search, "all", today), cs, k);
  }

  // =======================================================================================
  // The contact card
  // =======================================================================================

  /** `words.map(n => n[0]).join('')`: the first character of each word; an empty word
      gives `undefined`, which `join` writes as nothing. The result holds, in order, the
      first letter of every non-empty word and nothing else. */
  function FirstLetters(words: seq<string>): (r: string)
    ensures var ws := Filter(NonEmpty(), words);
            |r| == |ws| && forall k :: 0 <= k < |r| ==> ws[k] != [] && r[k] == ws[k][0]
  {
    if words == [] then []
    else
      var rest := FirstLetters(words[1..]);
      if words[0] == [] then rest
      else [words[0][0]] + rest
  }

  /** The letters of consecutive word lists follow one another. */
  lemma {:induction false} FirstLettersConcat(a: seq<string>, b: seq<string>)
    ensures FirstLetters(a + b) == FirstLetters(a) + FirstLetters(b)
  {
    if a == [] {
      assert a + b == b;
    } else {
      assert (a + b)[0] == a[0] && (a + b)[1..] == a[1..] + b;
      FirstLettersConcat(a[1..], b);
    }
  }

  /** A single word gives its first letter, or nothing when it is empty. */
  lemma FirstLettersOne(w: string)
    ensures FirstLetters([w]) == (if w == [] then [] else [w[0]])
  {
    assert [w][1..] == [];
  }

  /** The words of a name that give an initial: the pieces between single spaces that are
      not empty. */
  function NameWords(name: string): seq<string>
  {
    Filter(NonEmpty(), Split(name, ' '))
  }

  /** `name.split(' ').map(n => n[0]).join('').toUpperCase().slice(0, 2)`: the upper-cased
      first letters of the first two non-empty words, in order, or of the only one. */
  function Initials(name: string): (r: string)
    ensures var ws := NameWords(name);
            |r| == (if |ws| < 2 then |ws| else 2)
            && forall k :: 0 <= k < |r| ==> ws[k] != [] && r[k] == UpperChar(ws[k][0])
  {
    var letters := Upper(FirstLetters(Split(name, ' ')));
    if |letters| <= 2 then letters else letters[..2]
  }

  /** Each initial is the upper-cased first character of a word of the name. */
  lemma InitialFromWord(name: string, k: nat)
    requires k < |Initials(name)|
    ensures exists w :: w in Split(name, ' ') && w != [] && Initials(name)[k] == UpperChar(w[0])
  {
    var w := NameWords(name)[k];
    assert w in NameWords(name);
  }

  /** A run of spaces in front of the name adds nothing: empty words contribute no letter. */
  lemma InitialsSkipSpace(name: string)
    ensures Initials([' '] + name) == Initials(name)
  {
    assert ([' '] + name)[1..] == name;
    assert Split([' '] + name, ' ') == [[]] + Split(name, ' ');
    assert ([[]] + Split(name, ' '))[1..] == Split(name, ' ');
  }

  /** A one-word name gives its upper-cased first letter. */
  lemma InitialsOneWord(a: string)
    requires a != [] && ' ' !in a
    ensures Initials(a) == [UpperChar(a[0])]
  {
    SplitWithout(a, ' ');
  }

  /** "First Last" gives the upper-cased first letters of both words. */
  lemma InitialsTwoWords(a: string, b: string)
    requires a != [] && ' ' !in a && b != [] && ' ' !in b
    ensures Initials(a + " " + b) == [UpperChar(a[0]), UpperChar(b[0])]
  {
    SplitConcat(a, b, ' ');
    SplitWithout(b, ' ');
    assert Split(a + " " + b, ' ') == [a, b];
    assert [a, b][1..] == [b] && [b][1..] == [];
    assert FirstLetters([a, b]) == [a[0], b[0]];
  }

  /** `c.nextFollowUp && c.nextFollowUp < today` */
  predicate IsOverdue(c: Contact, today: string)
  {
    HasFollowUp(c) && LexLt(c.nextFollowUp.value, today)
  }

  /** A follow-up is due exactly when it is overdue or falls on today; one on today is due
      but not overdue. */
  lemma DueIsOverdueOrToday(c: Contact, today: string)
    ensures IsDue(c, today) <==> IsOverdue(c, today) || (HasFollowUp(c) && c.nextFollowUp.value == today)
    ensures HasFollowUp(c) && c.nextFollowUp.value == today ==> IsDue(c, today) && !IsOverdue(c, today)
  {
    if HasFollowUp(c) {
      LexLeIff(c.nextFollowUp.value, today);
      LexLtIrreflexive(today);
    }
  }

  /** What the card shows of the tags: the first three, and the count of the rest when
      there are more (`+N`). */
  datatype TagStrip = TagStrip(shown: seq<string>, more: Option<nat>)

  /** `tags.slice(0, 3)` and `tags.length > 3 && +{tags.length - 3}` */
  function TagDisplay(tags: seq<string>): (r: TagStrip)
    ensures |r.shown| <= 3 && r.shown <= tags
    ensures r.more.Some? <==> |tags| > 3
    ensures |r.shown| + r.more.GetOr(0) == |tags|
    ensures |tags| <= 3 ==> r.shown == tags && r.more == None
    ensures |tags| > 3 ==> r.shown == tags[..3] && r.more == Some(|tags| - 3)
  {
    if |tags| <= 3 then TagStrip(tags, None) else TagStrip(tags[..3], Some(|tags| - 3))
  }

  // =======================================================================================
  // The page's state
  // =======================================================================================

  /** The `Home` component once the store has loaded: the store, and the search text, the
      contact open in the detail dialog, whether the add dialog is open, and the tab. */
  class Home {
    const store: ContactStore
    var search: string
    var selected: Option<Contact>
    var isAddOpen: bool
    var activeTab: string

    /** The store is persisted and its ids are unique, and the contact open in the detail
        dialog is the one the store holds under its id. */
    ghost predicate Valid()
      reads this, store
    {
      store.Persisted() && UniqueIds(store.contacts)
      && (selected.Some? ==> GetContact(store.contacts, selected.value.id) == selected)
    }

    /** `useState('')`, `useState(null)`, `useState(false)`, `useState('all')` */
    constructor (s: ContactStore)
      requires s.Persisted() && UniqueIds(s.contacts)
      ensures store == s && search == "" && selected == None && !isAddOpen && activeTab == "all"
      ensures Valid()
    {
      store := s;
      search := "";
      selected := None;
      isAddOpen := false;
      activeTab := "all";
    }

    /** `handleSaveContact`: add the contact and close the add dialog. The new id must be
        fresh for the ids to stay unique. */
    method HandleSaveContact(d: Draft, newId: string, today: string)
      requires Valid() && !HasId(store.contacts, newId)
      modifies this, store
      ensures store.contacts == [NewContact(d, newId, today)] + old(store.contacts)
      ensures !isAddOpen && selected == old(selected)
      ensures search == old(search) && activeTab == old(activeTab)
      ensures Valid()
    {
      var c := store.AddContact(d, newId, today);
      isAddOpen := false;
      AddKeepsIdsUnique(old(store.contacts), c);
      if selected.Some? {
        assert selected.value in old(store.contacts);
        assert GetContact(store.contacts, selected.value.id)
               == GetContact(store.contacts[1..], selected.value.id);
        assert store.contacts[1..] == old(store.contacts);
      }
    }

    /** `handleUpdateContact`: update the store, and spread the same update over the open
        contact when (and only when) it carries the updated id. An update that leaves ids
        alone keeps the open contact equal to the stored one. */
    method HandleUpdateContact(id: string, updates: Patch)
      requires Valid()
      modifies this, store
      ensures store.contacts == Updated(old(store.contacts), id, updates)
      ensures old(selected).Some? && old(selected).value.id == id ==>
                selected == Some(Merge(old(selected).value, updates))
      ensures !(old(selected).Some? && old(selected).value.id == id) ==> selected == old(selected)
      ensures search == old(search) && activeTab == old(activeTab) && isAddOpen == old(isAddOpen)
      ensures updates.id.None? ==> Valid()
    {
      ghost var before := store.contacts;
      store.UpdateContact(id, updates);
      if selected.Some? && selected.value.id == id {
        selected := Some(Merge(selected.value, updates));
      }
      if updates.id.None? {
        forall i, j | 0 <= i < j < |store.contacts|
          ensures store.contacts[i].id != store.contacts[j].id
        {
          UpdateKeepsIds(before, id, updates, i);
          UpdateKeepsIds(before, id, updates, j);
        }
        if selected.Some? {
          UpdateThenGet(before, id, updates, selected.value.id);
        }
      }
    }

    /** The detail dialog's `onDelete`: delete the open contact and close the dialog. */
    method HandleDelete()
      requires Valid() && selected.Some?
      modifies this, store
      ensures store.contacts == Deleted(old(store.contacts), old(selected).value.id)
      ensures selected == None
      ensures search == old(search) && activeTab == old(activeTab) && isAddOpen == old(isAddOpen)
      ensures Valid()
    {
      DeleteKeepsIdsUnique(store.contacts, selected.value.id);
      store.DeleteContact(selected.value.id);
      selected := None;
    }

    /** A card's `onClick`: open the contact in the detail dialog. */
    method SelectContact(c: Contact)
      requires Valid() && c in store.contacts
      modifies this
      ensures selected == Some(c)
      ensures search == old(search) && activeTab == old(activeTab) && isAddOpen == old(isAddOpen)
      ensures Valid()
    {
      var i :| 0 <= i < |store.contacts| && store.contacts[i] == c;
      GetContactUnique(store.contacts, i);
      selected := Some(c);
    }

    /** The detail dialog's `onClose`. */
    method CloseDetail()
      requires Valid()
      modifies this
      ensures selected == None
      ensures search == old(search) && activeTab == old(activeTab) && isAddOpen == old(isAddOpen)
      ensures Valid()
    {
      selected := None;
    }

    /** The search box's `onChange`. */
    method SetSearch(text: string)
      requires Valid()
      modifies this
      ensures search == text
      ensures selected == old(selected) && activeTab == old(activeTab) && isAddOpen == old(isAddOpen)
      ensures Valid()
    {
      search := text;
    }

    /** The tabs' `onValueChange`. */
    method SetActiveTab(tab: string)
      requires Valid()
      modifies this
      ensures activeTab == tab
      ensures selected == old(selected) && search == old(search) && isAddOpen == old(isAddOpen)
      ensures Valid()
    {
      activeTab := tab;
    }

    /** The add dialog's `onOpenChange`, its trigger and its cancel button. */
    method SetAddOpen(open: bool)
      requires Valid()
      modifies this
      ensures isAddOpen == open
      ensures selected == old(selected) && search == old(search) && activeTab == old(activeTab)
      ensures Valid()
    {
      isAddOpen := open;
    }
  }
}
