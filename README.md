# Relationship manager: a verified model of its contact logic

The relationship manager is a single-user contact tracker that runs in the browser. It
keeps a list of contact records, each with a priority, a status and an optional follow-up
date. The list is saved in local storage, and the page shows counts, a search and tab filter,
an add/edit form and a detail view with quick actions. This project models the logic under
that interface in Dafny and proves what it promises:

- `types.dfy` (`ContactTypes`): the contact record, its two closed enumerations, and the
  label and colour tables (`lib/types.ts`).
- `hooks.dfy` (`Contacts`): the list operations of the `useContacts` hook as functions on a
  sequence of contacts, with their order, identity and counting properties. It also holds
  the eight seed records and the `ContactStore` class, which keeps the hook's state
  (`contacts`, `loaded`, the storage slot) and its load and persistence behaviour
  (`lib/hooks.ts`).
- `page.dfy` (`HomePage`): the search-and-tab filter, the card's initials, overdue flag and
  tag strip, and the `Home` class with the page's state and handlers (`app/page.tsx`).
- `contact_form.dfy` (`ContactFormModel`): the form's defaults, its field edits, and the
  comma-separated tag text with its join/parse round trip
  (`components/contact-form.tsx`).
- `contact_detail.dfy` (`ContactDetailModel`): the partial updates of the quick actions,
  the LinkedIn link, the text fallbacks and the view's toggles
  (`components/contact-detail.tsx`).
- Supporting modules:
  - `strings.dfy` (`Strings`): JavaScript string comparison, ASCII case mapping,
    `includes`, `split`, `join` and `trim`.
  - `iso_dates.dfy` (`IsoDates`): for `YYYY-MM-DD` dates (section 4.1.2.2 of
    ISO 8601:2004), string order is calendar order.
  - `seqs.dfy` (`Seqs`): `Array.prototype.filter`.
  - `wrappers.dfy` (`Wrappers`): `Option`.

Conventions:

- "Today", new ids and follow-up dates are parameters.
- A nullable date (`string | null`) and an optional field (`email?`) are both `Option<string>`.
- A date counts as set exactly when the code's truthiness test passes, i.e. it is neither
  null nor "".
- In a partial update (`Partial<Contact>`), a nullable field is `Option<Option<string>>`.
  The outer `None` means "not in the update".

For the seed list on 24 February 2026, `getStats` gives 7 follow-ups due. The eight seed
follow-up dates are 2026-02-19, 2026-02-21, 2026-03-01, 2026-02-18 and four times
2026-02-24; every one except 2026-03-01 falls on or before that day
(`Contacts.SampleDue`, `Contacts.SampleStats`).

## Model

| member | source | states |
|---|---|---|
| ContactTypes.PriorityValues | my-app/lib/types.ts:9 | priority has exactly the three values high, medium and low, with distinct spellings |
| ContactTypes.StatusValues | my-app/lib/types.ts:10 | status has exactly the four values active, need-to-foster, dormant and archived, with distinct spellings |
| ContactTypes.PriorityColor | my-app/lib/types.ts:21-25 | the `priorityColors` entry of a priority; PriorityColorsSet states its values are set |
| ContactTypes.StatusColor | my-app/lib/types.ts:27-32 | the `statusColors` entry of a status; StatusColorsSet states its values are set |
| ContactTypes.StatusLabel | my-app/lib/types.ts:34-39 | the `statusLabels` entry of a status; StatusTablesTotal states the labels are distinct |
| ContactTypes.PriorityLabel | my-app/lib/types.ts:41-45 | the `priorityLabels` entry of a priority; PriorityTablesTotal states the labels are distinct |
| ContactTypes.PriorityTablesTotal | my-app/lib/types.ts:41-45 | every priority has a non-empty label, and no two priorities share one |
| ContactTypes.PriorityColorsSet | my-app/lib/types.ts:21-25 | every priority has a non-empty colour |
| ContactTypes.StatusTablesTotal | my-app/lib/types.ts:34-39 | every status has a non-empty label, no two statuses share one, and need-to-foster reads "Need to Foster" |
| ContactTypes.StatusColorsSet | my-app/lib/types.ts:27-32 | every status has a non-empty colour; dormant has the colour of the low priority |
| Contacts.NewContact | my-app/lib/hooks.ts:159-164 | the new record carries the given id and creation date, and every field of the input unchanged |
| Contacts.Merge | my-app/lib/hooks.ts:170 | `{ ...c, ...updates }`: an update without an id or a creation date keeps the record's; MergeLaws and MergeDraft give the rest |
| Contacts.DraftAsPatch | my-app/components/contact-detail.tsx:49-54 | the edit form's record used as an update never carries an id or a creation date |
| Contacts.MergeLaws | my-app/lib/hooks.ts:170 | spreading the empty update changes nothing; spreading an update twice equals spreading it once |
| Contacts.MergeDraft | my-app/lib/hooks.ts:170 | saving a complete form record over a contact keeps its id and createdAt and takes every other field from the form |
| Contacts.AddKeepsIdsUnique | my-app/lib/hooks.ts:162-165 | given a fresh id, prepending the new record keeps all ids distinct |
| Contacts.GetContact | my-app/lib/hooks.ts:177 | finds nothing exactly when no record has the id; otherwise returns a record of the list with that id |
| Contacts.GetContactFirst | my-app/lib/hooks.ts:177 | when index i is the first to carry the id, the lookup returns the record at i |
| Contacts.GetContactUnique | my-app/lib/hooks.ts:177 | with distinct ids, looking up a record's id returns that record |
| Contacts.Updated | my-app/lib/hooks.ts:169-171 | the update keeps the list length |
| Contacts.UpdatedAt | my-app/lib/hooks.ts:170 | at each position, a record with the id gets the update spread over it and any other record is unchanged |
| Contacts.UpdateAbsent | my-app/lib/hooks.ts:170 | updating an id no record has leaves the list unchanged |
| Contacts.UpdateKeepsIds | my-app/lib/hooks.ts:170 | an update without an id field keeps every record's id in place |
| Contacts.UpdateThenGet | my-app/lib/hooks.ts:169-177 | after an update, looking up the id finds the old record with the update spread over it, and any other id finds what it found before |
| Contacts.Deleted | my-app/lib/hooks.ts:174 | no record with the deleted id is left, and the list does not grow |
| Contacts.DeleteRemoves | my-app/lib/hooks.ts:173-177 | after a delete, exactly the records with other ids remain and looking up the id finds nothing |
| Contacts.DeleteAbsent | my-app/lib/hooks.ts:174 | deleting an absent id leaves the list unchanged |
| Contacts.DeleteIdempotent | my-app/lib/hooks.ts:174 | deleting twice equals deleting once |
| Contacts.DeleteKeepsOrder | my-app/lib/hooks.ts:174 | deleting from a concatenation deletes from each part in place, so the order is kept |
| Contacts.DeleteThenGetOther | my-app/lib/hooks.ts:173-177 | a delete does not change what looking up any other id returns |
| Contacts.DeleteLength | my-app/lib/hooks.ts:174 | with distinct ids, deleting a present id shortens the list by one and an absent id leaves it as long as before |
| Contacts.DeleteKeepsIdsUnique | my-app/lib/hooks.ts:174 | deleting keeps ids distinct |
| Contacts.IsDue | my-app/lib/hooks.ts:181 | a follow-up is set (not null, not "") and not after today as strings; IsoDates.LexLeIsCalendarOrder makes that "on or before today" |
| Contacts.GetFollowUpsDue | my-app/lib/hooks.ts:179-182 | keeps exactly the records whose follow-up is set (not null, not "") and not after today as strings, and is no longer than the list |
| Contacts.GetStats | my-app/lib/hooks.ts:184-193 | total is the list length, every count is at most the total, need-to-foster plus active is at most the total, and followUpsDue is the number of follow-ups due |
| Contacts.StatsEmpty | my-app/lib/hooks.ts:184-193 | the stats of an empty list are all zero |
| Contacts.StatsOne | my-app/lib/hooks.ts:184-193 | a single record counts 1 in the total and 1 in exactly those of high priority, need to foster, follow-ups due and active whose condition it meets, 0 in the others |
| Contacts.StatsConcat | my-app/lib/hooks.ts:184-193 | the stats of two lists in a row are the field-wise sums of their stats, so with StatsEmpty and StatsOne each count is the number of records meeting its condition |
| Contacts.SampleIds | my-app/lib/hooks.ts:8-132 | the seed list has eight records with the distinct ids "1" to "8" |
| Contacts.SampleFields | my-app/lib/hooks.ts:8-132 | the seed records' priorities, statuses and follow-up dates |
| Contacts.SampleHighPriority | my-app/lib/hooks.ts:188 | the high-priority seed records are the first four |
| Contacts.SampleActive | my-app/lib/hooks.ts:191 | the active seed records are the first four |
| Contacts.SampleToFoster | my-app/lib/hooks.ts:189 | the need-to-foster seed records are the last four |
| Contacts.SampleDueDates | my-app/lib/hooks.ts:181 | on 2026-02-24 every seed follow-up is due except the one set for 2026-03-01 |
| Contacts.SampleDue | my-app/lib/hooks.ts:179-182 | on 2026-02-24 the follow-ups due are the seed list without its third record, seven in all |
| Contacts.SampleStats | my-app/lib/hooks.ts:184-193 | on 2026-02-24 the seed list gives total 8, high priority 4, need to foster 4, follow-ups due 7 and active 4 |
| Contacts.ContactStore.constructor | my-app/lib/hooks.ts:135-136 | the store starts empty and not loaded, with the slot as found |
| Contacts.ContactStore.Load | my-app/lib/hooks.ts:138-157 | a stored list is used as it is; an absent, empty or unreadable slot gives the seed list; either way the store is loaded and the slot holds the list |
| Contacts.ContactStore.AddContact | my-app/lib/hooks.ts:159-167 | the new record (given id, today as createdAt, the input's fields) goes in front of the previous list and is returned, and the slot follows once loaded |
| Contacts.ContactStore.UpdateContact | my-app/lib/hooks.ts:169-171 | the list becomes the updated list and the slot follows once loaded |
| Contacts.ContactStore.DeleteContact | my-app/lib/hooks.ts:173-175 | the list becomes the list without the id and the slot follows once loaded |
| Contacts.AddThenDelete | my-app/lib/hooks.ts:138-175 | loading an empty saved list, adding a record and deleting its id leaves the store empty and the slot holding the empty list |
| Seqs.Filter | my-app/lib/hooks.ts:174 | `filter` keeps exactly the elements that satisfy the predicate and returns no more than it was given |
| Seqs.FilterConcat | my-app/lib/hooks.ts:181 | filtering keeps the input order: filtering a concatenation filters each part |
| Seqs.FilterKeepsLength | my-app/lib/hooks.ts:181 | a filter keeps the length exactly when every element passes |
| Seqs.FilterDisjoint | my-app/lib/hooks.ts:189-191 | two filters whose predicates never both hold keep at most as many elements as the list has |
| Strings.LexLt | my-app/lib/hooks.ts:181 | JavaScript `a < b`: the first differing character decides, and a proper prefix comes first |
| Strings.LexLe | my-app/lib/hooks.ts:181 | JavaScript `a <= b`, defined as `!(b < a)` |
| Strings.Lower | my-app/app/page.tsx:105-109 | `toLowerCase` keeps the length and lower-cases each ASCII letter in place |
| Strings.Upper | my-app/app/page.tsx:18 | `toUpperCase` keeps the length and upper-cases each ASCII letter in place |
| Strings.StartsWith | my-app/components/contact-detail.tsx:155 | `startsWith`: the string begins with the prefix |
| Strings.Contains | my-app/app/page.tsx:106-109 | `includes`, tried at each start position in turn; ContainsIff gives its meaning |
| Strings.Join | my-app/components/contact-form.tsx:31 | `join`: the parts with the separator between each two; JoinSplit and SplitJoin relate it to `split` |
| Strings.LexLtTrichotomy | my-app/lib/hooks.ts:181 | string `<` is a strict total order: exactly one of a < b, a == b, b < a |
| Strings.LexLtTransitive | my-app/lib/hooks.ts:181 | string `<` is transitive |
| Strings.LexLeIff | my-app/lib/hooks.ts:181 | string `<=` is `<` or equality |
| Strings.LexLtAt | my-app/lib/hooks.ts:181 | strings that agree up to an index and first differ there compare as the characters at that index do |
| Strings.ContainsIff | my-app/app/page.tsx:106-109 | `includes` holds exactly when the text occurs at some index |
| Strings.Split | my-app/components/contact-form.tsx:40 | `split` on a character returns at least one piece and no piece holds the separator |
| Strings.JoinSplit | my-app/components/contact-form.tsx:40 | joining the pieces of a split with the separator restores the string |
| Strings.SplitJoin | my-app/components/contact-form.tsx:40 | splitting separator-free pieces after joining them gives the pieces back |
| Strings.Trim | my-app/components/contact-form.tsx:40 | `trim` returns the part of the string that starts where the leading whitespace ends and is followed only by whitespace, with no whitespace left at either end |
| Strings.TrimPadded | my-app/components/contact-form.tsx:40 | trimming a trimmed string with whitespace in front gives it back |
| IsoDates.LexLtIsCalendarOrder | my-app/lib/hooks.ts:180-181 | on YYYY-MM-DD dates, string `<` is "an earlier day" |
| IsoDates.LexLeIsCalendarOrder | my-app/lib/hooks.ts:180-181 | on YYYY-MM-DD dates, string `<=` is "the same day or an earlier one" |
| IsoDates.SameDayIff | my-app/lib/hooks.ts:180-181 | two YYYY-MM-DD dates are equal strings exactly when they name the same day |
| HomePage.AnyTagContains | my-app/app/page.tsx:109 | `tags.some(...)` holds exactly when some lower-cased tag contains the text |
| HomePage.MatchesSearch | my-app/app/page.tsx:105-109 | the lower-cased search occurs in the lower-cased name, company or role, or in a lower-cased tag |
| HomePage.SearchIgnoresSourceAndNotes | my-app/app/page.tsx:105-109 | a contact's source and notes play no part in whether it matches the search |
| HomePage.EmptySearchMatches | my-app/app/page.tsx:105-109 | the empty search matches every contact |
| HomePage.NotFoundWithoutStart | my-app/app/page.tsx:106-109 | a search text cannot be found in a field where its first letter never starts early enough |
| HomePage.FilteredContacts | my-app/app/page.tsx:104-116 | the grid shows no more contacts than the list holds |
| HomePage.FilteredIff | my-app/app/page.tsx:104-116 | a contact is shown exactly when it is in the list, its name, company, role or a tag contains the search (ignoring case), and the tab's condition holds |
| HomePage.FilteredKeepsOrder | my-app/app/page.tsx:104 | the filter keeps the list order |
| HomePage.EmptySearchShowsAll | my-app/app/page.tsx:105-111 | with an empty search the "all" tab shows the whole list |
| HomePage.TabAccepts | my-app/app/page.tsx:111-115 | "high" asks for high priority, "foster" for need-to-foster, "followup" for a follow-up due today, anything else for nothing |
| HomePage.UnknownTabIsAll | my-app/app/page.tsx:111-115 | a tab other than all/high/foster/followup behaves like "all" |
| HomePage.EmptySearchTabs | my-app/app/page.tsx:112-114 | with an empty search, "high" shows as many contacts as the high-priority count, "foster" as many as the need-to-foster count, and "followup" exactly the follow-ups due |
| HomePage.MissesKellogg | my-app/app/page.tsx:105-109 | a contact with no 'k' where "kellogg" could start in name, company, role or tags does not match it |
| HomePage.SampleKellogg0 | my-app/lib/hooks.ts:9-25 | the first seed record does not match "kellogg" |
| HomePage.SampleKellogg1 | my-app/lib/hooks.ts:26-41 | the second seed record does not match "kellogg" |
| HomePage.SampleKellogg2 | my-app/lib/hooks.ts:42-56 | the third seed record does not match "kellogg" |
| HomePage.SampleKellogg3 | my-app/lib/hooks.ts:68 | the fourth seed record matches "kellogg" through its tag |
| HomePage.SampleKelloggLast | my-app/lib/hooks.ts:72-131 | the last four seed records do not match "kellogg" |
| HomePage.OnlyOneMatches | my-app/app/page.tsx:104-111 | when the search matches exactly one contact, the "all" tab shows it alone |
| HomePage.SampleKellogg | my-app/app/page.tsx:104-116 | searching the seed list for "kellogg" on the "all" tab shows only the contact with id "4" |
| HomePage.FirstLetters | my-app/app/page.tsx:18 | the result holds, in order, the first letter of every non-empty word and nothing else |
| HomePage.FirstLettersConcat | my-app/app/page.tsx:18 | the letters of two word lists in a row are the letters of the first followed by those of the second |
| HomePage.FirstLettersOne | my-app/app/page.tsx:18 | a single word gives its first letter, or nothing when it is empty |
| HomePage.Initials | my-app/app/page.tsx:18 | the initials are the upper-cased first letters of the first two non-empty words of the name, in order (fewer when the name has fewer such words), wherever empty words from extra spaces fall |
| HomePage.InitialFromWord | my-app/app/page.tsx:18 | each initial is the upper-cased first character of a word of the name |
| HomePage.InitialsSkipSpace | my-app/app/page.tsx:18 | a leading space adds nothing: empty words contribute no letter |
| HomePage.InitialsOneWord | my-app/app/page.tsx:18 | a one-word name gives its upper-cased first letter |
| HomePage.InitialsTwoWords | my-app/app/page.tsx:18 | "First Last" gives the upper-cased first letters of both words |
| HomePage.IsOverdue | my-app/app/page.tsx:20 | a follow-up is set and strictly before today as strings |
| HomePage.DueIsOverdueOrToday | my-app/app/page.tsx:20 | a follow-up is due exactly when it is overdue or falls on today; one on today is due but not overdue |
| HomePage.TagDisplay | my-app/app/page.tsx:59-67 | up to three tags the whole list is shown and no count; beyond three the first three are shown with the count of the rest, `|tags| - 3` |
| HomePage.Home.constructor | my-app/app/page.tsx:94-97 | the page starts with an empty search, nothing selected, the add dialog closed and the "all" tab |
| HomePage.Home.HandleSaveContact | my-app/app/page.tsx:118-121 | the new contact goes in front of the list, the add dialog closes, and the open contact stays the stored one |
| HomePage.Home.HandleUpdateContact | my-app/app/page.tsx:123-128 | the store is updated; the open contact gets the same update exactly when it carries the id and is otherwise unchanged; without an id field the open contact stays equal to the stored one |
| HomePage.Home.HandleDelete | my-app/app/page.tsx:220-223 | the open contact is deleted from the store and the dialog closes |
| HomePage.Home.SelectContact | my-app/app/page.tsx:206 | the clicked contact becomes the open contact, which is the one stored under its id |
| HomePage.Home.CloseDetail | my-app/app/page.tsx:224 | the detail dialog closes and nothing else changes |
| HomePage.Home.SetSearch | my-app/app/page.tsx:174 | the search text changes and nothing else |
| HomePage.Home.SetActiveTab | my-app/app/page.tsx:181 | the tab changes and nothing else |
| HomePage.Home.SetAddOpen | my-app/app/page.tsx:140 | the add dialog opens or closes and nothing else changes |
| ContactFormModel.JoinTags | my-app/components/contact-form.tsx:31 | the tags joined with ", "; ParseJoinTags is its inverse on well-formed tags |
| ContactFormModel.TrimEach | my-app/components/contact-form.tsx:40 | each piece is trimmed, one for one |
| ContactFormModel.ParseTags | my-app/components/contact-form.tsx:40 | every parsed tag is non-empty, has no whitespace at either end and holds no comma |
| ContactFormModel.TrimSplitJoin | my-app/components/contact-form.tsx:31-40 | splitting well-formed tags joined with ", " on ',' gives pieces that trim back to the tags |
| ContactFormModel.JoinStep | my-app/components/contact-form.tsx:31 | the joined text of two or more tags is the first tag, a comma, a space and the joined rest |
| ContactFormModel.ParseJoinTags | my-app/components/contact-form.tsx:31-40 | parsing the joined text of well-formed tags gives the tags back in order |
| ContactFormModel.ParseTagsStable | my-app/components/contact-form.tsx:31-40 | parsing again after a parse and a join changes nothing |
| ContactFormModel.Submitted | my-app/components/contact-form.tsx:36-42 | the submitted record has every optional field present, both dates as strings and never null, and well-formed tags |
| ContactFormModel.ParseNoTags | my-app/components/contact-form.tsx:40 | an empty tags field parses to no tags |
| ContactFormModel.InitialFormData | my-app/components/contact-form.tsx:18-34 | the contact's fields with absent ones as "" and the tags joined, or the defaults; NewFormSubmit and EditWithoutChange state what submitting it gives |
| ContactFormModel.NewFormSubmit | my-app/components/contact-form.tsx:18-42 | the untouched new form submits priority medium, status active, "" in every text field and both dates, and no tags |
| ContactFormModel.EditWithoutChange | my-app/components/contact-form.tsx:18-42 | a contact with every field present and well-formed tags is unchanged by opening it in the form and saving |
| ContactFormModel.EditWithoutChangeNormalises | my-app/components/contact-form.tsx:18-42 | opening any contact with well-formed tags in the form and saving replaces null dates and absent fields by "" and keeps the rest |
| ContactFormModel.Applied | my-app/components/contact-form.tsx:52-214 | one input's change replaces its own field; EditLastWins, EditsCommute and EditKeepsValue state its laws |
| ContactFormModel.EditLastWins | my-app/components/contact-form.tsx:52-214 | two edits of one input leave the form as the second alone does |
| ContactFormModel.EditsCommute | my-app/components/contact-form.tsx:52-214 | edits of different inputs give the same form in either order |
| ContactFormModel.EditKeepsValue | my-app/components/contact-form.tsx:52-214 | no edit changes `value`, which the form has no input for |
| ContactFormModel.ContactForm.constructor | my-app/components/contact-form.tsx:18-34 | the form starts from the contact's fields, or from the defaults |
| ContactFormModel.ContactForm.Change | my-app/components/contact-form.tsx:52-214 | an input's change replaces its field of the form |
| ContactFormModel.ContactForm.Submit | my-app/components/contact-form.tsx:36-42 | the record passed on is the submitted form: dates never null, tags well formed |
| ContactDetailModel.MarkContactedPatch | my-app/components/contact-detail.tsx:26-32 | the "mark contacted" update never carries an id or a creation date; MarkContactedEffect gives its effect |
| ContactDetailModel.FollowUpPatch | my-app/components/contact-detail.tsx:34-38 | the follow-up update never carries an id or a creation date; FollowUpEffect gives its effect |
| ContactDetailModel.MarkContactedEffect | my-app/components/contact-detail.tsx:26-32 | marking as contacted sets the last contact to today, empties the follow-up and changes nothing else; the contact is then neither due nor overdue |
| ContactDetailModel.FollowUpEffect | my-app/components/contact-detail.tsx:34-38 | setting a follow-up changes only the follow-up date, and a set date is due exactly from that day on |
| ContactDetailModel.MarkContactedNotDue | my-app/components/contact-detail.tsx:26-32 | after the store applies "mark contacted", no record with that id is among the follow-ups due, and the other records are due as before |
| ContactDetailModel.LinkedInHref | my-app/components/contact-detail.tsx:155 | the link starts with "http" and ends with the stored value; it is the value itself exactly when the value starts with "http", and "https://" followed by the value otherwise |
| ContactDetailModel.LinkedInHrefIdempotent | my-app/components/contact-detail.tsx:155 | normalising a link twice equals normalising it once |
| ContactDetailModel.SourceText | my-app/components/contact-detail.tsx:166 | the source line shows the source when there is one and "Not specified" otherwise |
| ContactDetailModel.NotesText | my-app/components/contact-detail.tsx:216 | the notes text shows the notes when there are any and "No notes added yet." otherwise |
| ContactDetailModel.DateLineOf | my-app/components/contact-detail.tsx:183-193 | a date is shown exactly when it is set (not null, not ""), and the shown date is the stored one |
| ContactDetailModel.LastContactLine | my-app/components/contact-detail.tsx:183 | the last contact's date is shown exactly when it is set, and "Never" otherwise |
| ContactDetailModel.NextFollowUpLine | my-app/components/contact-detail.tsx:193 | the follow-up date is shown exactly when it is set, and "Not scheduled" otherwise |
| ContactDetailModel.MarkContactedTimeline | my-app/components/contact-detail.tsx:183-193 | after "mark contacted" the timeline shows today as the last contact and "Not scheduled" as the next follow-up |
| ContactDetailModel.OverdueShowsDate | my-app/components/contact-detail.tsx:187-194 | an overdue contact shows its follow-up date; "Not scheduled" means neither overdue nor due |
| ContactDetailModel.ContactDetail.constructor | my-app/components/contact-detail.tsx:20-21 | the view starts neither editing nor confirming a delete |
| ContactDetailModel.ContactDetail.SetEditing | my-app/components/contact-detail.tsx:45-85 | the edit toggle changes and the delete confirmation does not |
| ContactDetailModel.ContactDetail.SetDeleteConfirm | my-app/components/contact-detail.tsx:89-99 | the delete confirmation toggle changes and the edit toggle does not |
| ContactDetailModel.ContactDetail.MarkContacted | my-app/components/contact-detail.tsx:26-32 | the issued update, spread over the contact, sets lastContact to today and nextFollowUp to "" only |
| ContactDetailModel.ContactDetail.SetFollowUp | my-app/components/contact-detail.tsx:34-38 | the issued update, spread over the contact, sets nextFollowUp only |
| ContactDetailModel.ContactDetail.SaveEdit | my-app/components/contact-detail.tsx:49-54 | the form's record is passed on unchanged as the update, without id or createdAt, and edit mode ends |

## Left out

- Rendering: JSX, CSS class strings, icons, dialogs, tab widgets and the stat cards'
  subtitles. The colour tables are modelled as values only.
- Local storage and JSON: the slot is modelled abstractly as absent, empty, unreadable or a
  stored list. A stored text that parses to something other than a list of contacts is
  used as-is by the code; the model has no such payload.
- React scheduling: each mutation is one atomic assignment. The persistence effect is
  applied at the end of every mutation once the store is loaded.
- Clocks: `Date.now()` ids and `new Date()` for today are parameters. The code does not
  make ids fresh, so freshness is a premise (`Contacts.AddKeepsIdsUnique`,
  `HomePage.Home.HandleSaveContact`), not a theorem.
- HomePage.Home.constructor: requires the loaded list to have distinct ids, and every
  handler of `Home` keeps that as part of its invariant. The code never checks it: the
  load effect (`my-app/lib/hooks.ts:142-143`) uses whatever list the storage slot parses
  to, so a stored list with a repeated id is a premise of the model, not a case it handles.
- The date arithmetic of `handleSetFollowUp` (local `setDate`, then a UTC `toISOString`)
  is not modelled: `ContactDetailModel.FollowUpPatch` takes the resulting date. The 7, 14
  and 30 day choices of the quick actions are therefore not modelled either.
- `toLocaleDateString`: a shown date stays as the stored `YYYY-MM-DD` string
  (`ContactDetailModel.DateLine.Formatted`).
- Unicode: `toLowerCase`, `toUpperCase` and `trim` are modelled for ASCII letters and
  ASCII whitespace only. Strings are sequences of code points, whereas JavaScript
  compares, indexes (`n[0]` in the initials) and slices UTF-16 code units. The two agree
  outside the astral planes.
- Browser form validation (the `required` name input) and the casts of the select values
  (`value as any`), which the model types as the enumerations.
- HomePage.Home.HandleUpdateContact: the open contact is shown to stay equal to the stored
  one only for updates without an `id` field, since an update that changes ids can break
  unique ids, which the page never does.
- `my-app/next.config.ts` is build configuration and is not part of this model.
