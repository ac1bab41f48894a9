/** The contact record of `lib/types.ts`: its two closed enumerations, the record itself with
    its optional (`field?`) and nullable (`T | null`) fields, and the constant tables that
    give each enumeration value a label and a badge colour. */
module ContactTypes {
  import opened Wrappers

  datatype Priority = High | Medium | Low

  datatype Status = Active | NeedToFoster | Dormant | Archived

  /** Every priority, in the order of the type's union. */
  const AllPriorities: seq<Priority> := [High, Medium, Low]

  /** Every status, in the order of the type's union. */
  const AllStatuses: seq<Status> := [Active, NeedToFoster, Dormant, Archived]

  /** The string literal that stands for a priority in the stored record. */
  function PriorityName(p: Priority): string
  {
    match p
    case High => "high"
    case Medium => "medium"
    case Low => "low"
  }

  /** The string literal that stands for a status in the stored record. */
  function StatusName(s: Status): string
  {
    match s
    case Active => "active"
    case NeedToFoster => "need-to-foster"
    case Dormant => "dormant"
    case Archived => "archived"
  }

  /** `priority` takes exactly three values, each with its own spelling. */
  lemma PriorityValues()
    ensures |AllPriorities| == 3
    ensures forall p: Priority :: p in AllPriorities
    ensures forall i, j :: 0 <= i < j < |AllPriorities| ==>
              PriorityName(AllPriorities[i]) != PriorityName(AllPriorities[j])
    ensures {PriorityName(High), PriorityName(Medium), PriorityName(Low)} == {"high", "medium", "low"}
  {
    forall p: Priority ensures p in AllPriorities {
      match p
      case High => assert AllPriorities[0] == p;
      case Medium => assert AllPriorities[1] == p;
      case Low => assert AllPriorities[2] == p;
    }
  }

  /** `status` takes exactly four values, each with its own spelling. */
  lemma StatusValues()
    ensures |AllStatuses| == 4
    ensures forall s: Status :: s in AllStatuses
    ensures forall i, j :: 0 <= i < j < |AllStatuses| ==>
              StatusName(AllStatuses[i]) != StatusName(AllStatuses[j])
    ensures {StatusName(Active), StatusName(NeedToFoster), StatusName(Dormant), StatusName(Archived)}
            == {"active", "need-to-foster", "dormant", "archived"}
  {
    forall s: Status ensures s in AllStatuses {
      match s
      case Active => assert AllStatuses[0] == s;
      case NeedToFoster => assert AllStatuses[1] == s;
      case Dormant => assert AllStatuses[2] == s;
      case Archived => assert AllStatuses[3] == s;
    }
  }

  /** `priorityColors[p]` */
  function PriorityColor(p: Priority): string
  {
    match p
    case High => "bg-red-500/10 text-red-400 border-red-500/20"
    case Medium => "bg-amber-500/10 text-amber-400 border-amber-500/20"
    case Low => "bg-zinc-500/10 text-zinc-400 border-zinc-500/20"
  }

  /** `statusColors[s]` */
  function StatusColor(s: Status): string
  {
    match s
    case Active => "bg-emerald-500/10 text-emerald-400 border-emerald-500/20"
    case NeedToFoster => "bg-blue-500/10 text-blue-400 border-blue-500/20"
    case Dormant => "bg-zinc-500/10 text-zinc-400 border-zinc-500/20"
    case Archived => "bg-zinc-700/30 text-zinc-500 border-zinc-600/30"
  }

  /** `statusLabels[s]` */
  function StatusLabel(s: Status): string
  {
    match s
    case Active => "Active"
    case NeedToFoster => "Need to Foster"
    case Dormant => "Dormant"
    case Archived => "Archived"
  }

  /** `priorityLabels[p]` */
  function PriorityLabel(p: Priority): string
  {
    match p
    case High => "High"
    case Medium => "Medium"
    case Low => "Low"
  }

  /** The priority labels: every priority has a non-empty label, and no two priorities
      share one. */
  lemma PriorityTablesTotal()
    ensures forall p: Priority :: PriorityLabel(p) != ""
    ensures forall p: Priority, q: Priority :: p != q ==> PriorityLabel(p) != PriorityLabel(q)
  {
  }

  /** Every priority has a non-empty colour. */
  lemma PriorityColorsSet()
    ensures forall p: Priority :: PriorityColor(p) != ""
  {
  }

  /** The status labels: every status has a non-empty label, no two statuses share one, and
      `need-to-foster` reads "Need to Foster". */
  lemma StatusTablesTotal()
    ensures forall s: Status :: StatusLabel(s) != ""
    ensures forall s: Status, t: Status :: s != t ==> StatusLabel(s) != StatusLabel(t)
    ensures StatusLabel(NeedToFoster) == "Need to Foster"
  {
  }

  /** Every status has a non-empty colour; colours need not differ, as `dormant` has the
      colour of the low priority. */
  lemma StatusColorsSet()
    ensures StatusColor(Active) != "" && StatusColor(NeedToFoster) != ""
    ensures StatusColor(Dormant) != "" && StatusColor(Archived) != ""
    ensures StatusColor(Dormant) == PriorityColor(Low)
  {
    LiveStatusColorsSet();
    QuietStatusColorsSet();
  }

  /** The active and need-to-foster half of StatusColorsSet, split off to keep each proof small. */
  lemma LiveStatusColorsSet()
    ensures StatusColor(Active) != "" && StatusColor(NeedToFoster) != ""
  {
  }

  /** The dormant and archived half of StatusColorsSet, split off to keep each proof small. */
  lemma QuietStatusColorsSet()
    ensures StatusColor(Dormant) != "" && StatusColor(Archived) != ""
    ensures StatusColor(Dormant) == PriorityColor(Low)
  {
  }

  /** A contact. `email`, `phone`, `linkedin`, `context` and `value` may be absent (None);
      `lastContact` and `nextFollowUp` may be null (None). Dates are `YYYY-MM-DD` strings. */
  datatype Contact = Contact(
    id: string,
    name: string,
    role: string,
    company: string,
    email: Option<string>,
    phone: Option<string>,
    linkedin: Option<string>,
    priority: Priority,
    status: Status,
    source: string,
    lastContact: Option<string>,
    nextFollowUp: Option<string>,
    notes: string,
    tags: seq<string>,
    createdAt: string,
    context: Option<string>,
    value: Option<string>)

  /** JavaScript truthiness of a `string | null` field: neither null nor "". */
  predicate IsSet(d: Option<string>)
  {
    d.Some? && d.value != ""
  }

  /** The follow-up date is set in the sense of `c.nextFollowUp && ...`. */
  predicate HasFollowUp(c: Contact)
  {
    IsSet(c.nextFollowUp)
  }
}
