/**
 * The records the components exchange (types.ts): entitlement cards, the
 * sparse user profile, chat messages and the top-level pages.
 */
module Types {

  datatype Option<+T> = None | Some(value: T)
  {
    /** `x || fallback` for a field that may be absent. */
    function GetOr(fallback: T): T
    {
      match this
      case Some(v) => v
      case None => fallback
    }
  }

  /** The priority class of a card (types.ts:20). */
  datatype Priority = Critical | Important | Recommended | Future

  /** A `{title, uri}` citation attached to a card (types.ts:10-13). */
  datatype Source = Source(title: string, uri: string)

  /**
   * One entitlement record of a report (types.ts:15-33). Optional fields are
   * `Option`s; `numericValue` is an estimated yearly amount in whole shekels.
   */
  datatype RightCard = RightCard(
    id: string,
    title: string,
    description: string,
    authority: string,
    priority: Priority,
    estimatedValue: Option<string>,
    numericValue: Option<int>,
    requirements: seq<string>,
    actionSteps: seq<string>,
    contactInfo: Option<string>,
    documentsToPrepare: seq<string>,
    recommendations: Option<seq<string>>,
    officialLink: Option<string>,
    formLink: Option<string>,
    sources: Option<seq<Source>>,
    location: Option<string>,
    estimatedProcessingTime: Option<string>)

  /** A report: the ordered records one analysis produced. */
  type Report = seq<RightCard>

  /** The value of one profile attribute other than the sector selection. */
  datatype Value = Bool(b: bool) | Num(n: int) | Text(s: string) | NumList(ns: seq<int>)

  /** JavaScript truthiness of an attribute value, as `!profile[id]` reads it. */
  predicate Truthy(v: Value)
  {
    match v
    case Bool(b) => b
    case Num(n) => n != 0
    case Text(s) => s != ""
    case NumList(_) => true
  }

  /**
   * `Partial<UserProfile>` (types.ts:35-108): any attribute may be absent.
   * `selectedSectors` is kept apart because it decides the wizard steps;
   * `fields` holds every other attribute that is present, by name.
   */
  datatype Profile = Profile(selectedSectors: Option<seq<string>>, fields: map<string, Value>)

  /** The spread `{ ...base, ...patch }`: a patched attribute takes the patch's value. */
  function Merge(base: Profile, patch: Profile): (r: Profile)
    ensures patch.selectedSectors.Some? ==> r.selectedSectors == patch.selectedSectors
    ensures patch.selectedSectors.None? ==> r.selectedSectors == base.selectedSectors
    ensures r.fields.Keys == base.fields.Keys + patch.fields.Keys
    ensures forall k | k in patch.fields :: r.fields[k] == patch.fields[k]
    ensures forall k | k in base.fields && k !in patch.fields :: r.fields[k] == base.fields[k]
  {
    Profile(if patch.selectedSectors.Some? then patch.selectedSectors else base.selectedSectors,
            base.fields + patch.fields)
  }

  /** Applying two patches in turn is applying their merge once. */
  lemma MergeAssociative(p: Profile, u: Profile, v: Profile)
    ensures Merge(Merge(p, u), v) == Merge(p, Merge(u, v))
  {
    assert (p.fields + u.fields) + v.fields == p.fields + (u.fields + v.fields);
  }

  /** Applying the same patch twice is applying it once. */
  lemma MergeIdempotent(p: Profile, u: Profile)
    ensures Merge(Merge(p, u), u) == Merge(p, u)
  {
    assert (p.fields + u.fields) + u.fields == p.fields + u.fields;
  }

  /** Whether a boolean attribute reads as set: absent counts as false. */
  predicate Flag(p: Profile, key: string)
  {
    key in p.fields && Truthy(p.fields[key])
  }

  /** Who wrote a chat message. */
  datatype Role = User | Assistant

  datatype Message = Message(role: Role, text: string)

  /** The top-level pages (types.ts:116-121). */
  datatype Page = HomePage | AssessmentPage | DashboardPage | ChatPage
}

/**
 * The browser's durable key-value storage, shared by the session and the
 * report browser. Each key holds one serialized value; parsing is taken as
 * given, so a stored value is kept in its parsed form.
 */
module Persistence {
  import opened Types

  const ReportKey: string := "rightlane_active_report"
  const ProfileKey: string := "rightlane_user_profile"
  const ProgressKey: string := "rightlane_progress"
  const DocsKey: string := "rightlane_prepared_docs"

  /** A parsed stored value. */
  datatype Blob = ReportBlob(report: Report) | ProfileBlob(profile: Profile) | FlagsBlob(flags: map<string, bool>)

  class Storage {
    var entries: map<string, Blob>

    constructor (initial: map<string, Blob>)
      ensures entries == initial
    {
      entries := initial;
    }

    /** `setItem(key, JSON.stringify(value))`: overwrites `key`, leaves every other key alone. */
    method Set(key: string, value: Blob)
      modifies this
      ensures entries == old(entries)[key := value]
    {
      entries := entries[key := value];
    }
  }
}
