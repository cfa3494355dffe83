/**
 * The assessment wizard (Assessment.tsx): the step list derived live from the
 * selected sectors, index navigation with its button gating, profile patches,
 * and the flag that brackets the analysis request.
 */
module Wizard {
  import opened Types
  import opened Seqs
  import opened Services

  /** One entry of the sector catalog: an identifier and the label (`name`) of its wizard step. */
  datatype Sector = Sector(id: string, name: string)

  /** No two catalog entries share an identifier. */
  predicate DistinctIds(catalog: seq<Sector>)
  {
    forall i, j | 0 <= i < j < |catalog| :: catalog[i].id != catalog[j].id
  }

  // Fixed step labels.
  const PickSectorsStep: string := "בחירת תחומים"
  const PersonalStep: string := "פרופיל אישי"
  const SummaryStep: string := "סיכום"

  // The sector step labels the wizard has a screen and a hint for.
  const TaxLabel: string := "מיסוי ופיננסים"
  const SocialSecurityLabel: string := "ביטוח לאומי וקצבאות"
  const FamilyLabel: string := "משפחה וחינוך"
  const HealthLabel: string := "בריאות ושואה"
  const HousingLabel: string := "דיור ורשויות"
  const TransportLabel: string := "תחבורה ופנאי"

  /** The profile a fresh wizard starts from when it is given none. */
  function DefaultProfile(): Profile
  {
    Profile(Some([]), map[
      "age" := Num(30),
      "gender" := Text(""),
      "familyStatus" := Text(""),
      "childrenCount" := Num(0),
      "childrenAges" := NumList([]),
      "employmentStatus" := Text("employee")])
  }

  /** `initialProfile || defaults`: any given profile, even an empty one, is used as is. */
  function InitialProfile(initial: Option<Profile>): Profile
  {
    initial.GetOr(DefaultProfile())
  }

  /** The selected sector ids; an absent selection selects nothing. */
  function SelectedIds(p: Profile): seq<string>
  {
    p.selectedSectors.GetOr([])
  }

  function IdIn(sel: seq<string>): Sector -> bool
  {
    (s: Sector) => s.id in sel
  }

  /** The catalog entries whose id is selected, in catalog order. */
  function SelectedCatalog(catalog: seq<Sector>, sel: seq<string>): seq<Sector>
  {
    Filter(catalog, IdIn(sel))
  }

  function Labels(sectors: seq<Sector>): (r: seq<string>)
    ensures |r| == |sectors|
    ensures forall i | 0 <= i < |sectors| :: r[i] == sectors[i].name
  {
    seq(|sectors|, i requires 0 <= i < |sectors| => sectors[i].name)
  }

  /** `getEffectiveSteps`: the two fixed steps, one step per selected catalog sector, then the summary. */
  function EffectiveSteps(catalog: seq<Sector>, p: Profile): seq<string>
  {
    [PickSectorsStep, PersonalStep] + Labels(SelectedCatalog(catalog, SelectedIds(p))) + [SummaryStep]
  }

  /** The ids of the catalog. */
  function CatalogIds(catalog: seq<Sector>): set<string>
  {
    if catalog == [] then {} else {catalog[0].id} + CatalogIds(catalog[1..])
  }

  /** The catalog ids that the selection names. */
  function SelectedCatalogIds(catalog: seq<Sector>, sel: seq<string>): set<string>
  {
    CatalogIds(catalog) * (set x | x in sel)
  }

  lemma {:induction false} CatalogIdsIndex(catalog: seq<Sector>, x: string)
    ensures x in CatalogIds(catalog) <==> exists i :: 0 <= i < |catalog| && catalog[i].id == x
  {
    if catalog != [] {
      CatalogIdsIndex(catalog[1..], x);
      if exists i :: 0 <= i < |catalog[1..]| && catalog[1..][i].id == x {
        var i :| 0 <= i < |catalog[1..]| && catalog[1..][i].id == x;
        assert catalog[i + 1].id == x;
      }
      if exists i :: 0 <= i < |catalog| && catalog[i].id == x {
        var i :| 0 <= i < |catalog| && catalog[i].id == x;
        if i > 0 { assert catalog[1..][i - 1].id == x; }
      }
    }
  }

  /** The step list always opens with the two fixed steps and closes with the summary. */
  lemma StepsShape(catalog: seq<Sector>, p: Profile)
    ensures var steps := EffectiveSteps(catalog, p);
      && |steps| == 3 + |SelectedCatalog(catalog, SelectedIds(p))|
      && steps[0] == PickSectorsStep && steps[1] == PersonalStep
      && steps[|steps| - 1] == SummaryStep
      && steps[2..|steps| - 1] == Labels(SelectedCatalog(catalog, SelectedIds(p)))
  {
  }

  /** The sector steps are the names of the catalog entries whose id is selected, and nothing else. */
  lemma SectorStepsMembers(catalog: seq<Sector>, p: Profile, x: string)
    ensures var steps := EffectiveSteps(catalog, p);
      x in steps[2..|steps| - 1] <==>
        exists k | 0 <= k < |catalog| :: catalog[k].id in SelectedIds(p) && catalog[k].name == x
  {
    StepsShape(catalog, p);
    SelectedLabelsMembers(catalog, SelectedIds(p), x);
  }

  lemma SelectedLabelsMembers(catalog: seq<Sector>, sel: seq<string>, x: string)
    ensures x in Labels(SelectedCatalog(catalog, sel)) <==>
      exists k | 0 <= k < |catalog| :: catalog[k].id in sel && catalog[k].name == x
  {
    var chosen := SelectedCatalog(catalog, sel);
    if x in Labels(chosen) {
      var j :| 0 <= j < |chosen| && Labels(chosen)[j] == x;
      FilterMembers(catalog, IdIn(sel), chosen[j]);
      var k :| 0 <= k < |catalog| && catalog[k] == chosen[j];
      assert catalog[k].id in sel && catalog[k].name == x;
    }
    if exists k | 0 <= k < |catalog| :: catalog[k].id in sel && catalog[k].name == x {
      var k :| 0 <= k < |catalog| && catalog[k].id in sel && catalog[k].name == x;
      FilterMembers(catalog, IdIn(sel), catalog[k]);
      var j :| 0 <= j < |chosen| && chosen[j] == catalog[k];
      assert Labels(chosen)[j] == x;
    }
  }

  /** The tail of a catalog with distinct ids has distinct ids and does not hold the head's id. */
  lemma DistinctIdsTail(catalog: seq<Sector>)
    requires catalog != [] && DistinctIds(catalog)
    ensures DistinctIds(catalog[1..])
    ensures catalog[0].id !in CatalogIds(catalog[1..])
  {
    var rest := catalog[1..];
    forall i, j | 0 <= i < j < |rest| ensures rest[i].id != rest[j].id {
      assert rest[i] == catalog[i + 1] && rest[j] == catalog[j + 1];
    }
    forall i | 0 <= i < |rest| ensures rest[i].id != catalog[0].id {
      assert rest[i] == catalog[i + 1];
    }
    CatalogIdsIndex(rest, catalog[0].id);
  }

  lemma SelectedCatalogIdsCons(catalog: seq<Sector>, sel: seq<string>)
    requires catalog != []
    ensures SelectedCatalogIds(catalog, sel) ==
      (if catalog[0].id in sel then {catalog[0].id} else {}) + SelectedCatalogIds(catalog[1..], sel)
  {
  }

  lemma {:induction false} SelectedCount(catalog: seq<Sector>, sel: seq<string>)
    requires DistinctIds(catalog)
    ensures |SelectedCatalog(catalog, sel)| == |SelectedCatalogIds(catalog, sel)|
  {
    if catalog != [] {
      var rest := catalog[1..];
      DistinctIdsTail(catalog);
      SelectedCount(rest, sel);
      SelectedCatalogIdsCons(catalog, sel);
      assert catalog[0].id !in SelectedCatalogIds(rest, sel);
    }
  }

  /**
   * With distinct catalog ids there is one sector step per catalog id the
   * selection names: unknown ids and repeated ids add no step.
   */
  lemma StepsCount(catalog: seq<Sector>, p: Profile)
    requires DistinctIds(catalog)
    ensures |EffectiveSteps(catalog, p)| == 3 + |SelectedCatalogIds(catalog, SelectedIds(p))|
  {
    SelectedCount(catalog, SelectedIds(p));
  }

  /**
   * The steps depend only on which ids are selected, not on their order or
   * repetition: in particular any permutation of the selection gives the same steps.
   */
  lemma StepsIgnoreSelectionOrder(catalog: seq<Sector>, p: Profile, q: Profile)
    requires forall x :: x in SelectedIds(p) <==> x in SelectedIds(q)
    ensures EffectiveSteps(catalog, p) == EffectiveSteps(catalog, q)
  {
    FilterExt(catalog, IdIn(SelectedIds(p)), IdIn(SelectedIds(q)));
  }

  lemma {:induction false} LabelsSubseq(a: seq<Sector>, b: seq<Sector>)
    requires IsSubseq(a, b)
    ensures IsSubseq(Labels(a), Labels(b))
    decreases |b|
  {
    if a != [] {
      assert Labels(b)[1..] == Labels(b[1..]);
      if a[0] == b[0] {
        assert Labels(a)[1..] == Labels(a[1..]);
        LabelsSubseq(a[1..], b[1..]);
      } else {
        LabelsSubseq(a, b[1..]);
        SubseqOfTail(Labels(a), Labels(b));
      }
    }
  }

  /** The sector steps follow the catalog's order, whatever order the user selected in. */
  lemma SectorStepsFollowCatalog(catalog: seq<Sector>, p: Profile)
    ensures var steps := EffectiveSteps(catalog, p);
      IsSubseq(steps[2..|steps| - 1], Labels(catalog))
  {
    var steps := EffectiveSteps(catalog, p);
    FilterIsSubseq(catalog, IdIn(SelectedIds(p)));
    LabelsSubseq(SelectedCatalog(catalog, SelectedIds(p)), catalog);
    assert steps[2..|steps| - 1] == Labels(SelectedCatalog(catalog, SelectedIds(p)));
  }

  /** The list the sector picker writes back: the membership toggle on the current selection. */
  function WithSectorToggled(p: Profile, id: string): Profile
  {
    Merge(p, Profile(Some(Toggle(SelectedIds(p), id)), map[]))
  }

  /** The sector toggle flips `id`'s membership, keeps every other id's, and never adds a duplicate. */
  lemma SectorToggle(p: Profile, id: string, x: string)
    ensures x in SelectedIds(WithSectorToggled(p, id)) <==> if x == id then id !in SelectedIds(p) else x in SelectedIds(p)
    ensures NoDup(SelectedIds(p)) ==> NoDup(SelectedIds(WithSectorToggled(p, id)))
    ensures id !in SelectedIds(p) ==> SelectedIds(WithSectorToggled(p, id)) == SelectedIds(p) + [id]
    ensures WithSectorToggled(p, id).fields == p.fields
  {
    ToggleMembers(SelectedIds(p), id, x);
    if id !in SelectedIds(p) {
      ToggleAbsentAppends(SelectedIds(p), id);
    }
    if NoDup(SelectedIds(p)) {
      ToggleNoDup(SelectedIds(p), id);
    }
  }

  /** Toggling a sector twice gives back the same step list. */
  lemma SectorToggleTwiceSameSteps(catalog: seq<Sector>, p: Profile, id: string)
    ensures EffectiveSteps(catalog, WithSectorToggled(WithSectorToggled(p, id), id)) == EffectiveSteps(catalog, p)
  {
    var q := WithSectorToggled(WithSectorToggled(p, id), id);
    forall x ensures x in SelectedIds(q) <==> x in SelectedIds(p) {
      ToggleTwiceMembers(SelectedIds(p), id, x);
    }
    StepsIgnoreSelectionOrder(catalog, q, p);
  }

  /** `renderToggle`'s patch: the attribute becomes the negation of its truthiness. */
  function WithFlagToggled(p: Profile, key: string): Profile
  {
    Merge(p, Profile(None, map[key := Bool(!Flag(p, key))]))
  }

  /**
   * The flag toggle flips the attribute (an absent one becomes true), leaves every
   * other attribute and the sector selection alone, and twice restores the reading.
   */
  lemma FlagToggle(p: Profile, key: string, other: string)
    ensures Flag(WithFlagToggled(p, key), key) == !Flag(p, key)
    ensures key !in p.fields ==> WithFlagToggled(p, key).fields[key] == Bool(true)
    ensures other != key ==> (other in WithFlagToggled(p, key).fields <==> other in p.fields)
    ensures other != key && other in p.fields ==> WithFlagToggled(p, key).fields[other] == p.fields[other]
    ensures WithFlagToggled(p, key).selectedSectors == p.selectedSectors
    ensures Flag(WithFlagToggled(WithFlagToggled(p, key), key), key) == Flag(p, key)
  {
  }

  // ---------------------------------------------------------------- screens and hints

  /** The screen `renderContent` shows. */
  datatype Screen =
    | SectorPicker | PersonalInfo
    | TaxForm | SocialSecurityForm | FamilyForm | HealthForm | HousingForm | TransportForm
    | SummaryScreen(analyzing: bool)
    | NoScreen

  /** The explanation `getSheliContext` shows beside the wizard. */
  datatype Hint =
    | MoreSectorsHint | BasicsHint
    | TaxHint | SocialSecurityHint | FamilyHint | HealthHint | HousingHint | TransportHint
    | EncouragementHint

  /** `currentSteps[step]`, undefined past the end. */
  function LabelAt(steps: seq<string>, step: nat): Option<string>
  {
    if step < |steps| then Some(steps[step]) else None
  }

  function LabelScreen(text: string, analyzing: bool): Screen
  {
    if text == PersonalStep then PersonalInfo
    else if text == TaxLabel then TaxForm
    else if text == SocialSecurityLabel then SocialSecurityForm
    else if text == FamilyLabel then FamilyForm
    else if text == HealthLabel then HealthForm
    else if text == HousingLabel then HousingForm
    else if text == TransportLabel then TransportForm
    else if text == SummaryStep then SummaryScreen(analyzing)
    else NoScreen
  }

  function ScreenFor(steps: seq<string>, step: nat, analyzing: bool): Screen
  {
    if step == 0 then SectorPicker
    else match LabelAt(steps, step)
      case None => NoScreen
      case Some(text) => LabelScreen(text, analyzing)
  }

  function LabelHint(text: string): Hint
  {
    if text == PersonalStep then BasicsHint
    else if text == TaxLabel then TaxHint
    else if text == SocialSecurityLabel then SocialSecurityHint
    else if text == FamilyLabel then FamilyHint
    else if text == HealthLabel then HealthHint
    else if text == HousingLabel then HousingHint
    else if text == TransportLabel then TransportHint
    else EncouragementHint
  }

  function HintFor(steps: seq<string>, step: nat): Hint
  {
    if step == 0 then MoreSectorsHint
    else match LabelAt(steps, step)
      case None => EncouragementHint
      case Some(text) => LabelHint(text)
  }

  /**
   * The fixed steps always get their own screen and hint: the sector picker first,
   * the personal form second, the summary (with the analyzing flag) last; past the
   * end nothing is rendered and the closing encouragement is shown.
   */
  lemma FixedStepScreens(catalog: seq<Sector>, p: Profile, analyzing: bool, beyond: nat)
    ensures var steps := EffectiveSteps(catalog, p);
      && ScreenFor(steps, 0, analyzing) == SectorPicker && HintFor(steps, 0) == MoreSectorsHint
      && ScreenFor(steps, 1, analyzing) == PersonalInfo && HintFor(steps, 1) == BasicsHint
      && ScreenFor(steps, |steps| - 1, analyzing) == SummaryScreen(analyzing)
      && HintFor(steps, |steps| - 1) == EncouragementHint
      && (beyond >= |steps| ==> ScreenFor(steps, beyond, analyzing) == NoScreen && HintFor(steps, beyond) == EncouragementHint)
  {
    StepsShape(catalog, p);
  }

  /** Each of the six sector labels the wizard knows gets its own form and its own hint. */
  lemma KnownLabels(analyzing: bool)
    ensures LabelScreen(TaxLabel, analyzing) == TaxForm && LabelHint(TaxLabel) == TaxHint
    ensures LabelScreen(SocialSecurityLabel, analyzing) == SocialSecurityForm && LabelHint(SocialSecurityLabel) == SocialSecurityHint
    ensures LabelScreen(FamilyLabel, analyzing) == FamilyForm && LabelHint(FamilyLabel) == FamilyHint
    ensures LabelScreen(HealthLabel, analyzing) == HealthForm && LabelHint(HealthLabel) == HealthHint
    ensures LabelScreen(HousingLabel, analyzing) == HousingForm && LabelHint(HousingLabel) == HousingHint
    ensures LabelScreen(TransportLabel, analyzing) == TransportForm && LabelHint(TransportLabel) == TransportHint
  {
  }

  /** A sector step carries a catalog label and is shown through that label. */
  lemma SectorStepScreen(catalog: seq<Sector>, p: Profile, analyzing: bool, i: nat)
    requires var steps := EffectiveSteps(catalog, p); 2 <= i < |steps| - 1
    ensures var steps := EffectiveSteps(catalog, p);
      && ScreenFor(steps, i, analyzing) == LabelScreen(steps[i], analyzing)
      && HintFor(steps, i) == LabelHint(steps[i])
      && steps[i] in Labels(catalog)
  {
    var steps := EffectiveSteps(catalog, p);
    var chosen := SelectedCatalog(catalog, SelectedIds(p));
    StepsShape(catalog, p);
    assert steps[i] == chosen[i - 2].name;
    FilterMembers(catalog, IdIn(SelectedIds(p)), chosen[i - 2]);
    var k :| 0 <= k < |catalog| && catalog[k] == chosen[i - 2];
    assert Labels(catalog)[k] == steps[i];
  }

  // ---------------------------------------------------------------- the component

  /** The wizard component: its `state.step`, `state.profile` and `isAnalyzing`. */
  class Assessment {
    const catalog: seq<Sector>
    var step: nat
    var profile: Profile
    var isAnalyzing: bool

    /** Mounting: step 0, the given profile or the defaults, not analyzing. */
    constructor (catalog: seq<Sector>, initialProfile: Option<Profile>)
      ensures this.catalog == catalog
      ensures step == 0 && profile == InitialProfile(initialProfile) && !isAnalyzing
    {
      this.catalog := catalog;
      step := 0;
      profile := InitialProfile(initialProfile);
      isAnalyzing := false;
    }

    /** The step list, recomputed from the live profile. */
    function Steps(): seq<string>
      reads this
    {
      EffectiveSteps(catalog, profile)
    }

    /** The step index points at an existing step. */
    ghost predicate StepInRange()
      reads this
    {
      step < |Steps()|
    }

    /** The navigation bar is shown: not on the last step and not analyzing. */
    predicate NavVisible()
      reads this
    {
      step < |Steps()| - 1 && !isAnalyzing
    }

    /** The back button is disabled (and hidden) on the first step. */
    predicate BackDisabled()
      reads this
    {
      step == 0
    }

    /** The next button is disabled on the first step while a present selection is empty. */
    predicate NextDisabled()
      reads this
    {
      step == 0 && profile.selectedSectors.Some? && |profile.selectedSectors.value| == 0
    }

    function CurrentScreen(): Screen
      reads this
    {
      ScreenFor(Steps(), step, isAnalyzing)
    }

    function CurrentHint(): Hint
      reads this
    {
      HintFor(Steps(), step)
    }

    /** `updateProfile`: a shallow merge of the patch into the profile; the step is kept. */
    method UpdateProfile(patch: Profile)
      modifies this
      ensures profile == Merge(old(profile), patch)
      ensures step == old(step) && isAnalyzing == old(isAnalyzing)
    {
      profile := Merge(profile, patch);
    }

    /** `nextStep`: one step forward, unconditionally. */
    method NextStep()
      modifies this
      ensures step == old(step) + 1
      ensures profile == old(profile) && isAnalyzing == old(isAnalyzing)
    {
      step := step + 1;
    }

    /** `prevStep`: one step back, floored at 0. */
    method PrevStep()
      modifies this
      ensures step == if old(step) == 0 then 0 else old(step) - 1
      ensures profile == old(profile) && isAnalyzing == old(isAnalyzing)
    {
      step := if step == 0 then 0 else step - 1;
    }

    /** A press of the next button: it only acts when the bar is shown and the button enabled. */
    method ClickNext() returns (moved: bool)
      modifies this
      ensures moved == (old(NavVisible()) && !old(NextDisabled()))
      ensures step == if moved then old(step) + 1 else old(step)
      ensures profile == old(profile) && isAnalyzing == old(isAnalyzing)
      ensures old(StepInRange()) ==> StepInRange()
    {
      moved := NavVisible() && !NextDisabled();
      if moved {
        NextStep();
      }
    }

    /** A press of the back button: it only acts when the bar is shown and the button enabled. */
    method ClickBack() returns (moved: bool)
      modifies this
      ensures moved == (old(NavVisible()) && !old(BackDisabled()))
      ensures step == if moved then old(step) - 1 else old(step)
      ensures profile == old(profile) && isAnalyzing == old(isAnalyzing)
      ensures old(StepInRange()) ==> StepInRange()
    {
      moved := NavVisible() && !BackDisabled();
      if moved {
        PrevStep();
      }
    }

    /** A sector card press on the first step: toggles the id in the selection. */
    method ToggleSector(id: string)
      modifies this
      ensures profile == WithSectorToggled(old(profile), id)
      ensures step == old(step) && isAnalyzing == old(isAnalyzing)
    {
      var current := SelectedIds(profile);
      UpdateProfile(Profile(Some(Toggle(current, id)), map[]));
    }

    /** A yes/no card press: flips the attribute `key`. */
    method ToggleFlag(key: string)
      modifies this
      ensures profile == WithFlagToggled(old(profile), key)
      ensures Steps() == old(Steps())
      ensures CurrentScreen() == old(CurrentScreen()) && CurrentHint() == old(CurrentHint())
      ensures step == old(step) && isAnalyzing == old(isAnalyzing)
    {
      UpdateProfile(Profile(None, map[key := Bool(!Flag(profile, key))]));
    }

    /** `startAnalysis` up to the request: raises the flag and hands over the profile to submit. */
    method StartAnalysis() returns (submitted: Profile)
      modifies this
      ensures isAnalyzing && !NavVisible()
      ensures submitted == profile == old(profile) && step == old(step)
    {
      isAnalyzing := true;
      submitted := profile;
    }

    /**
     * `startAnalysis` after the request settles. The flag is lowered either
     * way. When `analyzeRights` resolves, the completion hand-off carries its
     * report, the empty one for every caught failure, and the submitted
     * profile; when it rejects there is no hand-off.
     */
    method FinishAnalysis(submitted: Profile, outcome: AnalysisOutcome) returns (handoff: Option<(Report, Profile)>)
      modifies this
      ensures !isAnalyzing
      ensures outcome.AnalysisRejected? ==> handoff == None
      ensures outcome.Cards? ==> handoff == Some((WithSearchLinks(outcome.items, outcome.searchLinks), submitted))
      ensures !outcome.Cards? && !outcome.AnalysisRejected? ==> handoff == Some(([], submitted))
      ensures profile == old(profile) && step == old(step)
    {
      isAnalyzing := false;
      var results := AnalysisReport(outcome);
      if results.Some? {
        handoff := Some((results.value, submitted));
      } else {
        handoff := None;
      }
    }
  }
}
