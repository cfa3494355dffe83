/**
 * The session (App.tsx): the current page, the report and profile it owns and
 * writes through to storage, and the two one-shot hand-off slots it fills for
 * the chat widget and the widget clears.
 */
module AppShell {
  import opened Types
  import opened Persistence
  import opened Services
  import Wizard
  import ReportBrowser
  import Chat

  /** What `renderContent` mounts, with the props that matter. */
  datatype View =
    | HomeView
    | AssessmentView(initialProfile: Option<Profile>)
    | DashboardView(rights: Report)

  /** `renderContent`: the wizard and the dashboard have their own view; every other page shows Home. */
  function RenderContent(page: Page, report: Report, profile: Option<Profile>): (v: View)
    ensures v.HomeView? <==> page == HomePage || page == ChatPage
    ensures v.AssessmentView? <==> page == AssessmentPage
    ensures v.AssessmentView? ==> v.initialProfile == profile
    ensures v.DashboardView? <==> page == DashboardPage
    ensures v.DashboardView? ==> v.rights == report
  {
    match page
    case AssessmentPage => AssessmentView(profile)
    case DashboardPage => DashboardView(report)
    case _ => HomeView
  }

  /** The report a reload reads back: present only when the key holds a report. */
  function StoredReport(entries: map<string, Blob>): Option<Report>
  {
    if ReportKey in entries && entries[ReportKey].ReportBlob? then Some(entries[ReportKey].report) else None
  }

  /** The profile a reload reads back: present only when the key holds a profile. */
  function StoredProfile(entries: map<string, Blob>): Option<Profile>
  {
    if ProfileKey in entries && entries[ProfileKey].ProfileBlob? then Some(entries[ProfileKey].profile) else None
  }

  /** Writing the session's two keys is read back unchanged, whatever else storage holds. */
  lemma SessionRoundTrip(entries: map<string, Blob>, data: Report, p: Profile)
    ensures var saved := entries[ReportKey := ReportBlob(data)][ProfileKey := ProfileBlob(p)];
      StoredReport(saved) == Some(data) && StoredProfile(saved) == Some(p)
  {
    var saved := entries[ReportKey := ReportBlob(data)][ProfileKey := ProfileBlob(p)];
    assert ReportKey != ProfileKey;
    assert saved[ReportKey] == ReportBlob(data);
  }

  /** The report browser's progress writes never disturb what the session reads back. */
  lemma ProgressWritesKeepSession(entries: map<string, Blob>, flags: map<string, bool>)
    ensures StoredReport(entries[ProgressKey := FlagsBlob(flags)]) == StoredReport(entries)
    ensures StoredProfile(entries[ProgressKey := FlagsBlob(flags)]) == StoredProfile(entries)
    ensures StoredReport(entries[DocsKey := FlagsBlob(flags)]) == StoredReport(entries)
    ensures StoredProfile(entries[DocsKey := FlagsBlob(flags)]) == StoredProfile(entries)
  {
    assert ProgressKey != ReportKey && ProgressKey != ProfileKey;
    assert DocsKey != ReportKey && DocsKey != ProfileKey;
  }

  class App {
    const catalog: seq<Wizard.Sector>
    const storage: Storage
    const chat: Chat.ChatWidget
    var currentPage: Page
    var report: Report
    var profile: Option<Profile>
    var focusedRight: Option<RightCard>
    var triggerMessage: Option<string>

    /** Mounting: the home page, an empty report, no profile, both slots empty, a fresh chat widget. */
    constructor (catalog: seq<Wizard.Sector>, storage: Storage)
      ensures this.catalog == catalog && this.storage == storage
      ensures currentPage == HomePage && report == [] && profile == None
      ensures focusedRight == None && triggerMessage == None
      ensures fresh(chat)
      ensures !chat.isOpen && !chat.isLoading && chat.input == ""
      ensures chat.messages == [Message(Assistant, Chat.Greeting)]
    {
      this.catalog := catalog;
      this.storage := storage;
      chat := new Chat.ChatWidget();
      currentPage := HomePage;
      report := [];
      profile := None;
      focusedRight := None;
      triggerMessage := None;
    }

    /** The next launch restores the session as it stands. */
    ghost predicate Restorable()
      reads this, storage
    {
      StoredReport(storage.entries) == Some(report) && StoredProfile(storage.entries) == profile
    }

    /** The mount effect: each of report and profile is replaced only when storage holds one. */
    method Hydrate()
      modifies this
      ensures report == StoredReport(storage.entries).GetOr(old(report))
      ensures profile == if StoredProfile(storage.entries).Some? then StoredProfile(storage.entries) else old(profile)
      ensures currentPage == old(currentPage) && focusedRight == old(focusedRight)
      ensures triggerMessage == old(triggerMessage)
    {
      var savedReport := StoredReport(storage.entries);
      if savedReport.Some? {
        report := savedReport.value;
      }
      var savedProfile := StoredProfile(storage.entries);
      if savedProfile.Some? {
        profile := savedProfile;
      }
    }

    /** `renderContent` for the current state. */
    function CurrentView(): View
      reads this
    {
      RenderContent(currentPage, report, profile)
    }

    /** `handleAssessmentComplete`: adopts the report and profile, persists both, shows the dashboard. */
    method AssessmentComplete(data: Report, p: Profile)
      modifies this, storage
      ensures report == data && profile == Some(p) && currentPage == DashboardPage
      ensures storage.entries == old(storage.entries)[ReportKey := ReportBlob(data)][ProfileKey := ProfileBlob(p)]
      ensures Restorable()
      ensures CurrentView() == DashboardView(data)
      ensures focusedRight == old(focusedRight) && triggerMessage == old(triggerMessage)
    {
      report := data;
      profile := Some(p);
      storage.Set(ReportKey, ReportBlob(data));
      storage.Set(ProfileKey, ProfileBlob(p));
      currentPage := DashboardPage;
      SessionRoundTrip(old(storage.entries), data, p);
    }

    /** `handleFocusRight`: fills the focus slot. */
    method FocusRight(r: RightCard)
      modifies this
      ensures focusedRight == Some(r)
      ensures currentPage == old(currentPage) && report == old(report) && profile == old(profile)
      ensures triggerMessage == old(triggerMessage)
    {
      focusedRight := Some(r);
    }

    /** `handleAskSheli`: fills the trigger slot. */
    method AskSheli(msg: string)
      modifies this
      ensures triggerMessage == Some(msg)
      ensures currentPage == old(currentPage) && report == old(report) && profile == old(profile)
      ensures focusedRight == old(focusedRight)
    {
      triggerMessage := Some(msg);
    }

    /** `handleEditProfile`: back to the wizard, which starts from the current profile. */
    method EditProfile()
      modifies this
      ensures currentPage == AssessmentPage
      ensures CurrentView() == AssessmentView(profile)
      ensures report == old(report) && profile == old(profile)
      ensures focusedRight == old(focusedRight) && triggerMessage == old(triggerMessage)
    {
      currentPage := AssessmentPage;
    }

    /** Home's start button. */
    method StartFromHome()
      modifies this
      ensures currentPage == AssessmentPage
      ensures report == old(report) && profile == old(profile)
      ensures focusedRight == old(focusedRight) && triggerMessage == old(triggerMessage)
    {
      currentPage := AssessmentPage;
    }

    /** The layout's navigation: any page, the chat page included. */
    method Navigate(page: Page)
      modifies this
      ensures currentPage == page
      ensures report == old(report) && profile == old(profile)
      ensures focusedRight == old(focusedRight) && triggerMessage == old(triggerMessage)
    {
      currentPage := page;
    }

    /** The chat widget's `onClearActiveRight`. */
    method ClearFocusedRight()
      modifies this
      ensures focusedRight == None
      ensures currentPage == old(currentPage) && report == old(report) && profile == old(profile)
      ensures triggerMessage == old(triggerMessage)
    {
      focusedRight := None;
    }

    /** The chat widget's `onClearTriggerMessage`. */
    method ClearTriggerMessage()
      modifies this
      ensures triggerMessage == None
      ensures currentPage == old(currentPage) && report == old(report) && profile == old(profile)
      ensures focusedRight == old(focusedRight)
    {
      triggerMessage := None;
    }

    /**
     * The chat widget's focus effect: a filled slot introduces the record in the
     * chat and is then cleared; an empty slot does nothing.
     */
    method DeliverFocus()
      modifies this, chat
      ensures focusedRight == None
      ensures old(focusedRight).Some? ==>
        chat.isOpen && chat.messages == old(chat.messages) + [Message(Assistant, Chat.IntroText(old(focusedRight).value))]
      ensures old(focusedRight).None? ==> chat.messages == old(chat.messages) && chat.isOpen == old(chat.isOpen)
      ensures chat.isLoading == old(chat.isLoading) && chat.input == old(chat.input)
      ensures currentPage == old(currentPage) && report == old(report) && profile == old(profile)
      ensures triggerMessage == old(triggerMessage)
    {
      if focusedRight.Some? {
        chat.FocusRecord(focusedRight.value);
        ClearFocusedRight();
      }
    }

    /**
     * The chat widget's trigger effect: a non-empty message is sent with the
     * current report as context and the slot is cleared; an empty string is
     * falsy, so it neither sends nor clears.
     */
    method DeliverTrigger() returns (request: Option<Chat.Request>)
      modifies this, chat
      ensures old(triggerMessage).Some? && old(triggerMessage).value != "" ==>
        && request == Some(Chat.Request(old(triggerMessage).value, report))
        && chat.messages == old(chat.messages) + [Message(User, old(triggerMessage).value)]
        && chat.isOpen && chat.isLoading && triggerMessage == None
      ensures !(old(triggerMessage).Some? && old(triggerMessage).value != "") ==>
        && request == None && triggerMessage == old(triggerMessage)
        && chat.messages == old(chat.messages) && chat.isOpen == old(chat.isOpen)
        && chat.isLoading == old(chat.isLoading)
      ensures chat.input == old(chat.input)
      ensures currentPage == old(currentPage) && report == old(report) && profile == old(profile)
      ensures focusedRight == old(focusedRight)
    {
      if triggerMessage.Some? && triggerMessage.value != "" {
        var sent := chat.Trigger(triggerMessage.value, report);
        request := Some(sent);
        ClearTriggerMessage();
      } else {
        request := None;
      }
    }

    /** The chat's send button, grounded on the current report. */
    method ChatSend() returns (request: Option<Chat.Request>)
      modifies chat
      ensures request.Some? ==> request.value.context == report
      ensures request.Some? <==> !old(chat.SendDisabled())
      ensures !old(chat.SendDisabled()) ==>
        && request == Some(Chat.Request(old(chat.input), report))
        && chat.messages == old(chat.messages) + [Message(User, old(chat.input))]
        && chat.input == "" && chat.isLoading
      ensures old(chat.SendDisabled()) ==>
        chat.messages == old(chat.messages) && chat.input == old(chat.input) && chat.isLoading == old(chat.isLoading)
      ensures chat.isOpen == old(chat.isOpen)
    {
      request := chat.BeginSend(report);
    }

    /** Mounting the wizard on the Assessment page: it starts from the session profile, or the defaults when there is none. */
    method MountAssessment() returns (w: Wizard.Assessment)
      ensures fresh(w)
      ensures w.catalog == catalog && w.step == 0 && !w.isAnalyzing
      ensures w.profile == if profile.Some? then profile.value else Wizard.DefaultProfile()
    {
      w := new Wizard.Assessment(catalog, profile);
    }

    /** Mounting the dashboard: it browses the session report and reads the saved progress. */
    method MountReportView() returns (v: ReportBrowser.ReportView)
      ensures fresh(v)
      ensures v.rights == report && v.storage == storage
      ensures v.activeTab == ReportBrowser.AllTab && v.selectedAuthorities == [] && v.query == ""
      ensures v.checkedSteps == ReportBrowser.StoredFlags(storage.entries, ProgressKey)
      ensures v.preparedDocs == ReportBrowser.StoredFlags(storage.entries, DocsKey)
    {
      v := new ReportBrowser.ReportView(report, storage);
    }

    /**
     * The end of the wizard's analysis, wired to `handleAssessmentComplete`.
     * Whenever `analyzeRights` resolves, the session adopts its report and the
     * submitted profile, persists both and shows the dashboard; a caught
     * failure resolves to the empty report, so it replaces the saved one.
     * Only a rejection leaves the session and storage untouched.
     */
    method CompleteAnalysis(w: Wizard.Assessment, submitted: Profile, outcome: AnalysisOutcome)
      modifies this, storage, w
      ensures !w.isAnalyzing && w.profile == old(w.profile) && w.step == old(w.step)
      ensures outcome.Cards? ==> report == WithSearchLinks(outcome.items, outcome.searchLinks)
      ensures !outcome.Cards? && !outcome.AnalysisRejected? ==>
        report == [] && StoredReport(storage.entries) == Some([])
      ensures !outcome.AnalysisRejected? ==>
        profile == Some(submitted) && currentPage == DashboardPage && Restorable()
      ensures outcome.AnalysisRejected? ==>
        report == old(report) && profile == old(profile) && currentPage == old(currentPage)
      ensures !outcome.AnalysisRejected? ==>
        storage.entries == old(storage.entries)[ReportKey := ReportBlob(report)][ProfileKey := ProfileBlob(submitted)]
      ensures outcome.AnalysisRejected? ==> storage.entries == old(storage.entries)
      ensures focusedRight == old(focusedRight) && triggerMessage == old(triggerMessage)
    {
      var handoff := w.FinishAnalysis(submitted, outcome);
      if handoff.Some? {
        AssessmentComplete(handoff.value.0, handoff.value.1);
      }
    }
  }
}
