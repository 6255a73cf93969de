/**
 * The page shell: the selected sector, the committed profile and the toast,
 * the effective sector handed to the updates and checklist panels, and the
 * profile card whose Save button is disabled while a save is out.
 */
module Dashboard {
  import opened Wrappers
  import opened MockData
  import opened Fetchers
  import UiHelpers
  import Panels
  import Checklist

  /** The sector the panels use: the selection, unless it is "all", in which case the profile's. */
  function EffectiveSector(selected: string, profileSector: string): (r: string)
    ensures selected != "all" ==> r == selected
    ensures selected == "all" ==> r == profileSector
    ensures r == "all" <==> selected == "all" && profileSector == "all"
    ensures selected in UiHelpers.SectorKeys && profileSector in UiHelpers.SectorKeys ==> r in UiHelpers.SectorKeys
  {
    if selected == "all" then profileSector else selected
  }

  /** Resolving again against the same profile changes nothing. */
  lemma EffectiveSectorIdempotent(selected: string, profileSector: string)
    ensures EffectiveSector(EffectiveSector(selected, profileSector), profileSector) == EffectiveSector(selected, profileSector)
  {
  }

  const InitialProfile := Profile("Acme MSME", "Gujarat", Number(18), "all")

  /** The toast text, with the characters the page's source text holds after "saved". */
  const SavedToastText := "Profile saved \U{00E2}\U{0153}\U{201D}"

  class App {
    var sector: string
    var profile: Profile
    var savedToast: string

    constructor ()
      ensures sector == "all" && profile == InitialProfile && savedToast == ""
      ensures PanelSector() == "all"
    {
      sector := "all";
      profile := InitialProfile;
      savedToast := "";
    }

    /** The sector prop of both the updates panel and the checklist panel. */
    function PanelSector(): (r: string)
      reads this
      ensures sector != "all" ==> r == sector
      ensures sector == "all" ==> r == profile.sector
      ensures r == "all" <==> sector == "all" && profile.sector == "all"
    {
      EffectiveSector(sector, profile.sector)
    }

    /** The navigation bar's selector changed. */
    method SetSector(s: string)
      modifies this
      ensures sector == s && profile == old(profile) && savedToast == old(savedToast)
    {
      sector := s;
    }

    /**
     * The profile card saved `form`. Nothing happens before the save's answer,
     * so the handler is one step: the echoed profile replaces the committed one
     * wholesale, with no validation, and the toast is shown.
     */
    method HandleSave(form: Profile)
      modifies this
      ensures profile == form && savedToast == SavedToastText && sector == old(sector)
      ensures PanelSector() == EffectiveSector(old(sector), form.sector)
    {
      var res := SaveProfile(form);
      if res.ok {
        profile := res.profile;
        savedToast := SavedToastText;
      }
    }

    /** The toast's timer fired. It clears whatever toast is showing. */
    method ClearToast()
      modifies this
      ensures savedToast == "" && sector == old(sector) && profile == old(profile)
    {
      savedToast := "";
    }
  }

  /**
   * The profile card: its own copy of the form and the saving flag. The form
   * is taken from the profile once, when the card is first rendered.
   */
  class ProfileCard {
    var form: Profile
    var saving: bool

    constructor (profile: Profile)
      ensures form == profile && !saving
    {
      form := profile;
      saving := false;
    }

    method EditName(v: string)
      modifies this
      ensures form == old(form).(name := v) && saving == old(saving)
    {
      form := form.(name := v);
    }

    method EditState(v: string)
      modifies this
      ensures form == old(form).(state := v) && saving == old(saving)
    {
      form := form.(state := v);
    }

    /** The employees input hands over its text as typed. */
    method EditEmployees(v: string)
      modifies this
      ensures form == old(form).(employees := Text(v)) && saving == old(saving)
    {
      form := form.(employees := Text(v));
    }

    method EditSector(v: string)
      modifies this
      ensures form == old(form).(sector := v) && saving == old(saving)
    {
      form := form.(sector := v);
    }

    /**
     * The Save button was pressed. While a save is out the button is disabled
     * and nothing happens; otherwise the flag is raised and the form submitted.
     */
    method PressSave() returns (submitted: Option<Profile>)
      modifies this
      ensures saving && form == old(form)
      ensures old(saving) ==> submitted == None
      ensures !old(saving) ==> submitted == Some(old(form))
    {
      if saving {
        submitted := None;
      } else {
        saving := true;
        submitted := Some(form);
      }
    }

    /** The awaited save returned: the button is enabled again. */
    method SaveSettled()
      modifies this
      ensures !saving && form == old(form)
    {
      saving := false;
    }
  }

  /**
   * The whole save path once: press Save, let the page commit the form, and
   * settle. A second press while the first save is out submits nothing.
   */
  method SaveOnce(app: App, card: ProfileCard) returns (secondPress: Option<Profile>)
    requires app != card as object
    requires !card.saving
    modifies app, card
    ensures app.profile == old(card.form) && app.savedToast == SavedToastText && app.sector == old(app.sector)
    ensures card.form == old(card.form) && !card.saving
    ensures secondPress == None
  {
    var first := card.PressSave();
    secondPress := card.PressSave();
    app.HandleSave(first.value);
    card.SaveSettled();
  }

  /**
   * The page as it opens: "all" is selected and the default profile says "all",
   * so the updates panel is fed the wildcard update alone and the checklist is
   * the general items alone.
   */
  method OpeningDashboard() returns (feed: seq<ComplianceUpdate>, checklist: seq<ChecklistItem>)
    ensures feed == [Labour017]
    ensures checklist == GeneralChecklist
  {
    var app := new App();
    var updates := new Panels.UpdatesCard(app.PanelSector());
    var cards := new Checklist.ChecklistCard(app.PanelSector());
    var q := updates.BeginLoad();
    updates.CompleteLoad(q);
    AllFeed(Some(Panels.DefaultSince));
    Checklist.MergeForKnownSectors();
    feed, checklist := updates.updates, cards.list;
  }

  /**
   * With "all" still selected, saving a food profile moves both panels to food:
   * the updates panel reloads with the food feed and the checklist becomes the
   * food template followed by the general items.
   */
  method SavingProfileRetargetsPanels() returns (feed: seq<ComplianceUpdate>, checklist: seq<ChecklistItem>)
    ensures feed == [Labour017, Safety009]
    ensures checklist == FoodChecklist + GeneralChecklist
  {
    var app := new App();
    var updates := new Panels.UpdatesCard(app.PanelSector());
    var cards := new Checklist.ChecklistCard(app.PanelSector());
    app.HandleSave(InitialProfile.(sector := "food"));
    var q := updates.SetSector(app.PanelSector());
    updates.CompleteLoad(q.value);
    cards.SetSector(app.PanelSector());
    FoodFeed(Some(Panels.DefaultSince));
    Checklist.MergeForKnownSectors();
    feed, checklist := updates.updates, cards.list;
  }
}
