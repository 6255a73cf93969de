/**
 * The records the dashboard works with and the fixed catalogues the mock
 * fetchers serve (updates, alerts and the per-sector checklist templates).
 */
module MockData {

  /** One entry of the regulatory-updates feed. */
  datatype ComplianceUpdate = ComplianceUpdate(
    id: string,
    title: string,
    url: string,
    updatedAt: string,
    tags: seq<string>,
    summary: string,
    sector: string)

  /** One deadline of the alerts list; `severity` is free text, looked up by the badge helper. */
  datatype Alert = Alert(id: string, title: string, due: string, severity: string, action: string)

  /** One line of a checklist; only `done` is ever changed, by toggling. */
  datatype ChecklistItem = ChecklistItem(id: string, item: string, done: bool)

  /**
   * A profile field as the page holds it: the default profile carries a number
   * of employees, while every value typed into the form arrives as text.
   */
  datatype FieldValue = Number(n: int) | Text(s: string)

  datatype Profile = Profile(name: string, state: string, employees: FieldValue, sector: string)

  // ---------------------------------------------------------------- updates

  const Gst001 := ComplianceUpdate(
    "gst-001",
    "GST rate update for fabric processing (example)",
    "https://www.example.gov/gst/fabric-aug-update",
    "2025-08-20",
    ["GST", "Textile"],
    "GST on certain fabric processing services revised. Effective Sept 01, 2025. Compliance window: 30 days.",
    "textile")

  const Labour017 := ComplianceUpdate(
    "labour-017",
    "Monthly wage register rule for >10 workers (example)",
    "https://www.example.gov/labour/wage-register",
    "2025-08-18",
    ["Labour", "HR"],
    "Establishments with more than 10 workers must maintain Form X wage register and digital attendance logs.",
    "all")

  const Safety009 := ComplianceUpdate(
    "safety-009",
    "Fire & Safety drill reporting for kitchens (example)",
    "https://www.example.gov/safety/kitchen-drill",
    "2025-08-15",
    ["Safety", "Processed Food"],
    "Commercial kitchens must record monthly safety drills and keep extinguisher service certificates updated.",
    "food")

  const Env103 := ComplianceUpdate(
    "env-103",
    "E-waste disposal norms for IT hardware (example)",
    "https://www.example.gov/pollution/e-waste",
    "2025-08-12",
    ["Environment", "IT"],
    "Updated e-waste collection and vendor certification requirements for MSMEs handling electronics.",
    "it")

  /** The whole updates catalogue, in the order the feed lists it. */
  const MockUpdates: seq<ComplianceUpdate> := [Gst001, Labour017, Safety009, Env103]

  // ----------------------------------------------------------------- alerts
  // The titles keep the characters the page's source text holds in place of a dash.

  const MockAlerts: seq<Alert> := [
    Alert("a1", "GST Filing \U{00E2}\U{20AC}\U{201D} GSTR-3B", "2025-09-20", "high", "Prepare & file via portal"),
    Alert("a2", "Labour \U{00E2}\U{20AC}\U{201D} PF Contribution", "2025-09-15", "medium", "Generate challan & pay"),
    Alert("a3", "Safety \U{00E2}\U{20AC}\U{201D} Fire Drill Log", "2025-09-05", "low", "Upload drill report")
  ]

  // ------------------------------------------------------------- checklists

  const FoodChecklist: seq<ChecklistItem> := [
    ChecklistItem("c1", "FSSAI License valid/renewal date", false),
    ChecklistItem("c2", "Kitchen hygiene SOPs documented", true),
    ChecklistItem("c3", "Fire drill conducted this month", false)
  ]

  const TextileChecklist: seq<ChecklistItem> := [
    ChecklistItem("c4", "GST category mapping verified", true),
    ChecklistItem("c5", "Worker safety training log", false)
  ]

  const ItChecklist: seq<ChecklistItem> := [
    ChecklistItem("c6", "Data protection policy updated", true),
    ChecklistItem("c7", "E-waste vendor certification", false)
  ]

  const GeneralChecklist: seq<ChecklistItem> := [
    ChecklistItem("c8", "Udyam registration synced", true),
    ChecklistItem("c9", "Bank KYC & PAN validated", true)
  ]

  /** The checklist templates, keyed like the object literal that holds them. */
  const MockChecklists: map<string, seq<ChecklistItem>> := map[
    "food" := FoodChecklist,
    "textile" := TextileChecklist,
    "it" := ItChecklist,
    "general" := GeneralChecklist
  ]

  /** No identifier occurs twice. */
  predicate Distinct(ids: seq<string>) {
    forall i, j :: 0 <= i < j < |ids| ==> ids[i] != ids[j]
  }

  /** The identifiers of a sequence of updates, in order. */
  function UpdateIds(us: seq<ComplianceUpdate>): (ids: seq<string>)
    ensures |ids| == |us|
    ensures forall i :: 0 <= i < |us| ==> ids[i] == us[i].id
  {
    seq(|us|, i requires 0 <= i < |us| => us[i].id)
  }

  /** The catalogue's identifiers are unique, so an update is determined by its identifier. */
  lemma CatalogueIdsDistinct()
    ensures Distinct(UpdateIds(MockUpdates))
  {
  }
}
