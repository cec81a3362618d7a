/** What the asset screens derive for display from an asset row: the status badge and the type line. */
module AssetDisplay {
  import opened Wrappers
  import opened Text
  import opened Records

  /** The badge's colour and icon group. */
  datatype Tone = Positive | Service | Neutral

  datatype Badge = Badge(tone: Tone, caption: string)

  /**
   * `StatusBadge`, written out in the details page, the building list and the overview with the
   * same mapping from status to tone and caption; their icons and styling differ and are not modelled.
   */
  function StatusBadge(status: string): Badge {
    if status == "Active" then Badge(Positive, "Active")
    else if status == "Maintenance" then Badge(Service, "Maintenance")
    else Badge(Neutral, status)
  }

  /**
   * The badge always reads the stored status; only Active and Maintenance get their own tone, so
   * Inactive and any other stored string share the neutral one.
   */
  lemma BadgeReadsStatus(status: string)
    ensures StatusBadge(status).caption == status
    ensures StatusBadge(status).tone == Positive <==> status == Active.Name()
    ensures StatusBadge(status).tone == Service <==> status == Maintenance.Name()
    ensures StatusBadge(status).tone == Neutral <==> ParseStatus(status) != Some(Active) && ParseStatus(status) != Some(Maintenance)
  {
    StatusNamesRoundTrip(Active, status);
    StatusNamesRoundTrip(Maintenance, status);
  }

  /** Badges differ exactly when the statuses do. */
  lemma BadgeInjective(s1: string, s2: string)
    ensures StatusBadge(s1) == StatusBadge(s2) <==> s1 == s2
  {
    BadgeReadsStatus(s1);
    BadgeReadsStatus(s2);
  }

  const UnknownType := "Unknown type"
  const NotAvailable := "N/A"

  /** `asset.type || "Unknown type"` on the cards and the details header. */
  function TypeLine(a: Asset): string {
    OrElse(a.assetType, UnknownType)
  }

  /** `asset.type || "N/A"` on the details card. */
  function TypeField(a: Asset): string {
    OrElse(a.assetType, NotAvailable)
  }

  /** A stored type is shown as it is; a missing or empty one by one of two fallbacks, which differ. */
  lemma TypeFallbacks(a: Asset)
    ensures a.assetType.Some? && a.assetType.value != "" ==> TypeLine(a) == TypeField(a) == a.assetType.value
    ensures a.assetType.None? || a.assetType.value == "" ==> TypeLine(a) == UnknownType && TypeField(a) == NotAvailable
    ensures TypeLine(a) != "" && TypeField(a) != ""
  {
  }
}
