/** The event record of the listing (src/types/events.ts). */
module EventTypes {
  import opened Wrappers

  /** The four values of the `tier` field. */
  datatype Tier = Free | Silver | Gold | Platinum

  /** One event row. Optional or nullable text fields are `Option<string>`;
      `category` and `location` may be absent, `description` and `image_url`
      may be null. */
  datatype Event = Event(
    id: string,
    title: string,
    description: Option<string>,
    eventDate: string,
    imageUrl: Option<string>,
    tier: Tier,
    category: Option<string>,
    location: Option<string>,
    createdAt: string)

  /** The string literal that represents a tier in the record. */
  function TierName(t: Tier): string
  {
    match t
    case Free => "free"
    case Silver => "silver"
    case Gold => "gold"
    case Platinum => "platinum"
  }

  /** The tier a string literal names, if any. */
  function ParseTier(s: string): (r: Option<Tier>)
    ensures r.Some? ==> TierName(r.value) == s
  {
    if s == "free" then Some(Free)
    else if s == "silver" then Some(Silver)
    else if s == "gold" then Some(Gold)
    else if s == "platinum" then Some(Platinum)
    else None
  }

  /** Naming a tier and reading the name back gives the tier: the four names
      are distinct. */
  lemma TierNameRoundTrip(t: Tier)
    ensures ParseTier(TierName(t)) == Some(t)
  {
  }
}
