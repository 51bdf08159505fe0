/** The database enumerations the rules branch on, with their stored
    spellings. Each spelling names exactly one value, so reading back a
    stored value gives the value that was written. */
module Schema {
  import opened Text

  datatype AppRole = User | Admin | SuperAdmin
  datatype Intensity = Soft | Direct | NoMercy
  datatype LeadStatus = New | Contacted | Converted | Declined
  datatype Tier = Discovery | Growth | Transformation
  datatype Visibility = Public | Authenticated | MembersOnly

  function RoleName(r: AppRole): string
  {
    match r
    case User => "user"
    case Admin => "admin"
    case SuperAdmin => "super_admin"
  }

  function ParseRole(s: string): (r: Option<AppRole>)
    ensures r.Some? ==> RoleName(r.value) == s
    ensures r.None? ==> forall x :: RoleName(x) != s
  {
    if s == "user" then Some(User)
    else if s == "admin" then Some(Admin)
    else if s == "super_admin" then Some(SuperAdmin)
    else None
  }

  function IntensityName(i: Intensity): string
  {
    match i
    case Soft => "soft"
    case Direct => "direct"
    case NoMercy => "no_mercy"
  }

  function ParseIntensity(s: string): (r: Option<Intensity>)
    ensures r.Some? ==> IntensityName(r.value) == s
    ensures r.None? ==> forall x :: IntensityName(x) != s
  {
    if s == "soft" then Some(Soft)
    else if s == "direct" then Some(Direct)
    else if s == "no_mercy" then Some(NoMercy)
    else None
  }

  function LeadStatusName(l: LeadStatus): string
  {
    match l
    case New => "new"
    case Contacted => "contacted"
    case Converted => "converted"
    case Declined => "declined"
  }

  function ParseLeadStatus(s: string): (r: Option<LeadStatus>)
    ensures r.Some? ==> LeadStatusName(r.value) == s
    ensures r.None? ==> forall x :: LeadStatusName(x) != s
  {
    if s == "new" then Some(New)
    else if s == "contacted" then Some(Contacted)
    else if s == "converted" then Some(Converted)
    else if s == "declined" then Some(Declined)
    else None
  }

  function TierName(t: Tier): string
  {
    match t
    case Discovery => "discovery"
    case Growth => "growth"
    case Transformation => "transformation"
  }

  function ParseTier(s: string): (r: Option<Tier>)
    ensures r.Some? ==> TierName(r.value) == s
    ensures r.None? ==> forall x :: TierName(x) != s
  {
    if s == "discovery" then Some(Discovery)
    else if s == "growth" then Some(Growth)
    else if s == "transformation" then Some(Transformation)
    else None
  }

  function VisibilityName(v: Visibility): string
  {
    match v
    case Public => "public"
    case Authenticated => "authenticated"
    case MembersOnly => "members_only"
  }

  function ParseVisibility(s: string): (r: Option<Visibility>)
    ensures r.Some? ==> VisibilityName(r.value) == s
    ensures r.None? ==> forall x :: VisibilityName(x) != s
  {
    if s == "public" then Some(Public)
    else if s == "authenticated" then Some(Authenticated)
    else if s == "members_only" then Some(MembersOnly)
    else None
  }

  /** Reading back a stored spelling gives the value written: the spellings
      are pairwise distinct. */
  lemma NamesRoundTrip()
    ensures forall r :: ParseRole(RoleName(r)) == Some(r)
    ensures forall i :: ParseIntensity(IntensityName(i)) == Some(i)
    ensures forall l :: ParseLeadStatus(LeadStatusName(l)) == Some(l)
    ensures forall t :: ParseTier(TierName(t)) == Some(t)
    ensures forall v :: ParseVisibility(VisibilityName(v)) == Some(v)
  {
  }
}
