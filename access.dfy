/**
 * The tier access policy: the navigation table of the menu bar with its `canAccess` predicate,
 * and the per-page gates. The session is passed in explicitly: absent (no user) or a signed-in
 * user carrying a tier token, which may be "free", "premium", "pro" or any other string.
 */
module Access {
  import opened Options

  datatype Session = Anonymous | SignedIn(tier: string)

  datatype NavItem = NavItem(name: string, href: string, requiresAuth: bool, requiresTier: Option<string>)

  /** The menu entries, in display order. */
  const Navigation: seq<NavItem> := [
    NavItem("Dashboard", "/dashboard", true, None),
    NavItem("Compare", "/compare", false, None),
    NavItem("Trade Analyzer", "/trade", false, None),
    NavItem("Rankings", "/rankings", false, None),
    NavItem("Hot Players", "/hot-players", false, None),
    NavItem("Consistency", "/consistency", false, None),
    NavItem("Waiver Wire", "/waiver", true, Some("pro"))
  ]

  const DashboardEntry: NavItem := Navigation[0]
  const WaiverWireEntry: NavItem := Navigation[6]

  /**
   * Whether a menu entry is enabled: open items to everybody, others to a signed-in user whose
   * tier is the required one, with "pro" also admitted where "premium" is required.
   * The desktop and mobile menus evaluate this same expression.
   */
  predicate CanAccess(item: NavItem, s: Session)
    ensures !item.requiresAuth ==> CanAccess(item, s)
    ensures CanAccess(item, s) && item.requiresAuth ==> s.SignedIn?
    ensures s.SignedIn? && item.requiresTier.Some? && s.tier == item.requiresTier.value ==> CanAccess(item, s)
  {
    !item.requiresAuth ||
    (s.SignedIn? &&
      (NoTierRequired(item) || s.tier == item.requiresTier.value ||
       (item.requiresTier == Some("premium") && s.tier == "pro")))
  }

  /** JavaScript treats a missing tier and the empty tier string alike: both are falsy. */
  predicate NoTierRequired(item: NavItem)
  {
    item.requiresTier.None? || item.requiresTier == Some("")
  }

  /** What `CanAccess` grants, case by case over the kinds of entry. */
  lemma CanAccessCases(item: NavItem, s: Session)
    ensures !item.requiresAuth ==> CanAccess(item, s)
    ensures item.requiresAuth && s.Anonymous? ==> !CanAccess(item, s)
    ensures item.requiresAuth && item.requiresTier.None? ==> (CanAccess(item, s) <==> s.SignedIn?)
    ensures item.requiresAuth && item.requiresTier == Some("pro") ==>
              (CanAccess(item, s) <==> s == SignedIn("pro"))
    ensures item.requiresAuth && item.requiresTier == Some("premium") ==>
              (CanAccess(item, s) <==> s == SignedIn("premium") || s == SignedIn("pro"))
  {
  }

  /** Every entry that does not require sign-in is enabled for every session, anonymous included. */
  lemma PublicEntriesOpen(s: Session)
    ensures forall i :: 0 <= i < |Navigation| && !Navigation[i].requiresAuth ==> CanAccess(Navigation[i], s)
  {
  }

  /** Dashboard: any signed-in user whatever the tier token, and no anonymous visitor. */
  lemma DashboardNeedsSignInOnly(s: Session)
    ensures CanAccess(DashboardEntry, s) <==> s.SignedIn?
  {
  }

  /** Waiver Wire: tier exactly "pro"; "premium", "free" and unknown tokens are denied. */
  lemma WaiverWireIsProOnly(s: Session)
    ensures CanAccess(WaiverWireEntry, s) <==> s == SignedIn("pro")
    ensures !CanAccess(WaiverWireEntry, SignedIn("premium"))
    ensures !CanAccess(WaiverWireEntry, SignedIn("free"))
    ensures !CanAccess(WaiverWireEntry, Anonymous)
  {
  }

  /** One-way containment: "pro" opens what "premium" opens, "premium" does not open "pro" items. */
  lemma ProContainsPremium(item: NavItem)
    ensures CanAccess(item, SignedIn("premium")) ==> CanAccess(item, SignedIn("pro"))
    ensures item.requiresAuth && item.requiresTier == Some("pro") ==> !CanAccess(item, SignedIn("premium"))
  {
  }

  /** Signing in never closes an entry: whatever an anonymous visitor may open, every user may. */
  lemma SigningInIsMonotone(item: NavItem, tier: string)
    ensures CanAccess(item, Anonymous) ==> CanAccess(item, SignedIn(tier))
  {
  }

  /** The Waiver Wire page gate: a user with tier "pro". */
  predicate CanAccessWaiverWire(s: Session)
    ensures CanAccessWaiverWire(s) ==> CanUsePremiumFeatures(s)
  {
    s.SignedIn? && s.tier == "pro"
  }

  /** The premium gate of the Trade Analyzer (`canUsePremiumFeatures`) and Consistency (`canAccessAdvancedMetrics`) pages. */
  predicate CanUsePremiumFeatures(s: Session)
    ensures CanUsePremiumFeatures(s) ==> s.SignedIn? && !IsFreeOrAnonymous(s)
  {
    s.SignedIn? && (s.tier == "premium" || s.tier == "pro")
  }

  /** No user or tier "free": the upsell condition of the comparison page and the early return of `analyzeTrade`. */
  predicate IsFreeOrAnonymous(s: Session)
    ensures s.Anonymous? ==> IsFreeOrAnonymous(s)
    ensures IsFreeOrAnonymous(s) ==> !CanAccess(WaiverWireEntry, s)
  {
    s.Anonymous? || s.tier == "free"
  }

  /** The page gate of Waiver Wire agrees with the menu's entry for every session. */
  lemma WaiverGateAgreesWithMenu(s: Session)
    ensures CanAccessWaiverWire(s) <==> CanAccess(WaiverWireEntry, s)
  {
  }

  /** The premium page gate is the menu rule for an entry that requires "premium". */
  lemma PremiumGateAgreesWithMenu(s: Session, name: string, href: string)
    ensures CanUsePremiumFeatures(s) <==> CanAccess(NavItem(name, href, true, Some("premium")), s)
  {
  }

  /**
   * The two trade gates disagree on unrecognised tiers: the premium gate implies the
   * `analyzeTrade` guard passes, but a token such as "gold" passes that guard while the premium
   * gate (and so the button and the result panel) stays closed.
   */
  lemma TradeGatesOnUnknownTier(s: Session)
    ensures CanUsePremiumFeatures(s) ==> !IsFreeOrAnonymous(s)
    ensures !IsFreeOrAnonymous(SignedIn("gold")) && !CanUsePremiumFeatures(SignedIn("gold"))
  {
  }
}
