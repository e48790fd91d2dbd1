/** The status badge of frontend/src/components/StatusBadge.jsx: a constant
    table from lower-cased status to label and variant, with a default. */
module StatusBadge {
  import opened Wrappers
  import opened Text

  datatype Variant = Warning | Primary | Destructive | Success | Outline

  datatype BadgeConfig = BadgeConfig(title: string, variant: Variant)

  const UnknownConfig: BadgeConfig := BadgeConfig("Unknown", Outline)

  /** The statuses the table names, besides its `default` entry. */
  const KnownStatuses: seq<string> := ["pending", "investigating", "confirmed", "false_positive"]

  /** The table's own entries. */
  function OwnConfig(key: string): (r: Option<BadgeConfig>)
    ensures r.Some? <==> key in KnownStatuses || key == "default"
    ensures r.Some? && key != "default" ==> StatusOfTitle(r.value.title) == Some(key)
    ensures r.Some? ==> (r.value.variant == Outline <==> key == "default")
  {
    if key == "pending" then Some(BadgeConfig("Pending", Warning))
    else if key == "investigating" then Some(BadgeConfig("Investigating", Primary))
    else if key == "confirmed" then Some(BadgeConfig("Confirmed", Destructive))
    else if key == "false_positive" then Some(BadgeConfig("False Positive", Success))
    else if key == "default" then Some(UnknownConfig)
    else None
  }

  /** The badge for a status: its own table entry after lower-casing, or
      the `default` entry. Only own entries of the table are consulted. */
  function Badge(status: string): (c: BadgeConfig)
    ensures c.variant == Outline <==> c.title == "Unknown"
    ensures c.title == "Unknown" <==> LowerStr(status) !in KnownStatuses
  {
    OwnConfig(LowerStr(status)).GetOr(UnknownConfig)
  }

  /** The status a badge title stands for. */
  function StatusOfTitle(title: string): Option<string>
  {
    if title == "Pending" then Some("pending")
    else if title == "Investigating" then Some("investigating")
    else if title == "Confirmed" then Some("confirmed")
    else if title == "False Positive" then Some("false_positive")
    else None
  }

  /** The four statuses get their own titles, from which each is recovered. */
  lemma KnownStatusTitles()
    ensures Badge("pending") == BadgeConfig("Pending", Warning)
    ensures Badge("investigating") == BadgeConfig("Investigating", Primary)
    ensures Badge("confirmed") == BadgeConfig("Confirmed", Destructive)
    ensures Badge("false_positive") == BadgeConfig("False Positive", Success)
    ensures forall s :: s in KnownStatuses ==> StatusOfTitle(Badge(s).title) == Some(s)
  {
    LowerFixed("pending");
    LowerFixed("investigating");
    LowerFixed("confirmed");
    LowerFixed("false_positive");
  }

  /** A string without upper-case letters is its own lower case. */
  lemma LowerFixed(s: string)
    requires forall i :: 0 <= i < |s| ==> !('A' <= s[i] <= 'Z')
    ensures LowerStr(s) == s
  {
  }

  /** The lookup ignores case: `badge(s) == badge(s.toLowerCase())`. */
  lemma BadgeCaseInsensitive(status: string)
    ensures Badge(status) == Badge(LowerStr(status))
  {
    LowerStrIdempotent(status);
  }

  /** How `statusConfig[key]` resolves on a plain object literal: an own
      entry, a property inherited from `Object.prototype`, or nothing. */
  datatype Lookup = Own(config: BadgeConfig) | Inherited | Absent

  function LookupAsWritten(key: string): (r: Lookup)
    ensures r.Inherited? <==> key == "constructor" || key == "__proto__"
    ensures r.Own? <==> OwnConfig(key).Some?
    ensures r.Own? ==> r.config == OwnConfig(key).value
  {
    match OwnConfig(key)
    case Some(c) => Own(c)
    case None => if key == "constructor" || key == "__proto__" then Inherited else Absent
  }

  /** What the badge renders as written: an inherited property is truthy,
      so it is used as the configuration and its `label` and `variant`
      are undefined (`None`). */
  datatype Rendered = Rendered(title: Option<string>, variant: Option<Variant>)

  function BadgeAsWritten(status: string): (r: Rendered)
    ensures r.title.None? <==> r.variant.None?
    ensures r.title.None? <==> LowerStr(status) == "constructor" || LowerStr(status) == "__proto__"
    ensures r.title.Some? ==> r == Rendered(Some(Badge(status).title), Some(Badge(status).variant))
  {
    match LookupAsWritten(LowerStr(status))
    case Own(c) => Rendered(Some(c.title), Some(c.variant))
    case Inherited => Rendered(None, None)
    case Absent => Rendered(Some(UnknownConfig.title), Some(UnknownConfig.variant))
  }

  /** The status "Constructor" renders an empty badge as written, where the
      table's own-entry lookup gives the "Unknown" badge. */
  lemma ConstructorStatusRendersBlank()
    ensures BadgeAsWritten("Constructor").title == None
    ensures Badge("Constructor") == UnknownConfig
  {
    assert LowerStr("Constructor") == "constructor";
  }

  /** Outside the two inherited names the written lookup and `Badge` agree. */
  lemma AsWrittenAgreesElsewhere(status: string)
    requires LowerStr(status) != "constructor" && LowerStr(status) != "__proto__"
    ensures BadgeAsWritten(status) == Rendered(Some(Badge(status).title), Some(Badge(status).variant))
  {
  }
}
