/** The status pill: two colour tables keyed by variant name (light and dark),
    chosen by the device colour scheme, with a fallback to the 'default' entry
    for a name neither table knows; and the size-dependent text class and icon
    size. A variant arrives as a plain string at run time (callers such as the
    job timeline pass `any`), so it is modelled as one. */
module Badge {
  import opened Common

  datatype VariantStyle = VariantStyle(background: string, border: string, text: string)

  /** What a caller's badge-details helper returns: a variant name and a label. */
  datatype BadgeDetails = BadgeDetails(variant: string, text: string)

  /** The members of the `BadgeVariant` union, in declaration order. */
  const Variants: set<string> := {"default", "secondary", "destructive", "outline", "success", "warning", "info", "emerald", "amber", "blue", "indigo", "slate", "pending", "canceled", "completed", "in_progress", "purple", "rose", "neutral", "paid", "overdue"}

  /** The light table, keyed by exactly the `BadgeVariant` names. */
  function LightStyles(variant: string): (style: Option<VariantStyle>)
    ensures style.Some? <==> variant in Variants
  {
    match variant
    case "default" => Some(VariantStyle("#0f172a", "transparent", "#ffffff"))
    case "secondary" => Some(VariantStyle("#f1f5f9", "transparent", "#0f172a"))
    case "destructive" => Some(VariantStyle("#fef2f2", "#fecaca", "#b91c1c"))
    case "outline" => Some(VariantStyle("transparent", "#e2e8f0", "#0f172a"))
    case "success" => Some(VariantStyle("#f0fdf4", "#bbf7d0", "#15803d"))
    case "warning" => Some(VariantStyle("#fffbeb", "#fde68a", "#b45309"))
    case "info" => Some(VariantStyle("#eff6ff", "#bfdbfe", "#1d4ed8"))
    case "emerald" => Some(VariantStyle("#ecfdf5", "#a7f3d0", "#047857"))
    case "amber" => Some(VariantStyle("#fffbeb", "#fde68a", "#b45309"))
    case "blue" => Some(VariantStyle("#eff6ff", "#bfdbfe", "#1d4ed8"))
    case "indigo" => Some(VariantStyle("#eef2ff", "#c7d2fe", "#4338ca"))
    case "slate" => Some(VariantStyle("#f8fafc", "#e2e8f0", "#334155"))
    case "pending" => Some(VariantStyle("#fefce8", "#fef08a", "#f59e0b"))
    case "canceled" => Some(VariantStyle("#fef2f2", "#fecaca", "#ef4444"))
    case "completed" => Some(VariantStyle("#f0fdf4", "#bbf7d0", "#22c55e"))
    case "in_progress" => Some(VariantStyle("#eef2ff", "#c7d2fe", "#6366f1"))
    case "purple" => Some(VariantStyle("#faf5ff", "#e9d5ff", "#7e22ce"))
    case "rose" => Some(VariantStyle("#fff1f2", "#fecdd3", "#be123c"))
    case "neutral" => Some(VariantStyle("#fafafa", "#e5e5e5", "#404040"))
    case "paid" => Some(VariantStyle("#f0fdf4", "#bbf7d0", "#22c55e"))
    case "overdue" => Some(VariantStyle("#fef2f2", "#fecaca", "#ef4444"))
    case _ => None
  }

  /** The dark table, keyed by exactly the `BadgeVariant` names. */
  function DarkStyles(variant: string): (style: Option<VariantStyle>)
    ensures style.Some? <==> variant in Variants
  {
    match variant
    case "default" => Some(VariantStyle("#020817", "transparent", "#ffffff"))
    case "secondary" => Some(VariantStyle("#1e293b", "transparent", "#f8fafc"))
    case "destructive" => Some(VariantStyle("rgba(127, 29, 29, 0.6)", "rgba(153, 27, 27, 0.6)", "#f87171"))
    case "outline" => Some(VariantStyle("transparent", "#1e293b", "#f8fafc"))
    case "success" => Some(VariantStyle("rgba(5, 46, 22, 0.3)", "rgba(22, 101, 52, 0.6)", "#4ade80"))
    case "warning" => Some(VariantStyle("rgba(78, 53, 0, 0.3)", "rgba(146, 64, 14, 0.6)", "#fbbf24"))
    case "info" => Some(VariantStyle("rgba(23, 37, 84, 0.3)", "rgba(30, 64, 175, 0.6)", "#60a5fa"))
    case "emerald" => Some(VariantStyle("rgba(6, 78, 59, 0.2)", "rgba(6, 78, 59, 0.3)", "#34d399"))
    case "amber" => Some(VariantStyle("rgba(120, 53, 15, 0.2)", "rgba(120, 53, 15, 0.3)", "#fbbf24"))
    case "blue" => Some(VariantStyle("rgba(23, 37, 84, 0.3)", "rgba(30, 64, 175, 0.6)", "#60a5fa"))
    case "indigo" => Some(VariantStyle("rgba(30, 27, 75, 0.3)", "rgba(55, 48, 163, 0.6)", "#818cf8"))
    case "slate" => Some(VariantStyle("rgba(15, 23, 42, 0.1)", "#1e293b", "#94a3b8"))
    case "pending" => Some(VariantStyle("rgba(113, 63, 18, 0.3)", "rgba(133, 77, 14, 0.6)", "#facc15"))
    case "canceled" => Some(VariantStyle("rgba(127, 29, 29, 0.3)", "rgba(153, 27, 27, 0.6)", "#f87171"))
    case "completed" => Some(VariantStyle("rgba(5, 46, 22, 0.3)", "rgba(22, 101, 52, 0.6)", "#4ade80"))
    case "in_progress" => Some(VariantStyle("rgba(30, 27, 75, 0.3)", "rgba(55, 48, 163, 0.6)", "#818cf8"))
    case "purple" => Some(VariantStyle("rgba(41, 37, 36, 0.3)", "rgba(107, 33, 168, 0.6)", "#a78bfa"))
    case "rose" => Some(VariantStyle("rgba(76, 5, 25, 0.3)", "rgba(159, 18, 57, 0.6)", "#fb7185"))
    case "neutral" => Some(VariantStyle("rgba(23, 23, 23, 0.1)", "#262626", "#a3a3a3"))
    case "paid" => Some(VariantStyle("rgba(5, 46, 22, 0.3)", "rgba(22, 101, 52, 0.6)", "#4ade80"))
    case "overdue" => Some(VariantStyle("rgba(127, 29, 29, 0.3)", "rgba(153, 27, 27, 0.6)", "#f87171"))
    case _ => None
  }

  /** `VARIANT_STYLES[variant]`: the dark table iff the colour scheme is 'dark'. */
  function StyleTable(scheme: Option<string>, variant: string): (r: Option<VariantStyle>)
    ensures scheme == Some("dark") ==> r == DarkStyles(variant)
    ensures scheme != Some("dark") ==> r == LightStyles(variant)
  {
    if scheme == Some("dark") then DarkStyles(variant) else LightStyles(variant)
  }

  /** The variant name after the `variant = 'default'` parameter default. */
  function VariantName(variant: Option<string>): string {
    if variant.Some? then variant.value else "default"
  }

  /** `VARIANT_STYLES[variant] || VARIANT_STYLES.default`. */
  function ResolveStyle(scheme: Option<string>, variant: Option<string>): (s: VariantStyle)
    ensures VariantName(variant) in Variants ==> StyleTable(scheme, VariantName(variant)) == Some(s)
    ensures VariantName(variant) !in Variants ==> StyleTable(scheme, "default") == Some(s)
  {
    match StyleTable(scheme, VariantName(variant))
    case Some(st) => st
    case None => StyleTable(scheme, "default").value
  }

  /** An unknown or missing variant is styled exactly like 'default'. */
  lemma UnknownVariantIsDefault(scheme: Option<string>, variant: Option<string>)
    requires variant.None? || variant.value !in Variants
    ensures ResolveStyle(scheme, variant) == ResolveStyle(scheme, Some("default"))
  {
  }

  /** `getTextSize`, after the `size = 'md'` parameter default. */
  function TextSize(size: Option<string>): (r: string)
    ensures r == "text-sm" <==> size == Some("lg")
    ensures r != "text-sm" ==> r == "text-xs"
  {
    match (if size.Some? then size.value else "md")
    case "sm" => "text-xs"
    case "lg" => "text-sm"
    case _ => "text-xs"
  }

  /** `getIconSize`, after the `size = 'md'` parameter default. */
  function IconSize(size: Option<string>): (r: nat)
    ensures r == 16 <==> size == Some("lg")
    ensures r != 16 ==> r == 14
  {
    match (if size.Some? then size.value else "md")
    case "sm" => 14
    case "lg" => 16
    case _ => 14
  }

  /** Only the large size changes anything: text and icon grow together. */
  lemma SizesAgree(size: Option<string>)
    ensures (TextSize(size) == "text-sm") == (IconSize(size) == 16)
    ensures size != Some("lg") ==> TextSize(size) == TextSize(None) && IconSize(size) == IconSize(None)
  {
  }

  datatype IconView = IconView(name: string, size: nat, color: string)

  datatype BadgeView = BadgeView(
    background: string,
    border: string,
    icon: Option<IconView>,
    labelText: string,
    labelClass: string,
    labelColor: string)

  /** What `Badge` renders for its props. */
  function Render(text: string, variant: Option<string>, icon: Option<string>,
                  size: Option<string>, scheme: Option<string>): (v: BadgeView)
    ensures v.icon.Some? <==> Truthy(icon)
    ensures v.icon.Some? ==> v.icon.value.name == icon.value && v.icon.value.color == v.labelColor
    ensures v.icon.Some? ==> v.icon.value.size == IconSize(size)
    ensures v.labelText == text && v.labelClass == TextSize(size) + " font-medium"
    ensures VariantStyle(v.background, v.border, v.labelColor) == ResolveStyle(scheme, variant)
  {
    var st := ResolveStyle(scheme, variant);
    BadgeView(
      st.background,
      st.border,
      if Truthy(icon) then Some(IconView(icon.value, IconSize(size), st.text)) else None,
      text,
      TextSize(size) + " font-medium",
      st.text)
  }
}
