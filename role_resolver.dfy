/**
 * Role resolution (`getRole`): the acting role is decided by the first of
 * four page signals that names one, in the order mode label, `data-role`
 * hint, `?role=` query parameter, `window.UI_ROLE` override, and is
 * `viewer` when none does.
 */
module RoleResolver {
  import opened Wrappers
  import opened Text

  datatype Role = Keyholder | Sub | Viewer

  /**
   * The signals read from the page at the moment of the action. `None` is an
   * absent element, attribute, parameter or global; `roleHint` is the raw
   * `data-role` attribute (the resolver lower-cases it, as `getCfg` does).
   */
  datatype Signals = Signals(
    modeLabel: Option<string>,
    roleHint: Option<string>,
    queryRole: Option<string>,
    uiRole: Option<string>)

  predicate IsKeyholderToken(v: string) { v == "keyholder" || v == "kh" || v == "owner" }
  predicate IsSubToken(v: string) { v == "sub" || v == "pet" }
  predicate IsViewerToken(v: string) { v == "viewer" || v == "view" }

  /** The mode label text as the resolver compares it: trimmed, then lower-cased. */
  function Normalized(text: string): string {
    Lower(Trim(text))
  }

  /** A page signal is "set" when JavaScript finds it truthy: present and non-empty. */
  predicate IsSet(o: Option<string>) {
    o.Some? && o.value != ""
  }

  /**
   * Source 1, the mode label: it decides keyholder when it mentions
   * "keyholder", sub when it mentions "locked pet" or is exactly "sub";
   * any other text passes to the next source.
   */
  function LabelDecision(ml: Option<string>): Option<Role> {
    if !IsSet(ml) then None
    else
      var low := Normalized(ml.value);
      if Contains(low, "keyholder") then Some(Keyholder)
      else if Contains(low, "locked pet") || low == "sub" then Some(Sub)
      else None
  }

  /** Source 2, the `data-role` hint: it decides only for a known token; anything else passes. */
  function HintDecision(hint: Option<string>): Option<Role> {
    var h := if hint.Some? then Lower(hint.value) else "";
    if h == "" then None
    else if IsKeyholderToken(h) then Some(Keyholder)
    else if IsSubToken(h) then Some(Sub)
    else if IsViewerToken(h) then Some(Viewer)
    else None
  }

  /** The role a query or override value names: a known token, any other value viewer. */
  function ExplicitRole(v: string): Role {
    var t := Lower(v);
    if IsKeyholderToken(t) then Keyholder
    else if IsSubToken(t) then Sub
    else Viewer
  }

  /** Sources 3 and 4, the `?role=` parameter and `window.UI_ROLE`: they decide whenever they are non-empty. */
  function ExplicitDecision(v: Option<string>): Option<Role> {
    if IsSet(v) then Some(ExplicitRole(v.value)) else None
  }

  /** Some signal names the keyholder. */
  predicate NamesKeyholder(s: Signals) {
    || (s.modeLabel.Some? && Contains(Normalized(s.modeLabel.value), "keyholder"))
    || (s.roleHint.Some? && IsKeyholderToken(Lower(s.roleHint.value)))
    || (s.queryRole.Some? && IsKeyholderToken(Lower(s.queryRole.value)))
    || (s.uiRole.Some? && IsKeyholderToken(Lower(s.uiRole.value)))
  }

  /** Some signal names the sub. */
  predicate NamesSub(s: Signals) {
    || (s.modeLabel.Some? && (Contains(Normalized(s.modeLabel.value), "locked pet") || Normalized(s.modeLabel.value) == "sub"))
    || (s.roleHint.Some? && IsSubToken(Lower(s.roleHint.value)))
    || (s.queryRole.Some? && IsSubToken(Lower(s.queryRole.value)))
    || (s.uiRole.Some? && IsSubToken(Lower(s.uiRole.value)))
  }

  /**
   * The role of the page (`getRole`): the first source that decides, else
   * viewer. Neither party's role is ever granted unless some signal names it.
   */
  function ResolveRole(s: Signals): (r: Role)
    ensures r == Keyholder ==> NamesKeyholder(s)
    ensures r == Sub ==> NamesSub(s)
  {
    var fromLabel := LabelDecision(s.modeLabel);
    var fromHint := HintDecision(s.roleHint);
    var fromQuery := ExplicitDecision(s.queryRole);
    var fromOverride := ExplicitDecision(s.uiRole);
    if fromLabel.Some? then fromLabel.value
    else if fromHint.Some? then fromHint.value
    else if fromQuery.Some? then fromQuery.value
    else if fromOverride.Some? then fromOverride.value
    else Viewer
  }

  // -----------------------------------------------------------------------
  // Precedence properties

  /** A mode label that mentions "keyholder" wins whatever the other signals say. */
  lemma ModeLabelKeyholderWins(s: Signals)
    requires s.modeLabel.Some? && Contains(Normalized(s.modeLabel.value), "keyholder")
    ensures ResolveRole(s) == Keyholder
  {
  }

  /** A mode label that mentions "locked pet" or is exactly "sub" (and not "keyholder") gives sub. */
  lemma ModeLabelSubWins(s: Signals)
    requires s.modeLabel.Some?
    requires !Contains(Normalized(s.modeLabel.value), "keyholder")
    requires Contains(Normalized(s.modeLabel.value), "locked pet") || Normalized(s.modeLabel.value) == "sub"
    ensures ResolveRole(s) == Sub
  {
  }

  /** Any other mode label is as good as no label. */
  lemma UnmatchedLabelFallsThrough(s: Signals)
    requires LabelDecision(s.modeLabel).None?
    ensures ResolveRole(s) == ResolveRole(s.(modeLabel := None))
  {
  }

  /**
   * When the label did not decide, a `data-role` hint of `keyholder`, `kh`
   * or `owner` grants keyholder, `sub` or `pet` grants sub, and `viewer` or
   * `view` grants viewer, in any letter case.
   */
  lemma HintDecides(s: Signals)
    requires LabelDecision(s.modeLabel).None? && s.roleHint.Some?
    ensures IsKeyholderToken(Lower(s.roleHint.value)) ==> ResolveRole(s) == Keyholder
    ensures IsSubToken(Lower(s.roleHint.value)) ==> ResolveRole(s) == Sub
    ensures IsViewerToken(Lower(s.roleHint.value)) ==> ResolveRole(s) == Viewer
  {
  }

  /** An unknown `data-role` token is as good as no hint. */
  lemma UnmatchedHintFallsThrough(s: Signals)
    requires HintDecision(s.roleHint).None?
    ensures ResolveRole(s) == ResolveRole(s.(roleHint := None))
  {
  }

  /**
   * A non-empty `?role=` value always decides, an unknown value as viewer:
   * the override is then never consulted.
   */
  lemma QueryAlwaysDecides(s: Signals)
    requires LabelDecision(s.modeLabel).None? && HintDecision(s.roleHint).None?
    requires IsSet(s.queryRole)
    ensures ResolveRole(s) == ExplicitRole(s.queryRole.value)
    ensures IsKeyholderToken(Lower(s.queryRole.value)) ==> ResolveRole(s) == Keyholder
    ensures IsSubToken(Lower(s.queryRole.value)) ==> ResolveRole(s) == Sub
    ensures !IsKeyholderToken(Lower(s.queryRole.value)) && !IsSubToken(Lower(s.queryRole.value)) ==> ResolveRole(s) == Viewer
  {
  }

  /**
   * When no earlier source decided, a non-empty `UI_ROLE` override naming a
   * keyholder token grants keyholder, one naming a sub token grants sub, any
   * other non-empty value grants viewer, and an absent or empty one viewer.
   */
  lemma OverrideDecides(s: Signals)
    requires LabelDecision(s.modeLabel).None? && HintDecision(s.roleHint).None? && !IsSet(s.queryRole)
    ensures IsSet(s.uiRole) && IsKeyholderToken(Lower(s.uiRole.value)) ==> ResolveRole(s) == Keyholder
    ensures IsSet(s.uiRole) && IsSubToken(Lower(s.uiRole.value)) ==> ResolveRole(s) == Sub
    ensures IsSet(s.uiRole) && !IsKeyholderToken(Lower(s.uiRole.value)) && !IsSubToken(Lower(s.uiRole.value))
      ==> ResolveRole(s) == Viewer
    ensures !IsSet(s.uiRole) ==> ResolveRole(s) == Viewer
  {
  }

  /** With no signal at all the role is viewer. */
  lemma NoSignalsIsViewer()
    ensures ResolveRole(Signals(None, None, None, None)) == Viewer
  {
  }

  // -----------------------------------------------------------------------
  // Worked cases

  lemma KeyholderModeLabel(text: string)
    requires text == "Keyholder Mode"
    ensures Contains(Normalized(text), "keyholder")
  {
  }

  /** The mode label "Keyholder Mode" wins over `?role=sub`. */
  lemma LabelBeatsQuery(s: Signals)
    requires s == Signals(Some("Keyholder Mode"), None, Some("sub"), None)
    ensures ResolveRole(s) == Keyholder
  {
    KeyholderModeLabel(s.modeLabel.value);
    ModeLabelKeyholderWins(s);
  }

  /** With no label, the hint "pet" gives sub. */
  lemma PetHintIsSub(s: Signals)
    requires s == Signals(None, Some("pet"), None, None)
    ensures ResolveRole(s) == Sub
  {
  }

  /** An unknown `?role=` value gives viewer, even when the override names keyholder. */
  lemma UnknownQueryIsViewer(s: Signals)
    requires s == Signals(None, None, Some("banana"), Some("keyholder"))
    ensures ResolveRole(s) == Viewer
  {
  }
}
