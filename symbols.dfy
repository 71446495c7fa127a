/**
 * The symbol registry: the closed set of symbol ids a card frame may carry and
 * the display metadata of each (label, category, icon, render mode).
 */
module Symbols {
  import opened Wrappers

  datatype SymbolId =
    | Wait | TextActive | TextPassive | WithText | Move | Jump
    | Attack | Charge | Block | Concentration | Combo | Refresh

  datatype Category = ActionCategory | TextCategory | UtilityCategory

  datatype IconKey =
    | WaitIcon | TextActiveIcon | TextPassiveIcon | MoveIcon | JumpIcon | AttackIcon
    | ChargeIcon | BlockIcon | ConcentrationIcon | ComboIcon | RefreshIcon | UnknownIcon

  datatype RenderMode = Standard | TextMarker | WithTextMode

  datatype SymbolMetaDefinition = SymbolMetaDefinition(
    labelText: string, description: string, category: Category, iconKey: IconKey, renderMode: RenderMode)

  /** A registry entry with its key attached, as `getSymbolMeta` returns it. */
  datatype SymbolMeta = SymbolMeta(
    id: SymbolId, labelText: string, description: string, category: Category, iconKey: IconKey, renderMode: RenderMode)

  /** The registry key of each symbol. */
  function Name(id: SymbolId): string
  {
    match id
    case Wait => "WAIT"
    case TextActive => "TEXT_ACTIVE"
    case TextPassive => "TEXT_PASSIVE"
    case WithText => "WITH_TEXT"
    case Move => "MOVE"
    case Jump => "JUMP"
    case Attack => "ATTACK"
    case Charge => "CHARGE"
    case Block => "BLOCK"
    case Concentration => "CONCENTRATION"
    case Combo => "COMBO"
    case Refresh => "REFRESH"
  }

  /** The keys of the registry object. */
  const RegistryKeys: set<string> := {
    "WAIT", "TEXT_ACTIVE", "TEXT_PASSIVE", "WITH_TEXT", "MOVE", "JUMP",
    "ATTACK", "CHARGE", "BLOCK", "CONCENTRATION", "COMBO", "REFRESH"
  }

  /** The registry table, one column at a time. */
  function Registry(id: SymbolId): SymbolMetaDefinition
  {
    SymbolMetaDefinition(LabelOf(id), DescriptionOf(id), CategoryOf(id), IconOf(id), RenderModeOf(id))
  }

  function LabelOf(id: SymbolId): string
  {
    match id
    case Wait => "Wait"
    case TextActive => "Active Text"
    case TextPassive => "Passive Text"
    case WithText => "Text Behind"
    case Move => "Move"
    case Jump => "Jump"
    case Attack => "Attack"
    case Charge => "Charge"
    case Block => "Block"
    case Concentration => "Concentration"
    case Combo => "Combo"
    case Refresh => "Refresh"
  }

  function DescriptionOf(id: SymbolId): string
  {
    match id
    case Wait => "Do nothing this frame."
    case TextActive => "Read the active text for this frame."
    case TextPassive => "Read the passive text for this frame."
    case WithText => "Symbol resolves alongside its text marker."
    case Move => "Move relative to facing."
    case Jump => "Jump ignoring blocking."
    case Attack => "Attack using a pattern."
    case Charge => "Attack then move into the target hex."
    case Block => "Block attacks from an edge."
    case Concentration => "Move card to concentration area."
    case Combo => "Optional chain into another combo card."
    case Refresh => "Refresh if on land."
  }

  function CategoryOf(id: SymbolId): Category
  {
    match id
    case Wait | Move | Jump | Attack | Charge => ActionCategory
    case TextActive | TextPassive | WithText => TextCategory
    case Block | Concentration | Combo | Refresh => UtilityCategory
  }

  function IconOf(id: SymbolId): IconKey
  {
    match id
    case Wait => WaitIcon
    case TextActive => TextActiveIcon
    case TextPassive => TextPassiveIcon
    case WithText => UnknownIcon
    case Move => MoveIcon
    case Jump => JumpIcon
    case Attack => AttackIcon
    case Charge => ChargeIcon
    case Block => BlockIcon
    case Concentration => ConcentrationIcon
    case Combo => ComboIcon
    case Refresh => RefreshIcon
  }

  function RenderModeOf(id: SymbolId): RenderMode
  {
    match id
    case TextActive | TextPassive => TextMarker
    case WithText => WithTextMode
    case _ => Standard
  }

  /** The registry's own-property lookup: the id whose key is s, if any. */
  function Lookup(s: string): (r: Option<SymbolId>)
    ensures r.Some? ==> Name(r.value) == s
  {
    if s == "WAIT" then Some(Wait)
    else if s == "TEXT_ACTIVE" then Some(TextActive)
    else if s == "TEXT_PASSIVE" then Some(TextPassive)
    else if s == "WITH_TEXT" then Some(WithText)
    else if s == "MOVE" then Some(Move)
    else if s == "JUMP" then Some(Jump)
    else if s == "ATTACK" then Some(Attack)
    else if s == "CHARGE" then Some(Charge)
    else if s == "BLOCK" then Some(Block)
    else if s == "CONCENTRATION" then Some(Concentration)
    else if s == "COMBO" then Some(Combo)
    else if s == "REFRESH" then Some(Refresh)
    else None
  }

  /** `isSymbolId`: s is an own key of the registry (inherited names such as "toString" are not). */
  predicate IsSymbolId(s: string)
  {
    Lookup(s).Some?
  }

  /** `getSymbolMeta`. */
  function GetSymbolMeta(s: string): (r: Option<SymbolMeta>)
    ensures r.Some? <==> IsSymbolId(s)
    ensures r.Some? ==> Name(r.value.id) == s
    ensures r.Some? ==> var d := Registry(r.value.id);
      r.value == SymbolMeta(r.value.id, d.labelText, d.description, d.category, d.iconKey, d.renderMode)
  {
    match Lookup(s)
    case None => None
    case Some(id) =>
      var d := Registry(id);
      Some(SymbolMeta(id, d.labelText, d.description, d.category, d.iconKey, d.renderMode))
  }

  /** The ids a WITH_TEXT symbol may wrap. */
  predicate IsBaseSymbolId(id: SymbolId)
  {
    id != WithText
  }

  /** isSymbolId accepts exactly the twelve registry keys. */
  lemma IsSymbolIdExactlyRegistryKeys(s: string)
    ensures IsSymbolId(s) <==> s in RegistryKeys
  {
  }

  lemma RegistryHasTwelveKeys()
    ensures |RegistryKeys| == 12
  {
  }

  /** Names and lookups are inverse: each symbol has its own key. */
  lemma LookupName(id: SymbolId)
    ensures Lookup(Name(id)) == Some(id)
  {
  }

  lemma NameInjective(a: SymbolId, b: SymbolId)
    requires Name(a) == Name(b)
    ensures a == b
  {
    LookupName(a);
    LookupName(b);
  }

  /** The base ids are the registry keys without WITH_TEXT. */
  lemma BaseSymbolIds(id: SymbolId)
    ensures IsBaseSymbolId(id) <==> Name(id) in RegistryKeys - {"WITH_TEXT"}
  {
  }

  /** WITH_TEXT alone renders as 'withText' and alone uses the 'unknown' icon. */
  lemma WithTextIsTheOnlyWrapper(id: SymbolId)
    ensures Registry(id).renderMode == WithTextMode <==> id == WithText
    ensures Registry(id).iconKey == UnknownIcon <==> id == WithText
  {
  }

  /** The 'text' category holds the two text markers and WITH_TEXT; only the markers render as markers. */
  lemma TextCategoryMembers(id: SymbolId)
    ensures Registry(id).category == TextCategory <==> id in {TextActive, TextPassive, WithText}
    ensures Registry(id).category == TextCategory && Registry(id).renderMode == TextMarker
        <==> id in {TextActive, TextPassive}
  {
  }

  /** No two symbols share an icon. */
  lemma IconKeyInjective(a: SymbolId, b: SymbolId)
    requires Registry(a).iconKey == Registry(b).iconKey
    ensures a == b
  {
    IconOwnerOfIcon(a);
    IconOwnerOfIcon(b);
  }

  /** The symbol drawn with an icon. */
  function IconOwner(k: IconKey): SymbolId
  {
    match k
    case WaitIcon => Wait
    case TextActiveIcon => TextActive
    case TextPassiveIcon => TextPassive
    case MoveIcon => Move
    case JumpIcon => Jump
    case AttackIcon => Attack
    case ChargeIcon => Charge
    case BlockIcon => Block
    case ConcentrationIcon => Concentration
    case ComboIcon => Combo
    case RefreshIcon => Refresh
    case UnknownIcon => WithText
  }

  lemma IconOwnerOfIcon(id: SymbolId)
    ensures IconOwner(Registry(id).iconKey) == id
  {
    match id
    case Wait =>
    case TextActive =>
    case TextPassive =>
    case WithText =>
    case Move =>
    case Jump =>
    case Attack =>
    case Charge =>
    case Block =>
    case Concentration =>
    case Combo =>
    case Refresh =>
  }
}
