/**
 * Asset classes, the class filter offered by the filter buttons, and the
 * badge colour of each class.
 */
module Assets {

  /**
   * An asset-class string as the trading SDK supplies it: one of the five
   * declared classes, or, since the strings reach the component through a
   * type cast, some other string, which `Unknown` carries.
   */
  datatype ClassValue = Crypto | Forex | Stocks | Indices | Commodities | Unknown(name: string)

  const DeclaredNames: set<string> := {"crypto", "forex", "stocks", "indices", "commodities"}

  /**
   * A class value in which each string has exactly one representation:
   * `Unknown` never spells one of the five declared names.
   */
  type AssetClass = c: ClassValue | c.Unknown? ==> c.name !in DeclaredNames witness Crypto

  /** The JavaScript string an asset class stands for. */
  function ClassName(c: AssetClass): (name: string)
    ensures name in DeclaredNames <==> !c.Unknown?
  {
    match c
    case Crypto => "crypto"
    case Forex => "forex"
    case Stocks => "stocks"
    case Indices => "indices"
    case Commodities => "commodities"
    case Unknown(n) => n
  }

  /**
   * Two asset classes are equal exactly when their strings are, so `==`
   * on asset classes is the source's `===` on class strings.
   */
  lemma ClassNameInjective(c: AssetClass, d: AssetClass)
    ensures c == d <==> ClassName(c) == ClassName(d)
  {
  }

  /** The filter buttons: `'all'` or one asset class. */
  datatype ClassFilter = All | Only(assetClass: AssetClass)

  /** The six filter buttons in display order. */
  const FilterButtons: seq<ClassFilter> :=
    [All, Only(Crypto), Only(Forex), Only(Stocks), Only(Indices), Only(Commodities)]

  const NeutralGray := "#6b7280"

  /** A CSS colour written as `#` and six lower-case hexadecimal digits. */
  predicate IsHexColor(s: string) {
    |s| == 7 && s[0] == '#' && forall i :: 1 <= i < 7 ==> s[i] in "0123456789abcdef"
  }

  /** `getAssetClassColor`: a fixed colour per declared class, neutral gray for anything else. */
  function AssetClassColor(c: AssetClass): (color: string)
    ensures IsHexColor(color)
    ensures color == NeutralGray <==> c.Unknown?
  {
    match c
    case Crypto => "#f59e0b"
    case Forex => "#3b82f6"
    case Stocks => "#10b981"
    case Indices => "#8b5cf6"
    case Commodities => "#ef4444"
    case Unknown(_) => NeutralGray
  }

  /** The five declared classes get five different colours. */
  lemma ColorsDistinct(c: AssetClass, d: AssetClass)
    requires !c.Unknown? && !d.Unknown? && c != d
    ensures AssetClassColor(c) != AssetClassColor(d)
  {
  }
}
