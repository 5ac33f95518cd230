/**
 * The unit catalog of the converter (the `units` table of script.js) and the
 * lookups made on it: `find` by identifier and the default selection that
 * `loadUnits` makes when a category is chosen.
 */
module Units {
  import opened Wrappers

  /** The eight categories the converter offers; the category buttons select one. */
  datatype Category = Length | Weight | Temperature | Volume | Area | Speed | Time | Currency

  /**
   * One entry of a category's unit list: a display name, the identifier used
   * as the option value, and the multiplicative factor to the category's base
   * unit, which temperature and currency units do not have.
   */
  datatype UnitDef = UnitDef(name: string, id: string, factor: Option<real>)

  function Linear(name: string, id: string, factor: real): UnitDef {
    UnitDef(name, id, Some(factor))
  }

  function Bare(name: string, id: string): UnitDef {
    UnitDef(name, id, None)
  }

  /** The categories whose conversion multiplies by a factor table. */
  predicate IsLinear(c: Category) {
    c != Temperature && c != Currency
  }

  /** The ordered unit list of each category, as the catalog lists it. */
  function UnitsOf(c: Category): seq<UnitDef> {
    match c
    case Length => [
      Linear("метр", "m", 1.0),
      Linear("километр", "km", 1000.0),
      Linear("сантиметр", "cm", 0.01),
      Linear("миллиметр", "mm", 0.001),
      Linear("миля", "mile", 1609.34),
      Linear("ярд", "yard", 0.9144),
      Linear("фут", "foot", 0.3048),
      Linear("дюйм", "inch", 0.0254)]
    case Weight => [
      Linear("килограмм", "kg", 1.0),
      Linear("грамм", "g", 0.001),
      Linear("фунт", "lb", 0.453592),
      Linear("унция", "oz", 0.0283495),
      Linear("тонна", "ton", 1000.0),
      Linear("карат", "carat", 0.0002)]
    case Temperature => [
      Bare("Цельсий", "c"),
      Bare("Фаренгейт", "f"),
      Bare("Кельвин", "k")]
    case Volume => [
      Linear("литр", "l", 1.0),
      Linear("миллилитр", "ml", 0.001),
      Linear("куб. метр", "m3", 1000.0),
      Linear("галлон", "gallon", 3.78541),
      Linear("пинта", "pint", 0.473176)]
    case Area => [
      Linear("кв. метр", "m2", 1.0),
      Linear("кв. километр", "km2", 1000000.0),
      Linear("гектар", "ha", 10000.0),
      Linear("акр", "acre", 4046.86),
      Linear("сотка", "sotka", 100.0)]
    case Speed => [
      Linear("метр/сек", "m/s", 1.0),
      Linear("километр/час", "km/h", 0.277778),
      Linear("миля/час", "mph", 0.44704),
      Linear("узел", "knot", 0.514444)]
    case Time => [
      Linear("секунда", "s", 1.0),
      Linear("минута", "min", 60.0),
      Linear("час", "h", 3600.0),
      Linear("день", "day", 86400.0),
      Linear("неделя", "week", 604800.0)]
    case Currency => [
      Bare("Рубль (RUB)", "RUB"),
      Bare("Доллар (USD)", "USD"),
      Bare("Евро (EUR)", "EUR"),
      Bare("Фунт (GBP)", "GBP"),
      Bare("Йена (JPY)", "JPY")]
  }

  /** No two units of one list share an identifier. */
  predicate DistinctIds(us: seq<UnitDef>) {
    forall i, j :: 0 <= i < j < |us| ==> us[i].id != us[j].id
  }

  /**
   * `Array.prototype.find` on a unit list: the first unit whose identifier
   * is `id`, or None when there is none.
   */
  function FindUnit(us: seq<UnitDef>, id: string): (r: Option<UnitDef>)
    ensures r.None? <==> forall i :: 0 <= i < |us| ==> us[i].id != id
    ensures r.Some? ==> exists k :: 0 <= k < |us| && us[k] == r.value && us[k].id == id
                          && forall i :: 0 <= i < k ==> us[i].id != id
  {
    if us == [] then None
    else if us[0].id == id then Some(us[0])
    else
      var r := FindUnit(us[1..], id);
      if r.Some? then
        var k :| 0 <= k < |us[1..]| && us[1..][k] == r.value && us[1..][k].id == id
                   && forall i :: 0 <= i < k ==> us[1..][i].id != id;
        assert us[k + 1] == r.value;
        r
      else r
  }

  /** Looking up the identifier of any listed unit of a list with distinct identifiers finds that unit. */
  lemma {:induction false} FindListedUnit(us: seq<UnitDef>, k: nat)
    requires k < |us| && DistinctIds(us)
    ensures FindUnit(us, us[k].id) == Some(us[k])
  {
  }

  /**
   * The selection `loadUnits` makes when a category is shown: the first unit
   * as source and the second as target when the list has more than one unit;
   * otherwise the selects are left as the browser fills them.
   */
  function DefaultSelection(c: Category): (r: Option<(string, string)>)
    ensures r.Some? <==> |UnitsOf(c)| > 1
    ensures r.Some? ==> r.value == (UnitsOf(c)[0].id, UnitsOf(c)[1].id)
  {
    var us := UnitsOf(c);
    if |us| > 1 then Some((us[0].id, us[1].id)) else None
  }

  /**
   * Catalog well-formedness: in every linear category every unit has a
   * positive factor and the first unit is the base unit (factor 1); in every
   * category the identifiers are distinct.
   */
  lemma CatalogWellFormed(c: Category)
    ensures DistinctIds(UnitsOf(c))
    ensures |UnitsOf(c)| >= 2
    ensures IsLinear(c) ==> UnitsOf(c)[0].factor == Some(1.0)
    ensures IsLinear(c) ==> forall i :: 0 <= i < |UnitsOf(c)| ==>
              UnitsOf(c)[i].factor.Some? && UnitsOf(c)[i].factor.value > 0.0
    ensures !IsLinear(c) ==> forall i :: 0 <= i < |UnitsOf(c)| ==> UnitsOf(c)[i].factor.None?
  {
  }

  /** Every category's default selection picks two different listed units. */
  lemma DefaultSelectionDistinct(c: Category)
    ensures DefaultSelection(c).Some?
    ensures DefaultSelection(c).value.0 != DefaultSelection(c).value.1
    ensures FindUnit(UnitsOf(c), DefaultSelection(c).value.0) == Some(UnitsOf(c)[0])
    ensures FindUnit(UnitsOf(c), DefaultSelection(c).value.1) == Some(UnitsOf(c)[1])
  {
  }
}
