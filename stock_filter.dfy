/** The filter panel: four drop-downs whose chosen values form a criteria
    record, kept as component state and reported to the parent on every
    change. The panel only collects the values; it does not apply them. */
module StockFilter {

  /** The four criteria the panel edits. */
  datatype FilterKey = Sector | PriceRange | MarketCapRange | ChangeRange

  datatype Criteria = Criteria(
    sector: string, priceRange: string, marketCapRange: string, changeRange: string)

  /** The initial `filters` state: every criterion empty ("All ..."). */
  const InitialCriteria: Criteria := Criteria("", "", "", "")

  function Get(c: Criteria, key: FilterKey): string
  {
    match key
    case Sector => c.sector
    case PriceRange => c.priceRange
    case MarketCapRange => c.marketCapRange
    case ChangeRange => c.changeRange
  }

  /** `{ ...filters, [key]: value }`: `key` takes `value`, every other
      criterion keeps its value. */
  function Set(c: Criteria, key: FilterKey, value: string): (r: Criteria)
    ensures Get(r, key) == value
    ensures forall k :: k != key ==> Get(r, k) == Get(c, k)
  {
    match key
    case Sector => c.(sector := value)
    case PriceRange => c.(priceRange := value)
    case MarketCapRange => c.(marketCapRange := value)
    case ChangeRange => c.(changeRange := value)
  }

  /** Two records that agree on every key are the same record. */
  lemma Extensional(a: Criteria, b: Criteria)
    requires forall k :: Get(a, k) == Get(b, k)
    ensures a == b
  {
    assert Get(a, Sector) == Get(b, Sector);
    assert Get(a, PriceRange) == Get(b, PriceRange);
    assert Get(a, MarketCapRange) == Get(b, MarketCapRange);
    assert Get(a, ChangeRange) == Get(b, ChangeRange);
  }

  /** Choosing the same value twice is choosing it once. */
  lemma SetIdempotent(c: Criteria, key: FilterKey, value: string)
    ensures Set(Set(c, key, value), key, value) == Set(c, key, value)
  {
    Extensional(Set(Set(c, key, value), key, value), Set(c, key, value));
  }

  /** Re-choosing the current value changes nothing. */
  lemma SetCurrentValue(c: Criteria, key: FilterKey)
    ensures Set(c, key, Get(c, key)) == c
  {
    Extensional(Set(c, key, Get(c, key)), c);
  }

  /** Changes to two different drop-downs do not interfere. */
  lemma SetCommutes(c: Criteria, k1: FilterKey, v1: string, k2: FilterKey, v2: string)
    requires k1 != k2
    ensures Set(Set(c, k1, v1), k2, v2) == Set(Set(c, k2, v2), k1, v1)
  {
    Extensional(Set(Set(c, k1, v1), k2, v2), Set(Set(c, k2, v2), k1, v1));
  }

  // ---------------------------------------------------------------------
  // The menus

  const PriceRangeOptions: seq<string> := ["", "0-50", "50-100", "100-500", "500+"]
  const MarketCapOptions: seq<string> := ["", "small", "mid", "large"]
  const ChangeOptions: seq<string> := ["", "positive", "negative"]

  /** The values a drop-down offers; the sector menu is "" ("All Sectors")
      followed by the given sectors in order. */
  function Options(key: FilterKey, sectors: seq<string>): (r: seq<string>)
    ensures |r| > 0 && r[0] == ""
    ensures key == Sector ==> r[1..] == sectors
  {
    match key
    case Sector => [""] + sectors
    case PriceRange => PriceRangeOptions
    case MarketCapRange => MarketCapOptions
    case ChangeRange => ChangeOptions
  }

  /** Every criterion holds a value its menu offers. */
  predicate Allowed(c: Criteria, sectors: seq<string>)
  {
    Get(c, Sector) in Options(Sector, sectors) &&
    Get(c, PriceRange) in Options(PriceRange, sectors) &&
    Get(c, MarketCapRange) in Options(MarketCapRange, sectors) &&
    Get(c, ChangeRange) in Options(ChangeRange, sectors)
  }

  /** The initial record is allowed whatever the sectors. */
  lemma InitialAllowed(sectors: seq<string>)
    ensures Allowed(InitialCriteria, sectors)
  {
    assert Options(Sector, sectors)[0] == "";
  }

  /** Choosing a menu value keeps every criterion allowed. */
  lemma SetKeepsAllowed(c: Criteria, sectors: seq<string>, key: FilterKey, value: string)
    requires Allowed(c, sectors) && value in Options(key, sectors)
    ensures Allowed(Set(c, key, value), sectors)
  {
  }

  // ---------------------------------------------------------------------
  // The component

  /** The component instance: its `filters` state, the `sectors` it was
      given, and the records it has handed to `onFilterChange`, oldest first. */
  class FilterPanel {
    const sectors: seq<string>
    var filters: Criteria
    var reported: seq<Criteria>

    /** The state holds a value from each menu. */
    ghost predicate Valid()
      reads this
    {
      Allowed(filters, sectors)
    }

    constructor (sectors: seq<string>)
      ensures this.sectors == sectors
      ensures filters == InitialCriteria && reported == []
      ensures Valid()
    {
      this.sectors := sectors;
      filters := InitialCriteria;
      reported := [];
      new;
      InitialAllowed(sectors);
    }

    /** handleFilterChange: replace one criterion, store the new record and
      report exactly that record. */
    method HandleFilterChange(key: FilterKey, value: string)
      modifies this
      ensures filters == Set(old(filters), key, value)
      ensures reported == old(reported) + [filters]
      ensures old(Valid()) && value in Options(key, sectors) ==> Valid()
    {
      var newFilters := Set(filters, key, value);
      if Allowed(filters, sectors) && value in Options(key, sectors) {
        SetKeepsAllowed(filters, sectors, key, value);
      }
      filters := newFilters;
      reported := reported + [newFilters];
    }
  }

  /** Two changes to the same drop-down with the same value leave the state
      as one change does, and both reports carry that state. */
  method RepeatedChange(panel: FilterPanel, key: FilterKey, value: string)
    modifies panel
    ensures panel.filters == Set(old(panel.filters), key, value)
    ensures panel.reported == old(panel.reported) + [panel.filters, panel.filters]
  {
    panel.HandleFilterChange(key, value);
    panel.HandleFilterChange(key, value);
    SetIdempotent(old(panel.filters), key, value);
  }
}
