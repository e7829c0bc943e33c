/**
 * The filter object GET /zones hands to the document store, built from the
 * `nameEN`, `type` and `update` query parameters.
 */
module QueryFilter {
  import opened Js

  /** The condition stored under one key of the filter object. */
  datatype Condition =
      /** `{ $regex: pattern }` */
    | Matches(pattern: string)
      /** the value itself: an exact match */
    | Equals(value: string)
      /**
       * What the range-query collaborator makes of the `update` parameter
       * (its JSON parse, or the raw text when parsing fails) for a `Date` field.
       */
    | DateRange(update: string)

  /** The keys the list handler can ever put in a filter. */
  const FilterKeys: set<string> := {"name.en", "type", "updateAt"}

  /**
   * The list handler's filter: start from `{}` and add one key per given parameter. Each
   * key is present exactly when its parameter is given, carries that
   * parameter's value, and there are no other keys.
   */
  method BuildFilter(nameEN: Option<string>, zoneType: Option<string>, update: Option<string>)
    returns (filter: map<string, Condition>)
    ensures filter.Keys <= FilterKeys
    ensures "name.en" in filter <==> Given(nameEN)
    ensures "name.en" in filter ==> filter["name.en"] == Matches(nameEN.value)
    ensures "type" in filter <==> Given(zoneType)
    ensures "type" in filter ==> filter["type"] == Equals(zoneType.value)
    ensures "updateAt" in filter <==> Given(update)
    ensures "updateAt" in filter ==> filter["updateAt"] == DateRange(update.value)
  {
    filter := map[];
    if Given(nameEN) {
      filter := filter["name.en" := Matches(nameEN.value)];
    }
    if Given(zoneType) {
      filter := filter["type" := Equals(zoneType.value)];
    }
    if Given(update) {
      filter := filter["updateAt" := DateRange(update.value)];
    }
  }
}
