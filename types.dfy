/** The shared entities of the app: point categories, user preferences and coordinates. */
module Types {

  /** RadarPointCategory, plus the catch-all that the filters' `default` branches handle.
      `Uncategorized` stands only for names outside the five known ones (see `CategoryOf`). */
  datatype Category = Food | History | Event | Kids | Nature | Uncategorized(name: string)

  /** The names RadarPointCategory lists. */
  const KnownCategoryNames: set<string> := {"food", "history", "event", "kids", "nature"}

  /** A category as the code meets it: the five known names, or any other string. */
  predicate WellFormedCategory(c: Category) {
    c.Uncategorized? ==> c.name !in KnownCategoryNames
  }

  /** The category a name denotes; only unknown names become `Uncategorized`. */
  function CategoryOf(name: string): (c: Category)
    ensures WellFormedCategory(c)
    ensures c.Uncategorized? <==> name !in KnownCategoryNames
    ensures c.Uncategorized? ==> c.name == name
  {
    if name == "food" then Food
    else if name == "history" then History
    else if name == "event" then Event
    else if name == "kids" then Kids
    else if name == "nature" then Nature
    else Uncategorized(name)
  }

  /** UserPreferences with the four flags the components read (`includeWeekendEvents`). */
  datatype Preferences = Preferences(gastro: bool, history: bool, kids: bool, includeWeekendEvents: bool)

  /** `keyof UserPreferences`. */
  datatype PrefKey = GastroKey | HistoryKey | KidsKey | WeekendEventsKey

  /** `preferences[key]`. */
  function Flag(p: Preferences, k: PrefKey): bool {
    match k
    case GastroKey => p.gastro
    case HistoryKey => p.history
    case KidsKey => p.kids
    case WeekendEventsKey => p.includeWeekendEvents
  }

  /** `{ ...p, [key]: v }`: flag `k` becomes `v`, the other three keep their values. */
  function WithFlag(p: Preferences, k: PrefKey, v: bool): (r: Preferences)
    ensures Flag(r, k) == v
    ensures forall k' :: k' != k ==> Flag(r, k') == Flag(p, k')
  {
    match k
    case GastroKey => p.(gastro := v)
    case HistoryKey => p.(history := v)
    case KidsKey => p.(kids := v)
    case WeekendEventsKey => p.(includeWeekendEvents := v)
  }

  /** Two preference records are equal exactly when they agree on every key. */
  lemma FlagsDetermine(p: Preferences, q: Preferences)
    requires forall k :: Flag(p, k) == Flag(q, k)
    ensures p == q
  {
    assert Flag(p, GastroKey) == Flag(q, GastroKey);
    assert Flag(p, HistoryKey) == Flag(q, HistoryKey);
    assert Flag(p, KidsKey) == Flag(q, KidsKey);
    assert Flag(p, WeekendEventsKey) == Flag(q, WeekendEventsKey);
  }

  datatype Coordinates = Coordinates(lat: real, lng: real)

  /** RadarPoint without its content payload and timestamp. */
  datatype RadarPoint = RadarPoint(
    id: string, tripId: string, name: string, description: string,
    category: Category, coords: Coordinates)

  /** The members every plain object inherits from `Object.prototype`; all are truthy, so an
      object used as a lookup table finds them under these keys. */
  const ObjectPrototypeNames: set<string> := {
    "constructor", "hasOwnProperty", "isPrototypeOf", "propertyIsEnumerable", "toLocaleString",
    "toString", "valueOf", "__proto__", "__defineGetter__", "__defineSetter__",
    "__lookupGetter__", "__lookupSetter__"
  }
}
