/** The value model of a user's daily nutrition history, the list
    `dailyNutrition` that the `/addNutrition` route of routes/users.js updates.

    A history is a sequence of day records, each keyed by its calendar day
    (the `YYYY-MM-DD` string `toISOString().slice(0, 10)` of the stored date),
    holding running totals and a list of per-category totals.  `Accumulate`
    is what one request does to the history; the lemmas state the invariants
    it keeps and what repeated requests add up to. */
module Nutrition {
  import opened Wrappers

  /** The four macro values of one request (the deltas), or a total of them. */
  datatype Macros = Macros(calories: int, proteins: int, carbs: int, fats: int)
  {
    function Plus(d: Macros): Macros {
      Macros(calories + d.calories, proteins + d.proteins, carbs + d.carbs, fats + d.fats)
    }
  }

  const Zero := Macros(0, 0, 0, 0)

  /** One entry of a day's `categories` list. */
  datatype Category = Category(name: string, calories: int, proteins: int, carbs: int, fats: int)
  {
    function Amounts(): Macros {
      Macros(calories, proteins, carbs, fats)
    }

    /** The entry after `calories += d.calories` and so on for the other three. */
    function Add(d: Macros): Category {
      Category(name, calories + d.calories, proteins + d.proteins, carbs + d.carbs, fats + d.fats)
    }
  }

  /** The entry `{ name, calories, proteins, carbs, fats }` pushed for a new category. */
  function CategoryOf(name: string, d: Macros): Category {
    Category(name, d.calories, d.proteins, d.carbs, d.fats)
  }

  /** One element of `dailyNutrition`: its day key, its four running totals
      (`totalCalories`, `totalProteins`, `totalCarbs`, `totalFats`) and its categories. */
  datatype DayRecord = DayRecord(date: string, totals: Macros, categories: seq<Category>)

  /** The element pushed when no day matches: totals equal to the deltas and one category. */
  function NewDay(date: string, category: string, d: Macros): DayRecord {
    DayRecord(date, d, [CategoryOf(category, d)])
  }

  predicate IsDigit(c: char) {
    '0' <= c <= '9'
  }

  function DigitValue(c: char): int {
    c as int - '0' as int
  }

  /** Gregorian leap years, as the proleptic calendar of JavaScript dates has them. */
  predicate IsLeapYear(y: int) {
    y % 4 == 0 && (y % 100 != 0 || y % 400 == 0)
  }

  function DaysInMonth(y: int, m: int): int {
    if m == 2 then (if IsLeapYear(y) then 29 else 28)
    else if m == 4 || m == 6 || m == 9 || m == 11 then 30
    else 31
  }

  /** A day key as `toISOString().slice(0, 10)` produces it: `YYYY-MM-DD`
      naming a real calendar day, month 01 to 12 and day 01 to the length
      of that month. */
  predicate IsDayKey(s: string) {
    |s| == 10 && s[4] == '-' && s[7] == '-' &&
    (forall i :: 0 <= i < 10 && i != 4 && i != 7 ==> IsDigit(s[i])) &&
    var year := 1000 * DigitValue(s[0]) + 100 * DigitValue(s[1]) + 10 * DigitValue(s[2]) + DigitValue(s[3]);
    var month := 10 * DigitValue(s[5]) + DigitValue(s[6]);
    var day := 10 * DigitValue(s[8]) + DigitValue(s[9]);
    1 <= month <= 12 && 1 <= day <= DaysInMonth(year, month)
  }

  /** Calendar days are day keys, the leap day only in a leap year. */
  lemma CalendarDaysAreKeys()
    ensures IsDayKey("2024-01-01") && IsDayKey("2024-02-29") && IsDayKey("2000-02-29")
  {
  }

  /** Shapes that `toISOString` never produces are not day keys: no leap day
      outside a leap year, no thirteenth month, no 30 February, no day 00, and
      no time of day. */
  lemma NonCalendarStringsAreNotKeys()
    ensures !IsDayKey("2023-02-29") && !IsDayKey("1900-02-29") && !IsDayKey("2024-02-30")
    ensures !IsDayKey("2024-13-01") && !IsDayKey("2024-04-31") && !IsDayKey("2024-01-00")
    ensures !IsDayKey("2024-01-01T10:00")
  {
  }

  /** The position of the first key equal to `k`, as `Array.prototype.find` scans. */
  function IndexOf(keys: seq<string>, k: string): (r: Option<nat>)
    ensures r.Some? ==> r.value < |keys| && keys[r.value] == k
    ensures r.Some? ==> forall j :: 0 <= j < r.value ==> keys[j] != k
    ensures r.None? <==> k !in keys
  {
    if keys == [] then None
    else if keys[0] == k then Some(0)
    else match IndexOf(keys[1..], k)
      case Some(i) => Some(i + 1)
      case None => None
  }

  function Dates(h: seq<DayRecord>): seq<string> {
    seq(|h|, i requires 0 <= i < |h| => h[i].date)
  }

  function Names(cats: seq<Category>): seq<string> {
    seq(|cats|, i requires 0 <= i < |cats| => cats[i].name)
  }

  /** The day entry a request with key `date` updates (routes/users.js:138). */
  function FindDay(h: seq<DayRecord>, date: string): Option<nat> {
    IndexOf(Dates(h), date)
  }

  /** The category entry a request for `name` updates (routes/users.js:148). */
  function FindCategory(cats: seq<Category>, name: string): Option<nat> {
    IndexOf(Names(cats), name)
  }

  /** What one request does to the day it found (routes/users.js:142-159). */
  function AccumulateDay(day: DayRecord, category: string, d: Macros): (r: DayRecord)
    ensures r.date == day.date
    ensures r.totals == day.totals.Plus(d)
    ensures match FindCategory(day.categories, category)
      case Some(k) =>
        |r.categories| == |day.categories| &&
        r.categories[k].name == category &&
        r.categories[k].Amounts() == day.categories[k].Amounts().Plus(d) &&
        forall j :: 0 <= j < |r.categories| && j != k ==> r.categories[j] == day.categories[j]
      case None =>
        |r.categories| == |day.categories| + 1 &&
        r.categories[..|day.categories|] == day.categories &&
        r.categories[|day.categories|] == CategoryOf(category, d)
  {
    var cats := day.categories;
    DayRecord(day.date, day.totals.Plus(d),
      match FindCategory(cats, category)
      case Some(k) => cats[k := cats[k].Add(d)]
      case None => cats + [CategoryOf(category, d)])
  }

  /** What one request does to the whole history (routes/users.js:138-170). */
  function Accumulate(h: seq<DayRecord>, date: string, category: string, d: Macros): (r: seq<DayRecord>)
    ensures match FindDay(h, date)
      case Some(i) =>
        |r| == |h| &&
        r[i] == AccumulateDay(h[i], category, d) &&
        forall j :: 0 <= j < |h| && j != i ==> r[j] == h[j]
      case None =>
        |r| == |h| + 1 &&
        r[..|h|] == h &&
        r[|h|] == NewDay(date, category, d)
    ensures |r| == |h| + (if date in Dates(h) then 0 else 1)
  {
    match FindDay(h, date)
    case Some(i) => h[i := AccumulateDay(h[i], category, d)]
    case None => h + [NewDay(date, category, d)]
  }

  // ---------------------------------------------------------------------
  // Totals equal the sum over the categories

  /** The sum of the four macro values over a list of categories. */
  function Sum(cats: seq<Category>): Macros {
    if cats == [] then Zero else Sum(cats[..|cats| - 1]).Plus(cats[|cats| - 1].Amounts())
  }

  predicate Balanced(day: DayRecord) {
    day.totals == Sum(day.categories)
  }

  /** Each day's four totals equal the sums of that macro over its categories. */
  predicate AllBalanced(h: seq<DayRecord>) {
    forall i :: 0 <= i < |h| ==> Balanced(h[i])
  }

  lemma SumAppend(cats: seq<Category>, c: Category)
    ensures Sum(cats + [c]) == Sum(cats).Plus(c.Amounts())
  {
  }

  lemma {:induction false} SumUpdate(cats: seq<Category>, k: nat, d: Macros)
    requires k < |cats|
    ensures Sum(cats[k := cats[k].Add(d)]) == Sum(cats).Plus(d)
  {
    var n := |cats| - 1;
    var u := cats[k := cats[k].Add(d)];
    if k == n {
      assert u[..n] == cats[..n];
    } else {
      assert u[..n] == cats[..n][k := cats[k].Add(d)];
      SumUpdate(cats[..n], k, d);
    }
  }

  lemma {:induction false} AccumulateDayKeepsBalance(day: DayRecord, category: string, d: Macros)
    requires Balanced(day)
    ensures Balanced(AccumulateDay(day, category, d))
  {
    match FindCategory(day.categories, category)
    case Some(k) => SumUpdate(day.categories, k, d);
    case None => SumAppend(day.categories, CategoryOf(category, d));
  }

  /** Every branch of a request keeps each day's totals equal to the sums over its categories. */
  lemma {:induction false} AccumulateKeepsBalance(h: seq<DayRecord>, date: string, category: string, d: Macros)
    requires AllBalanced(h)
    ensures AllBalanced(Accumulate(h, date, category, d))
  {
    var r := Accumulate(h, date, category, d);
    match FindDay(h, date)
    case Some(i) =>
      AccumulateDayKeepsBalance(h[i], category, d);
      assert forall j :: 0 <= j < |r| ==> Balanced(r[j]) by {
        forall j | 0 <= j < |r| ensures Balanced(r[j]) {
          if j != i { assert r[j] == h[j]; }
        }
      }
    case None =>
      SumAppend([], CategoryOf(category, d));
      assert [] + [CategoryOf(category, d)] == [CategoryOf(category, d)];
      assert Balanced(r[|h|]);
      assert forall j :: 0 <= j < |h| ==> r[j] == h[j] by {
        forall j | 0 <= j < |h| ensures r[j] == h[j] {
          assert r[j] == r[..|h|][j];
        }
      }
  }

  // ---------------------------------------------------------------------
  // Day keys and category names are unique

  predicate Distinct(keys: seq<string>) {
    forall i, j :: 0 <= i < j < |keys| ==> keys[i] != keys[j]
  }

  /** Every stored date is a day key, no two days share a key, and no two
      categories of one day share a name. */
  predicate WellKeyed(h: seq<DayRecord>) {
    (forall i :: 0 <= i < |h| ==> IsDayKey(h[i].date)) &&
    Distinct(Dates(h)) &&
    forall i :: 0 <= i < |h| ==> Distinct(Names(h[i].categories))
  }

  lemma DistinctAppend(keys: seq<string>, k: string)
    requires Distinct(keys) && k !in keys
    ensures Distinct(keys + [k])
  {
  }

  lemma {:induction false} AccumulateDayKeepsNamesDistinct(day: DayRecord, category: string, d: Macros)
    requires Distinct(Names(day.categories))
    ensures Distinct(Names(AccumulateDay(day, category, d).categories))
  {
    var cats := day.categories;
    var r := AccumulateDay(day, category, d);
    match FindCategory(cats, category)
    case Some(k) =>
      assert Names(r.categories) == Names(cats);
    case None =>
      DistinctAppend(Names(cats), category);
      assert Names(r.categories) == Names(cats) + [category];
  }

  /** Given a well-formed day key, every branch of a request keeps day keys
      unique and category names unique within each day. */
  lemma {:induction false} AccumulateKeepsKeys(h: seq<DayRecord>, date: string, category: string, d: Macros)
    requires WellKeyed(h) && IsDayKey(date)
    ensures WellKeyed(Accumulate(h, date, category, d))
  {
    var r := Accumulate(h, date, category, d);
    match FindDay(h, date)
    case Some(i) =>
      AccumulateDayKeepsNamesDistinct(h[i], category, d);
      assert Dates(r) == Dates(h);
      forall j | 0 <= j < |r| ensures IsDayKey(r[j].date) && Distinct(Names(r[j].categories)) {
        if j != i { assert r[j] == h[j]; }
      }
    case None =>
      assert Dates(r) == Dates(h) + [date];
      DistinctAppend(Dates(h), date);
      forall j | 0 <= j < |r| ensures IsDayKey(r[j].date) && Distinct(Names(r[j].categories)) {
        if j < |h| { assert r[j] == r[..|h|][j] == h[j]; }
      }
  }

  /** The day lookup compares the raw input with the stored day keys, so an
      input that is not itself a day key (a timestamp such as
      `2024-01-01T10:00`) matches no stored day, and a request with it appends
      a new day even when a day of the same calendar date exists.  In this
      value model the appended day is keyed by the raw input; the source
      stores the cast `Date` instead, whose day key can be that of an existing
      day, so there the request leaves two days with one key. */
  lemma NonKeyNeverMatches(h: seq<DayRecord>, date: string, category: string, d: Macros)
    requires forall i :: 0 <= i < |h| ==> IsDayKey(h[i].date)
    requires !IsDayKey(date)
    ensures FindDay(h, date) == None
    ensures Accumulate(h, date, category, d) == h + [NewDay(date, category, d)]
  {
  }

  // ---------------------------------------------------------------------
  // Repeated requests accumulate

  /** The history after one request per delta in `ds`, in order, all for the same day and category. */
  function AccumulateAll(h: seq<DayRecord>, date: string, category: string, ds: seq<Macros>): seq<DayRecord>
    decreases |ds|
  {
    if ds == [] then h
    else Accumulate(AccumulateAll(h, date, category, ds[..|ds| - 1]), date, category, ds[|ds| - 1])
  }

  function Total(ds: seq<Macros>): Macros {
    if ds == [] then Zero else Total(ds[..|ds| - 1]).Plus(ds[|ds| - 1])
  }

  lemma IndexOfAppended(keys: seq<string>, k: string)
    requires k !in keys
    ensures IndexOf(keys + [k], k) == Some(|keys|)
  {
  }

  /** Requests are additive, not idempotent: starting from a history without
      the day, N requests for one (day, category) with deltas d1..dN leave one
      new day at the end whose totals, and whose single category's values,
      are d1 + ... + dN. */
  lemma {:induction false} RepeatedRequestsAccumulate(h: seq<DayRecord>, date: string, category: string, ds: seq<Macros>)
    requires FindDay(h, date) == None
    requires ds != []
    ensures AccumulateAll(h, date, category, ds) ==
            h + [DayRecord(date, Total(ds), [CategoryOf(category, Total(ds))])]
  {
    var n := |ds| - 1;
    if n == 0 {
      assert ds[..0] == [];
      assert Total(ds) == ds[0];
    } else {
      RepeatedRequestsAccumulate(h, date, category, ds[..n]);
      var t := Total(ds[..n]);
      var day := DayRecord(date, t, [CategoryOf(category, t)]);
      var prev := h + [day];
      assert Dates(prev) == Dates(h) + [date];
      IndexOfAppended(Dates(h), date);
      assert FindDay(prev, date) == Some(|h|);
      assert Names(day.categories) == [] + [category];
      IndexOfAppended([], category);
      assert FindCategory(day.categories, category) == Some(0);
      assert AccumulateAll(h, date, category, ds) == Accumulate(prev, date, category, ds[n]);
      var day' := AccumulateDay(day, category, ds[n]);
      assert Accumulate(prev, date, category, ds[n]) == prev[|h| := day'];
      assert day'.categories == [CategoryOf(category, t).Add(ds[n])];
      assert Total(ds) == t.Plus(ds[n]);
      assert day' == DayRecord(date, Total(ds), [CategoryOf(category, Total(ds))]);
      assert prev[|h| := day'] == h + [day'];
    }
  }
}
