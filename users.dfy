/** The stateful side of the nutrition routes of routes/users.js: a user
    document whose `dailyNutrition` array holds day subdocuments, each updated
    in place with `+=` and `push`.  Every method is proved against the value
    model of module Nutrition. */
module Users {
  import opened Wrappers
  import opened Nutrition

  /** One element of `dailyNutrition`. `date` holds the stored date's day key. */
  class Day {
    var date: string
    var totalCalories: int
    var totalProteins: int
    var totalCarbs: int
    var totalFats: int
    var categories: seq<Category>

    /** The day's current value. */
    function View(): DayRecord
      reads this
    {
      DayRecord(date, Macros(totalCalories, totalProteins, totalCarbs, totalFats), categories)
    }

    /** The object pushed for a day that has no entry yet (routes/users.js:162-169). */
    constructor (date: string, category: string, d: Macros)
      ensures View() == NewDay(date, category, d)
    {
      this.date := date;
      totalCalories := d.calories;
      totalProteins := d.proteins;
      totalCarbs := d.carbs;
      totalFats := d.fats;
      categories := [CategoryOf(category, d)];
    }

    /** Adds a request's deltas to this day and to its category (routes/users.js:142-159). */
    method Add(category: string, d: Macros)
      modifies this
      ensures View() == AccumulateDay(old(View()), category, d)
    {
      totalCalories := totalCalories + d.calories;
      totalProteins := totalProteins + d.proteins;
      totalCarbs := totalCarbs + d.carbs;
      totalFats := totalFats + d.fats;
      match FindCategory(categories, category)
      case Some(k) =>
        categories := categories[k := categories[k].Add(d)];
      case None =>
        categories := categories + [CategoryOf(category, d)];
    }
  }

  class User {
    var dailyNutrition: seq<Day>

    /** Distinct elements of `dailyNutrition` are distinct subdocuments. */
    ghost predicate Valid()
      reads this
    {
      forall i, j :: 0 <= i < j < |dailyNutrition| ==> dailyNutrition[i] != dailyNutrition[j]
    }

    /** The current value of `dailyNutrition`, in stored order. */
    function History(): seq<DayRecord>
      reads this, dailyNutrition
    {
      seq(|dailyNutrition|, i reads this, dailyNutrition requires 0 <= i < |dailyNutrition| =>
        dailyNutrition[i].View())
    }

    /** A user with no nutrition history yet. */
    constructor ()
      ensures Valid() && History() == []
    {
      dailyNutrition := [];
    }

    /** One `/addNutrition` request for a user that exists (routes/users.js:138-170).
        An existing day is updated in place; otherwise a fresh day is pushed.
        The stored date of a pushed day has the input as its day key only when
        the input is one, hence the requirement on `date`. */
    method AddNutrition(date: string, category: string, d: Macros)
      requires Valid()
      requires IsDayKey(date)
      modifies this, dailyNutrition
      ensures Valid()
      ensures History() == Accumulate(old(History()), date, category, d)
      ensures old(FindDay(History(), date)).Some? ==> dailyNutrition == old(dailyNutrition)
      ensures old(FindDay(History(), date)).None? ==>
                |dailyNutrition| == |old(dailyNutrition)| + 1 &&
                dailyNutrition[..|old(dailyNutrition)|] == old(dailyNutrition) &&
                fresh(dailyNutrition[|old(dailyNutrition)|])
      ensures old(AllBalanced(History())) ==> AllBalanced(History())
      ensures old(WellKeyed(History())) ==> WellKeyed(History())
    {
      ghost var before := History();
      match FindDay(History(), date) {
      case Some(i) =>
        var day := dailyNutrition[i];
        day.Add(category, d);
        forall j | 0 <= j < |dailyNutrition| ensures History()[j] == Accumulate(before, date, category, d)[j] {
          if j != i { assert dailyNutrition[j] != day; }
        }
      case None =>
        var day := new Day(date, category, d);
        dailyNutrition := dailyNutrition + [day];
        forall j | 0 <= j < |dailyNutrition| ensures History()[j] == Accumulate(before, date, category, d)[j] {
          if j < |before| { assert Accumulate(before, date, category, d)[j] == before[j]; }
        }
      }
      assert History() == Accumulate(before, date, category, d);
      if AllBalanced(before) { AccumulateKeepsBalance(before, date, category, d); }
      if WellKeyed(before) { AccumulateKeepsKeys(before, date, category, d); }
    }
  }

  datatype Status = Ok | UserNotFound

  /** The `/addNutrition` route after the user lookup: no user means no change. */
  method PostAddNutrition(user: User?, date: string, category: string, d: Macros) returns (status: Status)
    requires user != null ==> user.Valid()
    requires IsDayKey(date)
    modifies user, if user == null then [] else user.dailyNutrition
    ensures status == if user == null then UserNotFound else Ok
    ensures user != null ==> user.Valid() && user.History() == Accumulate(old(user.History()), date, category, d)
  {
    if user == null {
      status := UserNotFound;
    } else {
      user.AddNutrition(date, category, d);
      status := Ok;
    }
  }

  /** The `/getNutrition` route after the user lookup (routes/users.js:179-187). */
  method GetNutrition(user: User?) returns (r: Option<seq<DayRecord>>)
    ensures user == null <==> r.None?
    ensures user != null ==> r.value == user.History() && |r.value| == |user.dailyNutrition|
  {
    if user == null {
      r := None;
    } else {
      r := Some(user.History());
    }
  }

  /** A worked example: two requests for "Fruit" on one day, then one for
      "Grains", leave one day holding both categories, whose totals add up. */
  method FruitThenGrains() returns (days: seq<DayRecord>)
    ensures |days| == 1 && days[0].date == "2024-01-01"
    ensures days[0].totals == Macros(350, 10, 77, 3)
    ensures days[0].categories == [Category("Fruit", 150, 3, 37, 1), Category("Grains", 200, 7, 40, 2)]
  {
    var date := "2024-01-01";
    assert IsDayKey(date);
    IndexOfAppended([], date);
    IndexOfAppended([], "Fruit");
    assert [] + [date] == [date] && [] + ["Fruit"] == ["Fruit"];
    var user := new User();
    user.AddNutrition(date, "Fruit", Macros(100, 2, 25, 1));
    assert Dates(user.History()) == [date];
    assert Names(user.History()[0].categories) == ["Fruit"];
    user.AddNutrition(date, "Fruit", Macros(50, 1, 12, 0));
    assert Dates(user.History()) == [date];
    assert Names(user.History()[0].categories) == ["Fruit"];
    user.AddNutrition(date, "Grains", Macros(200, 7, 40, 2));
    days := user.History();
  }
}
