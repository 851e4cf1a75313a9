# Daily nutrition accumulator of FittTrack-Backend

This project models the `/addNutrition` route of the FittTrack backend. It also models the `/getNutrition` read-back. The route keeps, per user, a list `dailyNutrition` of day entries. Each entry has a date, four running totals (`totalCalories`, `totalProteins`, `totalCarbs`, `totalFats`) and a list of category entries `{name, calories, proteins, carbs, fats}`. A request carries `(date, category, calories, proteins, carbs, fats)`. It finds the first day whose day key equals `date` and adds the four deltas to that day's totals. It then adds them to the category of that name, or appends a new category if there is none. If no day matches, it appends a new day whose totals are the deltas and which holds a single category.

Layout:

- `wrappers.dfy`, module `Wrappers`: the `Option` type, which stands for `find` returning "nothing" and for a user lookup returning `null`.
- `nutrition.dfy`, module `Nutrition`: the value model. `DayRecord` and `Category` are the values. `FindDay` and `FindCategory` are the two `find` calls. `AccumulateDay` and `Accumulate` are what one request does. The lemmas cover the two invariants and the accumulation of repeated requests.
- `users.dfy`, module `Users`: the in-place side. Class `Day` has the four mutable total fields and a `categories` sequence. Class `User` has a `dailyNutrition` sequence of `Day` objects. `User.AddNutrition` updates the matching `Day` object in place or pushes a fresh one. It is proved equal to `Accumulate` on the value of the history (`History()`). The route wrappers come after, then a worked example with two categories on one day.

A stored date is modelled by its day key, the string `toISOString().slice(0, 10)`. That string has the form `YYYY-MM-DD` and names a real Gregorian calendar day: the month is 01 to 12, and the day runs from 01 to the length of that month, with 29 February only in leap years (`Nutrition.IsDayKey`). Macro values are unbounded integers.

A request coalesces with a stored day only when its `date` is exactly that day's key (routes/users.js:138). A timestamp such as `2024-01-01T10:00` never matches and appends a separate day. `Nutrition.NonKeyNeverMatches` states this.

## Model

| member | source | states |
|---|---|---|
| `Nutrition.IndexOf` | routes/users.js:138 | the lookup gives the FIRST position whose key equals the one sought; it gives nothing exactly when no key is equal |
| `Nutrition.AccumulateDay` | routes/users.js:142-159 | the day key is kept and each of the four totals grows by exactly its delta. If a category with the name exists, that one entry's four values grow by the deltas, its name is kept, the number of categories is the same and every other category is unchanged. Otherwise exactly one `{name, deltas}` entry is appended at the end and the existing categories are unchanged |
| `Nutrition.Accumulate` | routes/users.js:138-170 | if a day with the key exists, only that day changes (as `AccumulateDay` says), every other day is untouched and the length is the same. Otherwise the old days stay as a prefix and exactly one day is appended whose totals are the deltas and whose categories are one entry carrying the deltas. The length grows by one exactly when the key was absent |
| `Nutrition.AccumulateDayKeepsBalance` | routes/users.js:142-158 | if a day's totals equal the sum of its categories, they still do after the request, in both the existing-category and the new-category branch |
| `Nutrition.AccumulateKeepsBalance` | routes/users.js:142-169 | "each day's four totals equal the sum of that macro over its categories" is preserved by every branch of a request |
| `Nutrition.AccumulateDayKeepsNamesDistinct` | routes/users.js:148-158 | category names stay pairwise distinct within the day the request updates |
| `Nutrition.AccumulateKeepsKeys` | routes/users.js:138-169 | given a well-formed day key, a request keeps every stored date a day key, the day keys pairwise distinct and the category names distinct within each day |
| `Nutrition.CalendarDaysAreKeys` | routes/users.js:138 | `2024-01-01` and the leap days `2024-02-29` and `2000-02-29` are day keys, as `toISOString().slice(0, 10)` produces them |
| `Nutrition.NonCalendarStringsAreNotKeys` | routes/users.js:138 | strings that `toISOString().slice(0, 10)` never produces are not day keys: `2023-02-29`, `1900-02-29`, `2024-02-30`, `2024-13-01`, `2024-04-31`, `2024-01-00`, and a timestamp with a time of day |
| `Nutrition.NonKeyNeverMatches` | routes/users.js:138 | when every stored key is a day key, an input that is not one (a timestamp) matches no day, and the request appends a new day |
| `Nutrition.RepeatedRequestsAccumulate` | routes/users.js:132-170 | starting from a history without the day, N requests for one (day, category) with deltas d1..dN append exactly one day. Its totals and its single category's values are d1 + ... + dN, so requests are additive and not idempotent |
| `Users.Day.constructor` | routes/users.js:162-169 | a pushed day has the request's key, totals equal to the deltas and a one-element category list `{name, deltas}` |
| `Users.Day.Add` | routes/users.js:142-159 | the four `+=` on the totals, then the category update or push, leave the day equal to `AccumulateDay` of its old value |
| `Users.User.constructor` | routes/users.js:47 | a newly created user document has an empty `dailyNutrition` list (the schema's default; the `db` module is not part of this model) |
| `Users.User.AddNutrition` | routes/users.js:138-170 | the history afterwards is `Accumulate` of the old one. In the existing-day branch the list holds the same day objects; otherwise exactly one fresh day object is appended. The balance and key-uniqueness invariants are kept |
| `Users.PostAddNutrition` | routes/users.js:132-177 | with no user, the result is "user not found" and nothing changes; with a user the result is success and the history is updated as `Accumulate` says |
| `Users.GetNutrition` | routes/users.js:179-187 | returns the stored history, unmodified and in insertion order, or "user not found" when there is no user |
| `Users.FruitThenGrains` | routes/users.js:132-170 | Fruit 100 kcal, Fruit 50 kcal, then Grains 200 kcal on one day give a single day with 350 kcal in total and two category entries, Fruit with 150 and Grains with 200 |

## Left out

- `Users.User.AddNutrition` requires `date` to be a day key, meaning a `YYYY-MM-DD` string for a real calendar day, and so does `Users.PostAddNutrition`. For any other input the source pushes `{date}` (routes/users.js:162-163) and lets the database cast it to a `Date`, and what happens next depends on the input. A time-stamped input such as `2024-01-01T10:00` is stored under the day key of the parsed instant, which depends on the server's time zone; that key can be the key of an existing day, and then the list holds two days with one key. Some inputs cannot be parsed, such as `2024-13-01`, and their cast fails, so `user.save()` (routes/users.js:172) rejects and nothing is stored. Some inputs are rolled over by the parser to another day, and the stored key is then not the input. The model covers none of these outcomes. The lookup for such an input is still modelled (`Nutrition.NonKeyNeverMatches`).
- `Nutrition.NonKeyNeverMatches`: its second clause is about the value model, where `Accumulate` keys the appended day by the raw input. The source keys that day by the cast `Date`, so the duplicate day key that the source can produce does not show in the model.
- Two `User` objects are not prevented from sharing a `Day` object. In the source each day subdocument belongs to exactly one user document. The model states nothing that involves more than one user, so it has no ownership invariant.
- HTTP plumbing is not modelled: routing, status codes, response bodies, logging, and the `userMiddleware` that resolves the user name. The user lookup `User.findOne` is a parameter (`User?`) of the route methods.
- Persistence (`user.save()`, routes/users.js:172) is not modelled. The model's state is the in-memory document.
- Concurrent requests for the same user, and their read-modify-write race, are not modelled. They are a matter of the store.
- JavaScript numbers are not modelled. Macro values are unbounded integers with no floating-point rounding. There are no type checks on the request body, so a string field there would concatenate under `+=`; that is not modelled either.
- Category entries are values in a sequence. The source adds to the found subdocument's fields in place; that is modelled as replacing that element with the updated record. No other reference to a category entry exists, so nothing observable is lost.
- Signup, login, profile and password change (routes/users.js:39-93, 190-204) are not modelled. They are thin wrappers around bcrypt, JWT and single database lookups. Login calls `bcrypt.compare` on the stored password before it checks that the user exists, so a missing user raises an exception rather than a 401.
- The request schemas and `validateUser` / `validateFood` (routes/users.js:12-38) are not modelled. They wrap a validation library.
- `/addFood` and `/foods` (routes/users.js:95-130) are not modelled. Name uniqueness and owned-or-global visibility are database queries.
