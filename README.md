# BaZi chart engine in Dafny

A verified model of the chart-derivation engine in `backend/server.js`. Given
a birth date and hour, the engine builds the Four Pillars:
- the year, month and day pillars come from a lunar-calendar conversion;
- the hour pillar is derived from the day stem and the birth hour.

It labels every pillar's stem, and every stem hidden in each pillar's branch,
with one of the Ten Gods. Each label describes how that stem relates to the
Day Master, the day pillar's stem. Finally it tallies the elements of the four
stems, lists the elements that do not occur, and picks a favourable element.

Modules:

- `Wrappers` holds `Option` and `Result`.
- `Tables` (`tables.dfy`) holds the fixed data:
  - the ten Heavenly Stems and twelve Earthly Branches, as datatypes with their
    characters;
  - `stemInfo` (element and yin flag);
  - `branchHiddenStems`;
  - the four element maps `outputs`, `resources`, `wealth` and `officer`, each
    shown to be a fixed step along the production cycle wood → fire → earth →
    metal → water;
  - JavaScript's `indexOf` and one-character string indexing.
- `TenGods` (`ten_gods.dfy`) holds `calculateTenGod`, its five-rule chain, and
  `calculateBranchTenGods`. The five-rule chain is proved equal to an
  independent reference classification: the number of cycle steps between the
  two elements, plus whether the two yin flags match. That reference has an
  inverse, so the classification is a bijection for each Day Master.
- `HourPillar` (`hour_pillar.dfy`) holds the double-hour slot and hour-stem
  arithmetic, and the sixty-pair sexagenary cycle the hour pillar belongs to.
- `FiveElements` (`five_elements.dfy`) holds:
  - `getStemElementChar` and `findFavorableElement`, as functions;
  - `countFiveElements` and `findMissingElements`, as methods whose loops
    update the counts dictionary (a `map`) and the missing list.
- `Bazi` (`bazi.dfy`) holds `calculateBazi`. It is a method that takes the
  lunar-calendar conversion as a function parameter and returns either a chart
  or one of the three errors the source throws. The `shishenDetail` loop is
  also a method.

`calculateTenGod` gives 正财, 正印 and 正官 for *matching* yin flags
(`backend/server.js:100`, `:105`, `:110`), the reverse of the usual
convention. The model keeps the source's branches, so `MatchingPolarity` holds
for 比肩, 食神, 正财, 正印 and 正官. The labels use the characters the source
returns (劫财, 伤官, 正财, 七杀, ...).

## Model

| member | source | states |
|---|---|---|
| Tables.StemIndex | backend/server.js:12 | each stem's position in `TIANGAN` is below 10, and `StemAt` at that position gives the stem back |
| Tables.StemCharRoundTrip | backend/server.js:12 | looking up the character of any stem in `stemInfo` finds that stem |
| Tables.BranchCharRoundTrip | backend/server.js:14 | looking up the character of any branch in `branchHiddenStems` finds that branch |
| Tables.StemOf | backend/server.js:33-44 | the `stemInfo[key]` lookup: a key that finds a stem is exactly that stem's character |
| Tables.BranchOf | backend/server.js:17-30 | the `branchHiddenStems[key]` lookup: a key that finds a branch is exactly that branch's character |
| Tables.StemInfoByIndex | backend/server.js:33-44 | `stemInfo` is regular: the stem at position 2k+p has the k-th element of the production cycle and is yin exactly when p = 1 |
| Tables.ElementOf | backend/server.js:34-43 | the `element` field of `stemInfo`: the stem at position i of `TIANGAN` has the element at place i / 2 of the production cycle |
| Tables.IsYin | backend/server.js:34-43 | the `yin` field of `stemInfo`: a stem is yin exactly when its position in `TIANGAN` is odd |
| Tables.ElementName | backend/server.js:174-183 | `toCN` names each element by one character, read off 木火土金水 at the element's place on the production cycle; its default case cannot arise for an element |
| Tables.StemDeterminedByInfo | backend/server.js:33-44 | two stems with the same element and the same yin flag are the same stem |
| Tables.StemWith | backend/server.js:33-44 | every element and yin flag belong to some stem |
| Tables.HiddenStems | backend/server.js:17-30 | every branch hides one to three distinct stems; the main hidden stem of each branch other than 子, 巳, 午 and 亥 has the branch's own parity |
| Tables.Outputs | backend/server.js:47-53 | `outputs` moves one step forward along the production cycle |
| Tables.Resources | backend/server.js:54-60 | `resources` inverts `outputs`: it moves four steps forward, i.e. one step back |
| Tables.Wealth | backend/server.js:61-67 | `wealth` moves two steps forward along the cycle |
| Tables.Officer | backend/server.js:68-74 | `officer` inverts `wealth`: it moves three steps forward |
| Tables.ElementNamed | backend/server.js:174-183 | the inverse of `toCN`: a key names at most one element, and a key that names none is no element's name |
| Tables.IndexOf | backend/server.js:220 | `Array.prototype.indexOf`: -1 exactly when the key is absent; otherwise the first position holding the key |
| Tables.CharAt | backend/server.js:144 | `s[i]` as a table key: one character when i is inside the string, that string's i-th character |
| Tables.IndexOfTiangan | backend/server.js:219-223 | `TIANGAN.indexOf(key)` is -1 exactly for keys that `stemInfo` does not know; otherwise it is the position of the stem the key names |
| TenGods.RelationByStep | backend/server.js:47-74 | the same element and the four maps are the cycle steps 0, 1, 2, 3 and 4, each in both directions, so they partition all 25 element pairs |
| TenGods.Classify | backend/server.js:84-113 | the five rules on two known stems, in source order, with matching yin flags giving the first label of each pair; some rule always fires, so the final `return ''` is never reached |
| TenGods.ClassifyByCycle | backend/server.js:88-113 | for two known stems exactly one of the five rules fires, and its label is the reference label chosen by cycle step and polarity match; the final `return ''` is unreachable |
| TenGods.PolarityDecidesLabel | backend/server.js:88-111 | the label is one of the matching-polarity labels exactly when the yin flags match, and its step is the cycle step between the elements |
| TenGods.StemFor | backend/server.js:83-114 | for each Day Master and each of the ten labels there is a stem receiving that label |
| TenGods.TenGodRoundTrip | backend/server.js:83-114 | the stem given by a stem's label is that stem, so each Day Master gives the ten stems ten distinct labels |
| TenGods.CalculateTenGod | backend/server.js:83-114 | `calculateTenGod` returns '' exactly when either key is not a stem; otherwise it returns the reference label, which is never '' |
| TenGods.BiJianIffSameStem | backend/server.js:89-90 | the result is '比肩' exactly when the day key is a stem and the other key is the same stem |
| TenGods.CalculateBranchTenGods | backend/server.js:118-122 | `calculateBranchTenGods` gives [] for a key that is not a branch; otherwise one entry per hidden stem, in order. The entries are all '' for an unknown day stem, and otherwise the hidden stem's reference label |
| TenGods.BranchLabelsDistinct | backend/server.js:118-122 | no two hidden stems of one branch get the same label |
| HourPillar.HourSlot | backend/server.js:218 | the slot is below 12; hours 23 and 0 (mod 24) and no others give slot 0 (子); otherwise hours 2k-1 and 2k give slot k |
| HourPillar.HourStemIndex | backend/server.js:224 | the hour-stem index is below 10 and has the slot's parity |
| HourPillar.HourStemByGroup | backend/server.js:224 | the hour stem depends on the day stem only through its index mod 5 |
| HourPillar.SexagenaryParity | backend/server.js:224-226 | a stem and a branch occur together in the sixty-pair cycle exactly when their indices have the same parity |
| HourPillar.HourPillarPosition | backend/server.js:224-226 | the twelve hour pillars of a day are the cycle positions 12 × (day stem index mod 5) + slot |
| HourPillar.HourPillarOf | backend/server.js:218-226 | the hour pillar is a sexagenary pair, and its branch is `DIZHI[shichen]` |
| FiveElements.GetStemElementChar | backend/server.js:126-135 | `getStemElementChar`'s own table agrees with the `stemInfo` element of every stem, and gives '' for any other key |
| FiveElements.CountsAddUp | backend/server.js:139-151 | the five counts add up to the number of pillars whose first character is a stem |
| FiveElements.SomeElementMissing | backend/server.js:139-151 | fewer than five pillars always leave some element with no count |
| FiveElements.CountFiveElements | backend/server.js:139-151 | `countFiveElements` gives exactly the five keys, each counting the pillars whose first character is a stem of that element |
| FiveElements.ZeroKeysMembers | backend/server.js:155-163 | a key is listed exactly when it is one of the keys and its count is zero |
| FiveElements.ZeroKeysPositions | backend/server.js:155-163 | the listed keys appear at strictly increasing positions of the key list |
| FiveElements.FindMissingElements | backend/server.js:155-163 | `findMissingElements` lists exactly the keys whose count is zero, each once, in the key order 木, 火, 土, 金, 水 |
| FiveElements.Get | backend/server.js:188-189 | `counts[key]` defaulting to 0: the key's count when the key is present, and 0 exactly when the key is absent or its count is 0 |
| FiveElements.FindFavorableElement | backend/server.js:167-196 | `findFavorableElement` gives '' exactly for a day key that is not a stem. Otherwise it names an element other than the Day Master's own: when the Day Master's element and its resource count at least 2 together, the element that controls the Day Master; otherwise the element that produces it |
| Bazi.Message | backend/server.js:207-222 | the message each error is thrown with: the two fixed messages are six characters long, and the unknown-day-stem message ends with the offending key after its seven-character prefix |
| Bazi.CalculateBazi | backend/server.js:200-277 | `calculateBazi` fails with each of its three errors exactly under its condition, checked in source order (no lunar result; a missing or empty sexagenary field; a day key that is not a stem, carried in the error). On success the pillars are the three lunar ones plus a sexagenary hour pillar derived from the day stem and hour; every stem and hidden stem is labelled against the Day Master; the element analysis is that of the four pillars |
| Bazi.AssembleChart | backend/server.js:228-264 | the pillars in key order, their stem and hidden-stem labels with the day stem as '日主', the per-pillar detail, and the counts, missing list and favourable element computed from the pillars |
| Bazi.CombineDetail | backend/server.js:253-259 | `shishenDetail` pairs each pillar's stem label with its hidden-stem labels, in pillar-key order |
| Bazi.ChartLabels | backend/server.js:237-249 | in a successful chart the day pillar's stem is labelled '日主', the hour stem gets a non-empty label, and the hour branch gets one label per hidden stem |
| Bazi.ChartElements | backend/server.js:261-263 | in a successful chart the four stems tally between 2 and 4 (exactly 4 when the year and month pillars start with stems), and the missing-element list is never empty |

## Left out

- `LunarCalendar.solarToLunar` (backend/server.js:206) is a parameter. It is a function that may give no result, and any result carries three optional sexagenary strings. The lunar calendar itself is not modelled, and neither are the other fields of the lunar object, which the source passes through to the response.
- Parsing of the birth date and time with `split` and `Number` (backend/server.js:202-203) is not modelled. Year, month and day are integers, and the hour is a natural number.
- HourPillar.HourSlot: negative hours are excluded. Most of them make JavaScript index `DIZHI` with a negative slot.
- The Express application, CORS, the `/api/bazi` route, its JSON error body and `app.listen` (backend/server.js:1-7, 279-297) are I/O plumbing. Error messages are available only through `Bazi.Message`.
- The response object (backend/server.js:267-276) is not modelled: its `success` flag, the `lunar` passthrough and the JSON key names. `Bazi.Chart` holds the pillars and per-pillar lists in the key order 年柱, 月柱, 日柱, 時柱.
- FiveElements.FindMissingElements: the model requires a dictionary with exactly the five element keys, the only kind `calculateBazi` passes it. For arbitrary dictionaries, JavaScript's `for…in` order is not modelled.
- Tables.StemOf, Tables.BranchOf, FiveElements.GetStemElementChar, TenGods.CalculateTenGod, TenGods.CalculateBranchTenGods: every string other than the table's own characters is treated as a missing key. JavaScript object literals also answer keys inherited from `Object.prototype`, such as `constructor` and `toString`. With such keys `calculateTenGod('constructor', 'constructor')` returns '比肩', `calculateBranchTenGods` throws a TypeError, and `getStemElementChar` returns a function; the model gives '', [] and '' instead. `calculateBazi` only passes one-character keys, or `undefined` when a sexagenary string has a single character; neither names an inherited property.
- Tables.CharAt: Dafny strings count Unicode characters, whereas JavaScript's `s[i]` counts UTF-16 code units. The two differ only for pillar strings containing characters outside the Basic Multilingual Plane, where JavaScript's `s[1]` can be a lone surrogate. The same difference applies to the day-stem key in the `找不到日干` message. The stems and branches themselves are all inside the Basic Multilingual Plane.
- The frontend (`frontend/src`) is not part of this model.
- Luck cycles (DaYun), annual cycles (LiuNian), solar-term search and the gender field do not occur in `backend/server.js` and are not modelled.
