# Tasbih counter: a Dafny model

The memorial page counts four devotional phrases: "سبحان الله وبحمده",
"الحمد لله", "الله أكبر" and "اللهم ارفع درجته". Each phrase has its own tally,
and the page keeps a running total. A `TasbihCounter` object owns the tally
table and the total. It raises one tally, and the total, when a phrase button
is pressed. It zeroes everything after the user confirms a reset. After every
change it writes a record `{counters, totalCount, lastUpdated}` into one
local-storage slot. At construction it lays whatever that slot holds over its
defaults. Keys "1" to "4" on the keyboard press the phrase buttons.

The model has four modules:

- `Options` (options.dfy): the `Option` datatype.
- `Tally` (tally.dfy): `Sum` over a tally table. Its lemmas let any key be
  split off the sum, not only the one `Sum` happens to pick.
- `Tasbih` (tasbih.dfy): the counter.
  - `State` is the counter's value: the table and the total.
  - `Record` is the stored record as `JSON.parse` hands it back.
  - `Incremented`, `Reset` and `Loaded` are the operations as functions on
    values. Lemmas about them prove the page's rules.
  - The class `TasbihCounter` has the fields `counters` and `totalCount`.
    Its methods change those fields in place. Each method's postcondition
    ties the new `Snapshot()` to one of the functions applied to the old one.
  - `ResetAll` zeroes the keys one at a time in a loop, as the `forEach` in
    `resetCounters` does.
- `Keyboard` (keyboard.dfy): the rule that turns a key name into a button
  index.

Tallies and the total are unbounded `int`s, not `nat`s. The page takes a stored
record over without checking it, so a tampered slot can hold negative numbers.
Non-negativity is therefore part of a predicate, `Invariant`. `Invariant` says
three things: the total equals the sum of the tallies, no tally is negative,
and all four phrase keys are present. Increment keeps it. A confirmed reset
restores it. Loading does not keep it in general, because the stored total is
taken as it is.

Three behaviours of loading are easy to miss, and the model keeps all three:

- A missing `totalCount` loads as 0. The total is never recomputed from the
  tallies, so a stored total that disagrees with the stored tallies stays
  wrong.
- Keys in the record that are not one of the four phrases are copied into the
  table, so the key set can grow at load time.
- A record that cannot be used leaves the state as it was. At construction
  that state is the all-zero defaults.

One consequence of the second point: a record can give the table an own key
named `hasOwnProperty`. Its number then hides the method that
`incrementCounter` calls to test ownership. From then on every increment
throws a TypeError before changing anything, and a reset keeps the key.

## Model

| member | source | states |
|---|---|---|
| `Tasbih.Defaults` | script.js:4-9 | The starting table has exactly the four phrase keys, each at zero. |
| `Tasbih.TasbihCounter.constructor` | script.js:3-17 | A new counter is the defaults plus total 0, with the storage slot's contents then loaded over them. All four phrase keys are present. With an empty slot, the invariant holds. |
| `Tasbih.TasbihCounter.Load` | script.js:24-35 | The new state is `Loaded` applied to the old state and the slot's contents. |
| `Tasbih.Loaded` | script.js:26-34 | An unusable slot leaves the state unchanged. This covers a missing slot, text that does not parse, and a parsed null, where reading `data.counters` throws. Otherwise the record's tallies override the table's. Keys the record lacks keep their old tally. Keys the table lacked are added. The total becomes the stored one, or 0 when it is absent. |
| `Tasbih.StoredTotal` | script.js:30 | `data.totalCount \|\| 0`, written with JavaScript truthiness: the stored total if it is truthy, else 0. Every stored number comes back unchanged, zero included, because a falsy number is 0 itself. An absent or null total gives 0. |
| `Tasbih.LoadKeepsPhraseKeys` | script.js:29 | Loading never removes a key, so the four phrases survive any load. |
| `Tasbih.LoadKeepsNonNegative` | script.js:29-30 | If the table and the record's tallies are non-negative, the loaded table is too. |
| `Tasbih.SaveLoadRoundTrip` | script.js:24-49 | Loading the saved record into a new counter gives back exactly the saved tallies and total. This holds if and only if the saved table still has all four phrase keys. |
| `Tasbih.LoadTrustsStoredTotal` | script.js:28-30 | After loading any record with tallies and a total into a new counter, the total agrees with the tallies if and only if the stored total equals the sum of the stored tallies, so the total is never recomputed. Every phrase the record leaves out comes back at zero. |
| `Tasbih.StaleTotalWitness` | script.js:30 | A concrete record with all tallies at zero and total 1 loads into an inconsistent counter. |
| `Tasbih.LoadPartialRecord` | script.js:24-31 | A record naming only "الله أكبر" with 5, and total 5, loads as that tally at 5, the other phrases at 0, and total 5. The invariant holds for it. |
| `Tasbih.Incremented` | script.js:52-55 | For a key the table owns: that tally and the total each rise by exactly 1, every other tally stays the same, and the key set is unchanged. For any other key, nothing changes. Nothing changes either when the table owns a key named `hasOwnProperty`, because the ownership test then throws. |
| `Tasbih.ShadowingIsPermanent` | script.js:29-54 | For any state whose table owns `hasOwnProperty`: an increment of any key changes nothing, and the key survives a reset and any later load, so increments stay without effect. |
| `Tasbih.ShadowedOwnershipTestWitness` | script.js:29-54 | The concrete record `{counters: {hasOwnProperty: 1}, totalCount: 1}`, loaded into a new counter, gives a state where an increment of "الله أكبر" changes nothing, both before and after a reset. |
| `Tasbih.IncrementKeepsInvariant` | script.js:53-55 | An increment keeps the invariant: the total stays equal to the sum, the tallies stay non-negative, and the phrase keys stay present. |
| `Tasbih.TasbihCounter.Increment` | script.js:52-61 | The new state is `Incremented` of the old one. `threw` is set exactly when the table owns `hasOwnProperty`. The record is written only when the key is owned and nothing threw, and it then holds the new state. The invariant is preserved. |
| `Tasbih.Zeroed` | script.js:85-87 | The zeroed table has the same keys, every one at zero. |
| `Tasbih.ResetIdempotent` | script.js:84-88 | Two confirmed resets give the same state as one. |
| `Tasbih.ResetRestoresInvariant` | script.js:85-88 | After a confirmed reset the invariant holds if and only if all four phrase keys were present. Any drift between the total and the tallies is repaired. |
| `Tasbih.ResetIsFreshWhenNoExtraKeys` | script.js:85-88 | A reset returns the counter to its constructor defaults if and only if the table holds just the four phrases. |
| `Tasbih.TasbihCounter.ResetAll` | script.js:83-93 | If not confirmed, nothing changes and nothing is written. If confirmed, every key, including extra keys, is zeroed with the same key set, the total becomes 0, and the new state is written. The loop invariant is that every key already visited is zero. |
| `Tasbih.InvariantTotalNonNegative` | script.js:53-55 | Under the invariant the running total is a natural number. |
| `Tasbih.ThreeIncrements` | script.js:52-55 | Three increments of "الله أكبر" from the defaults give that tally 3, the others 0, and total 3. |
| `Tasbih.ThreeTakbirs` | script.js:3-61 | A counter built over an empty slot and pressed three times on "الله أكبر" ends in that state, with the invariant holding. |
| `Keyboard.ButtonIndex` | script.js:161-165 | The chosen index always names an existing button, so the `buttons[index]` check passes. A key is chosen only if it starts with "1" to "4". |
| `Keyboard.GuardShape` | script.js:161 | The string test `key >= '1' && key <= '4'` admits exactly the keys that begin with "1", "2" or "3", plus the key "4" itself. |
| `Keyboard.KeyWithOneLeadingDigit` | script.js:161-163 | A key whose first character is not followed by another digit selects button (first digit − 1), if the range test admits it and that button exists. This covers single-character keys. |
| `Keyboard.MultiDigitKeyClicksNothing` | script.js:161-163 | A key starting with two digits, such as "10", passes the range test. `parseInt` then gives at least 10, so on a page with at most nine buttons it clicks nothing. |

## Left out

- Tasbih.Incremented: tallies and the total are unbounded integers. In the
  page they are IEEE doubles, and at 2^53 or more in magnitude `++` may leave
  them unchanged. The model assumes every tally and the total stay below 2^53
  in magnitude; "rises by exactly 1" is promised only there.
- Tasbih.Loaded: `JSON.parse` rounds stored integers of 2^53 or more in
  magnitude to the nearest double. The model assumes stored numbers stay
  below that bound.

- Rendering the counts (`updateDisplay`), the button press animation, and the
  reset and copy messages are display side effects that hold no state.
- The click tone (`playClickSound`) uses the Web Audio API with floating-point
  frequencies and gains.
- The confirmation dialog is not modelled. Its answer is the `confirmed`
  parameter of `ResetAll`.
- Local-storage reads and writes and JSON text are not modelled. The slot's
  contents are an `Option<Record>` parameter. The record written after each
  change is returned as `written`.
- A failed write is swallowed by `saveToStorage` and leaves memory as it was.
  The model therefore returns the record whether or not the host stores it.
  The `console.log` calls in the catch blocks of `loadFromStorage` and
  `saveToStorage` only write to the console and are left out.
- The `lastUpdated` timestamp is left out because it reads the clock.
- Stored values that are not integers are left out. These are strings,
  fractions, NaN, a truthy non-number `totalCount`, and a `counters` member
  that is a string or an array, whose spread would copy index keys.
- Event-listener wiring is left out: the key and touch handlers, the Ctrl+R
  shortcut to reset, smooth scrolling, the fade-in, and `setTimeout`. Which
  phrase each button carries is set by the page markup, so `Keyboard` stops at
  the button index and takes the number of buttons as a parameter.
- Keyboard.AtMost compares characters as Unicode code points, while JavaScript
  compares UTF-16 code units. The range test compares only a key's first
  character with "1" and "4", where the two orders agree.
- The share and copy functions, the audio-file check and the service-worker
  registration are thin wrappers over browser APIs.
- The single global instance (`tasbihApp`) and the `incrementTasbih` and
  `resetCounters` forwarding functions only reach the one object the model's
  class stands for.
