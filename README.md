# Fruit Salad: a verified model

`fruit-salad.py` defines one class, `FruitSalad`. It does three things:

- **`get_data`** reads a JSON Lines file of user objects. It keeps only the fields `name`, `age`, `isActive`, `favoriteFruit` and `balance` of each object. It caches the resulting list in `self.data`.
- **`transform_data`** turns every cached record into a flat record. The record holds:
  - `full_name`: first name, a space, last name;
  - the age, the active flag and the favourite fruit, unchanged;
  - the balance with its `$` signs stripped and its thousands commas removed, converted to a float.
- **No error handling in `transform_data`**: the first record whose lookups fail raises out of it.

This project models these operations in Dafny and proves what they promise.

| file | module | contents |
|---|---|---|
| `json.dfy` | `Json` | decoded JSON values, the lines the reader yields, the Python exceptions raised while indexing, and `Result` |
| `balance.dfy` | `Balance` | `strip('$')`, `replace(',', '')` and the balance cleaning |
| `records.dfy` | `Records` | projection onto the field list, reading up to the first bad line, flattening one record, and flattening a list in order with the first failure reported |
| `salad.dfy` | `Salad` | the `FruitSalad` class: `self.data`, `get_data` and `transform_data` as methods with loops, and lemmas on the load-once rule |
| `samples.dfy` | `Samples` | the two sample users in the program's trailing comment, and what loading and flattening make of them |

## How the program is modelled

- **The reader's output is a parameter.** `get_data` reads `data/simple-etl.jsonl` through `jsonlines`. The model takes the lines the reader would yield as a parameter `lines: seq<Line>`.
  - A line is either `Obj(fields)`, a JSON object, or `Bad`.
  - `Bad` is a line that makes the loop raise: `null`, a non-object, or malformed JSON.
  - The bare `except:` ends the load at that line, and everything appended before it stays in `self.data`.
  - A file that cannot be opened is the empty sequence.
- **`self.data` is a field.** It has type `seq<Record>` and is reassigned by `FruitSalad.GetData`. That method stores `Loaded(old(data), lines)`:
  - an empty list is (re)loaded;
  - a non-empty list is kept unchanged.
- **Flattening a record** is the function `Normalize`. It fails the way Python would, in Python's evaluation order:
  - a missing key gives `KeyError`;
  - a `name` that is not a dict, or a name part that is not a string, gives `TypeError`;
  - a `balance` that is not a string has no `strip`, so it gives `AttributeError`.
- **`transform_data`** is `FruitSalad.TransformData`. Its loop is specified by `NormalizeAll`:
  - on success, one flat record per cached record, in order;
  - otherwise, the failure of the first record that cannot be flattened.
- **The balance is kept as a string.** The cleaned string is stored in place of the float that `float(...)` would produce.

## Where the program differs from its design description

The design description of this system asks for several things the code does not do. The model follows the code:

- The description has a `posts` field and users with a post count. The code never projects `posts`, and it computes no modes, word counts or aggregates.
- The description cleans a balance by removing a leading currency symbol. The code's `strip('$')` removes every `$` at both ends. Its `replace(',', '')` removes every comma, wherever it is. Nothing checks the string's shape.
- The description wants an empty result kept apart from "not computed yet". The code tests `if not self.data`, so an empty load is retried on every call (`EmptyLoadIsRetried`).
- The description wants malformed records reported one by one, or skipped. The code has no such policy:
  - errors while loading are swallowed, and the load keeps the prefix read so far;
  - the first bad record during flattening aborts the whole `transform_data`;
  - there is no dedicated malformed-value error. Python's own exceptions are raised: `KeyError` for a missing key, `TypeError` for a `name` that is not a dict or a name part that is not a string, `AttributeError` for a balance that is not a string, and `ValueError` from `float` for a cleaned balance that is not a number (the last is not modelled, see below).
- The cleaned balance holds no `,` in all cases.
- The claims "the cleaned balance neither starts nor ends with `$`" and "cleaning twice changes nothing" do not hold for every string:
  - `",$5"` cleans to `"$5"`, which cleans to `"5"` (`CleanBalanceNotIdempotent`);
  - `CleanBalanceIdempotentIff` gives the exact condition for both claims;
  - `CleanBalanceOfCurrency` proves both for every balance written as an optional `$` followed by an amount without `$`.

## Model

| member | source | states |
|---|---|---|
| `Salad.FruitSalad.constructor` | fruit-salad.py:11-13 | a new object starts with an empty `self.data` |
| `Salad.FruitSalad.GetData` | fruit-salad.py:25-40 | a non-empty `self.data` is returned unchanged; an empty one becomes one projected record per object the reader yields before the first line that raises, in input order; the list returned is `self.data` |
| `Salad.FruitSalad.TransformData` | fruit-salad.py:43-61 | loads as `get_data` does, changes `self.data` no further, and returns the flattening of every loaded record in order, or the failure of the first record that cannot be flattened |
| `Salad.Loaded` | fruit-salad.py:25-40 | what `self.data` holds after one call of `get_data`: the list itself when non-empty, otherwise the projected objects read from the file; its properties are stated by `GetData` and the `Loaded…` lemmas below |
| `Salad.LoadedIsKept` | fruit-salad.py:25-40 | once a call has loaded a non-empty list, every later call keeps it, whatever the file holds then |
| `Salad.LoadedIdempotent` | fruit-salad.py:25-40 | two calls on the same file leave the same list as one call |
| `Salad.EmptyLoadIsRetried` | fruit-salad.py:25-40 | a load that yields nothing (empty file, unopenable file, first line raises) caches nothing, and the next call loads again |
| `Salad.LoadedEmptyIff` | fruit-salad.py:25-35 | a fresh load is empty exactly when the reader yields no object before raising or ending |
| `Salad.LoadedIsProjection` | fruit-salad.py:33-35 | the i-th loaded record is the projection of the i-th line, that line is an object, and each of the record's keys is a listed field of that object |
| `Records.Restrict` | fruit-salad.py:34-35 | the comprehension over a key list: a key is kept exactly when it is listed and present, with its value unchanged; there are at most as many keys as listed |
| `Records.Project` | fruit-salad.py:34-35 | the record stored for one object, `{key: obj[key] for key in fields if key in obj}`; its contract is stated by `ProjectSpec`, `ProjectIdempotent` and `ProjectIgnoresUnlisted` |
| `Records.ProjectSpec` | fruit-salad.py:34-35 | a projected record is the comprehension over the field list of line 23: its keys are exactly the listed fields the object has, each with the object's value, and there are at most five |
| `Records.ProjectIdempotent` | fruit-salad.py:34-35 | projecting a projected record changes nothing |
| `Records.ProjectIgnoresUnlisted` | fruit-salad.py:34-35 | adding or changing a key outside the field list does not change the projection |
| `Records.ReadRecords` | fruit-salad.py:28-38 | the objects read are the first lines of the file, in order, and they stop exactly at the first line that raises or at the end |
| `Records.ReadRecordsLength` | fruit-salad.py:33-38 | if the first n lines are objects and line n raises or is the end, exactly n records are read |
| `Records.ProjectAll` | fruit-salad.py:33-35 | one projected record per object, in the same order |
| `Records.NamePart` | fruit-salad.py:53 | `d['name'][k]` as an operand of `+`: `TypeError` when `name` is not a dict, `KeyError` when `k` is missing, `TypeError` when its value is not a string; its effect on the flat record is stated by `NormalizeSpec` |
| `Records.Normalize` | fruit-salad.py:52-57 | the flat record built for one record, with the lookups in Python's evaluation order; its contract is stated by `NormalizeSpec`, `FullNameSplits`, `NormalizeReadsFieldsOnly` and `NormalizeOfProject` |
| `Records.NormalizeSpec` | fruit-salad.py:52-57 | flattening succeeds exactly when every lookup does; every failure names a real defect (missing key or wrong type); a missing `name` gives `KeyError`; a success joins first and last name with one space, passes age, active flag and fruit through unchanged, and stores the cleaned balance |
| `Records.FullNameSplits` | fruit-salad.py:53 | the full name is first name, one space, last name, and splits back into them at that position |
| `Records.NormalizeReadsFieldsOnly` | fruit-salad.py:52-57 | two records that agree on the five listed fields flatten alike, failure included |
| `Records.NormalizeOfProject` | fruit-salad.py:52-57 | flattening the stored projection gives the same result as flattening the raw object |
| `Records.Collect` | fruit-salad.py:49-59 | a loop that applies a step to each element in order succeeds exactly when every step does, with the results in order; otherwise it reports the failure of the first element that fails |
| `Records.CollectConcat` | fruit-salad.py:49-59 | running the loop over two pieces in turn is running it over their concatenation: results keep their order, and a failure in the first piece comes first |
| `Records.CollectSnoc` | fruit-salad.py:49-59 | one more iteration keeps an earlier failure, or reports the new element's failure, or appends its result |
| `Records.CollectPrefixErr` | fruit-salad.py:49-61 | a failure inside a prefix ends the whole loop with that failure |
| `Records.NormalizeAll` | fruit-salad.py:46-61 | the loop of `transform_data` is `Collect` with `Normalize` as the step, so by `Collect`'s contract it gives one flat record per record in order exactly when every record flattens, otherwise the failure of the first record that does not |
| `Balance.StripLeading` | fruit-salad.py:57 | the leading half of `strip('$')`; its contract is `StripLeadingSpec` |
| `Balance.StripTrailing` | fruit-salad.py:57 | the trailing half of `strip('$')`; its contract is `StripTrailingSpec` |
| `Balance.Strip` | fruit-salad.py:57 | `strip('$')`; its contract is stated by `StripSpec` and `StripFixpoint` |
| `Balance.RemoveAll` | fruit-salad.py:57 | `replace(',', '')`; its contract is stated by `RemoveAllSpec`, `RemoveAllConcat`, `RemoveAllAbsent` and `RemoveOneSeparator` |
| `Balance.CleanBalance` | fruit-salad.py:57 | `balance.strip('$').replace(',', '')`; its contract is stated by `CleanBalanceSpec`, `CleanBalanceIdempotentIff`, `CleanBalanceOfCurrency` and `CleanBalanceOfThousands` |
| `Balance.StripLeadingSpec` | fruit-salad.py:57 | what is left is a suffix, everything cut off is `$`, and what is left does not start with `$` |
| `Balance.StripTrailingSpec` | fruit-salad.py:57 | what is left is a prefix, everything cut off is `$`, and what is left does not end with `$` |
| `Balance.StripSpec` | fruit-salad.py:57 | `strip('$')` gives a middle piece of the string with only `$` around it, neither starting nor ending with `$` |
| `Balance.StripFixpoint` | fruit-salad.py:57 | `strip` leaves a string unchanged exactly when it neither starts nor ends with `$` |
| `Balance.RemoveAllSpec` | fruit-salad.py:57 | `replace(',', '')` leaves no comma and keeps every other character with its multiplicity; the length drops by the number of commas |
| `Balance.RemoveAllConcat` | fruit-salad.py:57 | removing commas works piece by piece, so the other characters keep their order |
| `Balance.RemoveAllAbsent` | fruit-salad.py:57 | a string without commas is unchanged |
| `Balance.RemoveOneSeparator` | fruit-salad.py:57 | removing the single comma between two comma-free pieces joins them |
| `Balance.CleanBalanceSpec` | fruit-salad.py:57 | the cleaned balance holds no comma, is no longer than the balance, and is the stripped balance without its commas |
| `Balance.CleanBalanceIdempotentIff` | fruit-salad.py:57 | cleaning a cleaned balance again leaves it unchanged exactly when it neither starts nor ends with `$` |
| `Balance.CleanBalanceOfCurrency` | fruit-salad.py:57 | a balance made of an optional `$` and an amount without `$` cleans to the amount without commas; the result holds neither `$` nor `,`, and cleaning it again changes nothing |
| `Balance.CleanBalanceOfThousands` | fruit-salad.py:57 | `$`, whole dollars, one comma and the rest clean to the two digit groups joined |
| `Samples.NormalizePerson` | fruit-salad.py:52-57 | an object shaped like the sample users flattens to its joined name, its three passed-through values and its cleaned balance |
| `Samples.CleanBalanceSample` | fruit-salad.py:72 | the sample balance `$3,317.36` cleans to `3317.36` |
| `Samples.CleanBalanceNotIdempotent` | fruit-salad.py:57 | `",$5"` cleans to `"$5"`, and that cleans to `"5"`: cleaning is not idempotent on every string |
| `Samples.FoxFlattens` | fruit-salad.py:70-75 | the first sample user flattens to full name `Fox Cummings`, age 20, active, `strawberry`, balance `3317.36` |
| `Samples.SampleFileLoads` | fruit-salad.py:70-80 | a file of the two samples followed by a line that raises loads both samples, projected, in order |
| `Samples.SampleFileFlattens` | fruit-salad.py:70-80 | flattening the two loaded samples succeeds with two records, the first for `Fox Cummings` |

## Left out

- Opening, reading and decoding the JSON Lines file (`jsonlines.open`, `reader.iter`) is I/O in a foreign library. Its output is the parameter `lines`, with a raising line as `Bad` and a file that cannot be opened as the empty sequence.
- The message printed by the bare `except:` is output only. Its only modelled effect is that loading stops.
- `float(...)` on the cleaned balance is floating point and is not modelled. The cleaned string stands in for the float. `Normalize` therefore reports success where `float` would raise `ValueError` on a string that is not a number.
- `str(...)` on the full name and the favourite fruit is taken as the identity:
  - the favourite fruit is passed through as the decoded value;
  - the text of `str` on a non-string value is not modelled;
  - the `UnicodeEncodeError` of Python 2's `str` on non-ASCII text is not modelled.
- JSON numbers are exact decimals (`real`). Python's distinction between `int` and `float` is not kept.
- The order of keys in a Python dict is not modelled. Records are maps.
- `transform_data` and the caller of `get_data` share one list object, because `get_data` returns `self.data` itself. The model returns the value of the list. No code in the program mutates the list through the returned reference, so nothing observable is lost.
- The module-level `FruitSalad()` instance and the `pprint` of its result are output only.
- Modes, post word counts and statistical aggregates are not modelled, because no code in `fruit-salad.py` computes them.
