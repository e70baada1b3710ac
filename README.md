# parasect, modelled in Dafny

parasect builds and compares parameter sets for PX4 drones. A *meal*
(one airframe configuration) is cooked from a *meals menu*. Cooking starts
from a parent meal's list or from a default parameter file. The ingredients
of the *custom dishes* the meal names are added or edited on top. Then come
the removals: blacklisted parameters and groups (*allergens*), and, when
the meal asks for them, the parameters of the *calibration* and *operator*
staple dishes. Last, `SYS_AUTOSTART` is set to the meal's frame id. The
result is exported as a PX4 parameter file, a PX4 airframe script (version
1 or 2) or CSV. The comparison side reads two parameter files (XML, the
tab-separated QGC format or the comma-separated `ulog_params` printout). It
pairs their parameters for each vehicle/component id, keeps the differing
ones and prints a column-aligned report.

This project models the three core modules:

- `src/parasect/_helpers.py`: the parameter, the parameter list, the row
  decoders and the readers;
- `src/parasect/build_lib.py`: dishes, meals and the exporters;
- `src/parasect/compare_lib.py`: the comparison and its report.

The modules:

| module | file | models |
|---|---|---|
| `Wrappers` | `wrappers.dfy` | `Option`, `Result` and the Python exceptions the core raises (`KeyError`, `ValueError`, `TypeError`, `SyntaxError`, `RuntimeError`, `IndexError`, `RecursionError`) |
| `Strings` | `strings.dfy` | `sorted()` on names, upper-casing, `f"{i:d}"`, left-aligned padding, `split`, `os.path.split(...)[-1]` |
| `Parameters` | `parameters.dfy` | `Parameter` as a value, the `add_param`/`remove_param` rules, `get_pretty_value`, `get_param_from_str` and the row decoders |
| `ParamLists` | `paramlist.dfy` | `ParameterList` as a class around a shared dictionary object (`ParamDict`), so that `ParameterList(original)` and `a - b` alias as in Python |
| `Readers` | `readers.dfy` | the tab and comma readers as loops over rows, and `read_params` choosing among the three readers |
| `Documents` | `documents.dfy` | the YAML documents (dish models, recipes, boilerplate texts, meal entries) as datatypes |
| `Dishes` | `dishes.dfy` | `Dish` as a class, with a pure specification `DishSpec` of what its constructor builds |
| `Meals` | `meals.dfy` | the pure specification of `Meal.__init__`: every stage, the parent recursion, and the lemmas about the result |
| `MealBuild` | `mealbuild.dfy` | `Meal` as a class whose methods perform those stages in place, each proved against `Meals` |
| `Export` | `export.dfy` | `build_header_footer`, `export_to_px4/px4af/csv`, `export` and `build_filename` as functions on line sequences |
| `Compare` | `compare.dfy` | `collect_vid_cid`, the id filter, `compare_parameter_lists` and `get_vehicles_comparison` |
| `CompareReport` | `compare_report.dfy` | `get_column_lengths`, `build_comparison_row`, `generate_comparison_strings`, `build_comparison_string` |
| `CompareExamples` | `compare_examples.dfy` | the report's concrete cases from `tests/test_compare_lib.py` |

Some inputs cannot be computed in the model, so they are parameters.

- **Number parsing.** Python's `int(s)` and `float(s)` on strings are a
  `NumberSyntax` record, with `None` where Python raises.
- **Float formatting.** `f"{v:.{n}f}"`, together with its digit count, is a
  function `fixed: real -> string`.
- **Float comparison.** `values_differ` is a predicate
  `differ: (Number, Number) -> bool`.
- **Files.** A parameter file is given as its path, the XML reader's outcome
  on it, and its rows split at commas and at tabs.
- **Menu and dishes.** The meals menu, the custom dishes, the staple dishes,
  the reserved option names and the default parameter file are given as a
  `Kitchen` value.

Floats are exact reals. `int(x)` on a float is written out as truncation
toward zero.

Where the repository's written description and its code differ, the model
follows the code:

- a parameter's identity in a list is its name alone, not its name and
  component id;
- a meal entry has no `defaults` key;
- the readers do not reject an empty result;
- the comma reader skips no comment or blank lines;
- the tab reader knows only type codes 6 and 9;
- there is no whitespace-separated dialect;
- merging into an existing entry copies only the value, not the descriptive
  attributes;
- `get_vehicles_comparison` collects the ids before subtracting the staples;
- a sub-model requested on a model without variants gives an empty recipe,
  not an error.

## Model

| member | source | states |
|---|---|---|
| Strings.SortedKeys | src/parasect/_helpers.py:476-479 | the iteration order lists exactly the keys of the dictionary, one position per key |
| Strings.SortedKeysAscending | src/parasect/_helpers.py:476-479 | the keys come in strictly ascending order |
| Strings.SortedKeysDistinct | src/parasect/_helpers.py:476-479 | no key is visited twice |
| Strings.Upper | src/parasect/_helpers.py:411-415 | same length, every ASCII letter upper-cased, other characters kept, and the result counts as upper case |
| Strings.UpperOfUpper | src/parasect/_helpers.py:411-415 | an upper-case name is left unchanged, so upper-casing twice changes nothing |
| Strings.IntToStringMeaning | src/parasect/_helpers.py:433-438 | `f"{i:d}"` starts with '-' exactly for a negative number, continues with digits and no leading zero, and those digits read back as the magnitude, so the text gives back `i` |
| Strings.NatToString | src/parasect/_helpers.py:433-438 | at least one character, all digits, a leading '0' only for zero |
| Strings.NatToStringRoundTrip | src/parasect/_helpers.py:433-438 | reading the printed digits back gives the number |
| Strings.PadRight | src/parasect/compare_lib.py:376 | a left-aligned field: the text, then spaces up to the width, never truncated |
| Strings.Split | src/parasect/build_lib.py:522 | one piece more than there are separators, and no piece holds the separator |
| Strings.JoinSplit | src/parasect/build_lib.py:522 | joining the pieces of a split with the separator gives back the string |
| Strings.BaseNameShape | src/parasect/_helpers.py:748-750 | the file name is the longest suffix of the path without '/', so it is preceded by '/' whenever it is shorter than the path |
| Parameters.TruncToInt | src/parasect/_helpers.py:535-536 | `int(x)` on a float drops the fractional part toward zero |
| Parameters.IntOf | src/parasect/_helpers.py:436-438 | `int(v)` truncates toward zero and keeps an integer as it is |
| Parameters.NewParameter | src/parasect/_helpers.py:391-415 | the name is upper-cased (ASCII letters) and keeps its length and non-letters; value as given; untyped, no group or reasoning; vehicle and component id 1 |
| Parameters.NewParameterNameStable | src/parasect/_helpers.py:411-415 | re-upper-casing a constructed parameter's name changes nothing |
| Parameters.MergedValue | src/parasect/_helpers.py:527-543 | a typed incoming value, or an untyped stored entry, takes the incoming value; a stored INT32 truncates; a stored FLOAT converts to float; any other stored type is a `ValueError`, and only that case fails |
| Parameters.AddParamSpec | src/parasect/_helpers.py:511-543 | `KeyError` for `safe` and an absent name, and for `not overwrite` and a present name; an absent name is inserted; the key set becomes old keys plus the name; other entries are untouched; a present entry changes only its value, to the merged value |
| Parameters.AddParamKeyedByName | src/parasect/_helpers.py:524-525 | every entry stays stored under its own name |
| Parameters.RemoveParamSpec | src/parasect/_helpers.py:545-551 | `KeyError` exactly for `safe` and an absent name; otherwise the name is gone and every other entry is unchanged |
| Parameters.DropTrailingZeros | src/parasect/_helpers.py:451-452 | a prefix of the text, everything dropped is '0', and the result does not end in '0' |
| Parameters.DotSurvives | src/parasect/_helpers.py:449-452 | the decimal point is never among the zeros stripped |
| Parameters.TidyDecimalShape | src/parasect/_helpers.py:449-455 | a tidied decimal never ends in '.', and ends in a non-zero digit unless it ends in ".0" |
| Parameters.TidyDecimalIdempotent | src/parasect/_helpers.py:449-455 | tidying twice is tidying once |
| Parameters.PrettyValue | src/parasect/_helpers.py:431-460 | INT32 prints its integer (and fails with `ValueError` on a float); an untyped integral value prints as integer digits; any other zero prints "0.0" |
| Parameters.PrettyValueZero | src/parasect/_helpers.py:433-441 | an untyped zero prints "0"; a typed non-INT32 zero prints "0.0" |
| Parameters.PrettyValueFloatShape | src/parasect/_helpers.py:442-455 | in the float branch the result never ends in '.' and ends in a non-zero digit or in ".0" |
| Parameters.StripDecimalZeros | src/parasect/_helpers.py:449-455 | the stripping loop computes the tidied decimal |
| Parameters.GetPrettyValue | src/parasect/_helpers.py:431-460 | the method with its loop returns the pretty value |
| Parameters.GetParamFromStr | src/parasect/_helpers.py:381-388 | "INT32" parses an int, "FLOAT" a float, each succeeding exactly when Python's parse does; any other tag is a `ValueError` |
| Parameters.ParseIntField | src/parasect/_helpers.py:573-576 | `int(field)` succeeds exactly when the parse does, else `ValueError` |
| Parameters.BuildParamFromQgc | src/parasect/_helpers.py:570-591 | fields taken in the source's order: `ValueError` when column 0, then column 1, does not parse as an int; `IndexError` exactly for a row under five fields whose columns read so far parse; ids from columns 0 and 1; name upper-cased from column 2; code 6 gives INT32 with an integer value, code 9 FLOAT with a float value; any other code is a `ValueError` |
| Parameters.BuildParamFromUlog | src/parasect/_helpers.py:594-605 | `IndexError` under two fields; otherwise succeeds exactly when the value parses as int or float, with int preferred; the result is an untyped fresh parameter |
| Parameters.BuildParamFromIter | src/parasect/_helpers.py:608-623 | upper-cased name, the reasoning kept, a missing value becomes the integer 0, untyped, default ids |
| ParamLists.ParamDict.constructor | src/parasect/_helpers.py:472 | a new, empty dictionary |
| ParamLists.Items | src/parasect/_helpers.py:476-479 | iteration yields one entry per key, the entry at the k-th smallest key |
| ParamLists.ItemsAscending | src/parasect/_helpers.py:476-479 | the yielded names are strictly ascending, and a parameter is yielded exactly when it is the entry under its name |
| ParamLists.RemovedUpToMembers | src/parasect/_helpers.py:481-487 | after i steps the subtraction has removed exactly the names among the first i that the other list holds |
| ParamLists.StillPresent | src/parasect/_helpers.py:481-487 | the name visited at a step has not been removed by an earlier step, so iterating a key snapshot while removing is safe |
| ParamLists.RemovedAll | src/parasect/_helpers.py:481-487 | after the last step the subtraction has removed every name the other list holds |
| ParamLists.ParameterList.Empty | src/parasect/_helpers.py:469-474 | `ParameterList()` owns a new empty dictionary and has no source file |
| ParamLists.ParameterList.Share | src/parasect/_helpers.py:469-474 | `ParameterList(original)` shares the original's dictionary when it is non-empty, and makes a new empty one when it is missing or empty |
| ParamLists.ParameterList.FromEntries | src/parasect/_helpers.py:469-474 | a list over a new dictionary holding the given entries |
| ParamLists.ParameterList.AddParam | src/parasect/_helpers.py:511-543 | the dictionary becomes `AddParamSpec` of the old one; on an exception it is left as it was |
| ParamLists.ParameterList.RemoveParam | src/parasect/_helpers.py:545-551 | the dictionary becomes `RemoveParamSpec` of the old one; on an exception it is left as it was |
| ParamLists.ParameterList.Subtract | src/parasect/_helpers.py:481-487 | `a - b` holds a's entries minus b's names and shares a's dictionary (a new one when a is empty), so `a` itself changes as well |
| ParamLists.ParameterList.RemoveNamesIn | src/parasect/_helpers.py:483-486 | the subtraction loop removes exactly the visited names the other list holds |
| Readers.QgcRow | src/parasect/_helpers.py:667-686 | empty and comment rows change nothing; a row with an empty first field is an `IndexError`; a row without five fields or with a numeric third field is a `SyntaxError`; otherwise the decoded parameter is added |
| Readers.UlogRow | src/parasect/_helpers.py:694-709 | a row without exactly two fields or with a numeric name is a `SyntaxError`; otherwise the decoded parameter is added |
| Readers.ReadRowsAppend | src/parasect/_helpers.py:667-686 | reading two batches of rows is reading the first, then the second into the result |
| Readers.QgcSkippedRowIgnored | src/parasect/_helpers.py:671-674 | inserting an empty or comment row anywhere in a tab file changes nothing |
| Readers.ReadRowsKeyedByName | src/parasect/_helpers.py:686 | a reader stores each parameter under its name |
| Readers.ReadRowAccepted | src/parasect/_helpers.py:669-709 | a data row that is read had the right field count and a non-numeric name and adds exactly its name; an empty or comment row changes nothing |
| Readers.ReadRowsWellFormed | src/parasect/_helpers.py:676-683 | after a successful read every data row had the right field count and a name that is not a number |
| Readers.ReadRowsAccepted | src/parasect/_helpers.py:663-711 | after a successful read every data row's name is in the list, and every name in the list came from a data row or was there before |
| Readers.ReadRowsKeepsKeys | src/parasect/_helpers.py:663-711 | reading never drops a name |
| Readers.RejectsMalformedRow | src/parasect/_helpers.py:676-683 | a malformed row after well-formed ones makes the whole read a `SyntaxError` |
| Readers.ReadInto | src/parasect/_helpers.py:668-686 | the reading loop leaves the list holding what the row-by-row specification gives, or returns its exception |
| Readers.ReadParamsQgc | src/parasect/_helpers.py:663-687 | `read_params_qgc` returns a new list holding the rows read, or the exception |
| Readers.ReadParamsUlog | src/parasect/_helpers.py:690-711 | `read_params_ulog_param` returns a new list holding the rows read, or the exception |
| Readers.ReadParamsExactlyOne | src/parasect/_helpers.py:714-751 | `read_params` succeeds exactly when no reader lets another exception escape and exactly one reader recognises the file; it then returns that reader's list |
| Readers.ReadParamsRejects | src/parasect/_helpers.py:742-745 | no recognising reader gives "Could not recognize log protocol."; two or more give "Protocol ambiguous, fits more than one parser." |
| Readers.ReadParamsFirstEscape | src/parasect/_helpers.py:719-738 | an exception other than the one a reader catches escapes unchanged, the earliest one first |
| Readers.ReadParamsKeyedByName | src/parasect/_helpers.py:714-751 | the list read holds every parameter under its name |
| Readers.TryText | src/parasect/_helpers.py:725-738 | one text reader inside the `try`: its new list when it recognises the file, otherwise whether its exception is caught (`SyntaxError`) or escapes |
| Readers.ReadParams | src/parasect/_helpers.py:714-751 | returns a new list with the specified entries, its source file set to the last path component, or the exception |
| Dishes.GetVariant | src/parasect/build_lib.py:100-113 | no variants gives `None`; a known name gives its variant; an unknown name is a `KeyError` |
| Dishes.GetSnRecipe | src/parasect/build_lib.py:115-131 | a variant without variants gives an empty recipe; an unknown sub-model is a `KeyError` naming model/sn; a known one gives its common recipe, or an empty one |
| Dishes.FillKeepsEntries | src/parasect/build_lib.py:184-193 | adding substances leaves the entries already present as they were |
| Dishes.FillClashFree | src/parasect/build_lib.py:184-193 | the loop completes exactly when the upper-cased names are pairwise distinct and new |
| Dishes.FillKeys | src/parasect/build_lib.py:184-193 | a completed loop holds the old names and the substance names, nothing else |
| Dishes.FillAbandonsRest | src/parasect/build_lib.py:150-167 | on a clash the items before it are added and the rest of the list is abandoned; the clash names the repeated parameter |
| Dishes.FillKeyedByName | src/parasect/build_lib.py:184-193 | every entry stored sits under its name |
| Dishes.ModelIgnoredWithoutVariants | src/parasect/build_lib.py:86-98 | a model requested on a dish without variants is ignored |
| Dishes.UnknownVariantRaises | src/parasect/build_lib.py:104-110 | an unknown variant raises `KeyError` once the common recipe is read |
| Dishes.VariantWithoutCommonIgnored | src/parasect/build_lib.py:89-96 | a variant without a common recipe contributes nothing and its sub-models are not read |
| Dishes.SubmodelWithoutRecipeIgnored | src/parasect/build_lib.py:115-131 | a sub-model of a variant without variants, or with an empty common recipe, contributes nothing |
| Dishes.UnknownSubmodelRaises | src/parasect/build_lib.py:119-125 | an unknown sub-model of a variant with variants raises `KeyError` |
| Dishes.RepeatedIngredientRaises | src/parasect/build_lib.py:133-148 | an ingredient in both the common recipe and the variant's recipe makes the dish fail with `KeyError` |
| Dishes.DishKeyedByName | src/parasect/build_lib.py:48-75 | all three lists of a dish hold each entry under its name |
| Dishes.RecipeKeyedByName | src/parasect/build_lib.py:133-148 | parsing a recipe keeps the three lists keyed by name |
| Dishes.Dish.Init | src/parasect/build_lib.py:59-65 | name and sub-model recorded; three new, empty, separate lists |
| Dishes.Dish.ParseSubstances | src/parasect/build_lib.py:184-193 | the storage ends as the substance loop specifies; the `KeyError` names the clashing parameter |
| Dishes.Dish.ParseAllergens | src/parasect/build_lib.py:150-167 | groups, then parameters, each stops quietly at its first clash |
| Dishes.Dish.ParseRecipe | src/parasect/build_lib.py:133-148 | the lists become what `RecipeSpec` gives, or the exception is returned |
| Dishes.Dish.ParseModelParameters | src/parasect/build_lib.py:77-98 | variant lookup, the variant's common recipe, then the sub-model's recipe, applied in that order to the lists |
| Dishes.NewDish | src/parasect/build_lib.py:48-75 | `Dish(...)` gives a new dish whose lists are `DishSpec`, or the exception |
| Meals.AddAllSafe | src/parasect/build_lib.py:466-472 | adding with `safe=True` never adds a name, and fails if any edited name is missing |
| Meals.AddAllFreshOk | src/parasect/build_lib.py:414-424 | adding with `overwrite=False` succeeds exactly when the names are distinct and new |
| Meals.AddAllFreshContents | src/parasect/build_lib.py:414-424 | such an addition keeps the old entries and stores every parameter as given |
| Meals.AddAllKeeps | src/parasect/build_lib.py:414-424 | with `overwrite=False` existing entries are never touched |
| Meals.RemoveAllOutcome | src/parasect/build_lib.py:442-458 | removing distinct names succeeds exactly when all are present, and removes those and nothing else; otherwise `KeyError` |
| Meals.RemoveSorted | src/parasect/build_lib.py:447-449 | removing a staple's names in sorted order gives the list minus those names, or `KeyError` when one is missing |
| Meals.RemoveListed | src/parasect/build_lib.py:447-449 | the same for any listing of the names without repeats |
| Meals.ItemNames | src/parasect/_helpers.py:476-479 | the names iteration visits are the keys, each once |
| Meals.FrameNumber | src/parasect/build_lib.py:266-270 | an integer frame id is itself, a boolean counts as 0 or 1, anything else is a `TypeError` |
| Meals.TextOption | src/parasect/build_lib.py:361-370 | a string or null is accepted, anything else is a `TypeError` |
| Meals.HeaderFooter | src/parasect/build_lib.py:353-370 | the parent's header and footer, each overridden by the meal's own key; a non-text value fails |
| Meals.DecideFlag | src/parasect/build_lib.py:384-404 | an explicit boolean is taken; no key gives false; a non-boolean is a `TypeError` |
| Meals.DesignationModelOnly | src/parasect/build_lib.py:516-530 | "m" designates model m alone, null designates nothing, an integer is a `TypeError` |
| Meals.DesignationWithSubmodel | src/parasect/build_lib.py:522-527 | "m/s" designates model m and sub-model s |
| Meals.DesignationExtraSegments | src/parasect/build_lib.py:522-527 | segments after the second are ignored |
| Meals.UnknownKeyRaises | src/parasect/build_lib.py:500-513 | a key that is neither a custom dish, a reserved option nor a staple makes collection fail, with `KeyError` naming the first such key |
| Meals.CollectedKeyedByName | src/parasect/build_lib.py:497-537 | every collected dish has its lists keyed by name |
| Meals.FlattenByKind | src/parasect/build_lib.py:406-426 | the ingredients, blacklisted parameters and blacklisted groups are collected independently |
| Meals.AddList | src/parasect/build_lib.py:416-418 | one dish's list joins the union exactly when it shares no name with it, and the union keeps both sides' entries |
| Meals.AddListsSucceeds | src/parasect/build_lib.py:414-424 | collecting succeeds exactly when no name appears in two lists |
| Meals.AddListsKeys | src/parasect/build_lib.py:414-424 | a successful collection holds the names of every list and no others |
| Meals.AddListsKeeps | src/parasect/build_lib.py:414-424 | a successful collection keeps what it started from |
| Meals.AddListsValue | src/parasect/build_lib.py:414-424 | a successful collection stores each dish's entries as the dish gave them |
| Meals.FlattenOutcome | src/parasect/build_lib.py:406-426 | `collect_parameter_lists` succeeds exactly when no two dishes share an ingredient, a blacklisted parameter or a blacklisted group |
| Meals.AdoptAndAddKeys | src/parasect/build_lib.py:479-495 | with a default list every edit must be a default parameter; the result holds the old names and the edited ones |
| Meals.AdoptAndAddTypes | src/parasect/build_lib.py:482-489 | each parameter introduced carries the type of its default |
| Meals.EditsWithoutAddNew | src/parasect/build_lib.py:466-472 | without `add_new` every edited name must already be present (`KeyError` otherwise), and the key set does not change |
| Meals.EditsWithAddNew | src/parasect/build_lib.py:473-495 | with `add_new` and a default list, the edited names are default names and are added to the key set |
| Meals.EditsWithAddNewTypes | src/parasect/build_lib.py:482-489 | with `add_new` and a default list, each new parameter takes its default's type |
| Meals.BlacklistComplete | src/parasect/build_lib.py:428-440 | after blacklist removal no entry has a blacklisted group or name, and every other entry survives unchanged |
| Meals.BlacklistedNames | src/parasect/build_lib.py:432-436 | the names removed are exactly those whose group or name is blacklisted |
| Meals.DropBlacklisted | src/parasect/build_lib.py:428-440 | blacklist removal is the list minus those names |
| Meals.RemoveStapleOutcome | src/parasect/build_lib.py:442-458 | stripping a staple dish succeeds exactly when the list holds all its names, then removes those and nothing else; otherwise `KeyError` |
| Meals.Autostart | src/parasect/build_lib.py:329-330 | `SYS_AUTOSTART` with the frame id as value, typed INT32 |
| Meals.AutostartAdded | src/parasect/build_lib.py:328-331 | adding it fails with `KeyError` exactly when new names are not allowed and it is absent; otherwise it holds the frame id, and keeps an existing entry's type |
| Meals.AutostartPresent | src/parasect/build_lib.py:266-331 | a built meal holds `SYS_AUTOSTART` equal to its frame id, which is 0 when the entry gives none |
| Meals.MealOfSetup | src/parasect/build_lib.py:246-307 | a built meal shows the name, header, footer and flags its setup read |
| Meals.ParentSetup | src/parasect/build_lib.py:273-289 | with a parent, the parent is built one level deeper, its header and footer are inherited unless overridden, the base list is the parent's, and `add_new` is false unless explicit |
| Meals.StandaloneMeal | src/parasect/build_lib.py:279-289 | with neither a parent nor a default file, a meal starts empty and may add parameters |
| Meals.AddAllKeyedByName | src/parasect/_helpers.py:524-525 | repeated `add_param` keeps every entry under its name |
| Meals.AdoptAndAddKeyedByName | src/parasect/build_lib.py:479-495 | adopting a default's type keeps entries under their names |
| Meals.RemoveAllKeyedByName | src/parasect/_helpers.py:545-551 | removals keep the remaining entries under their names |
| Meals.EditsKeyedByName | src/parasect/build_lib.py:460-495 | `apply_edits` keeps entries under their names |
| Meals.MealParamsKeyedByName | src/parasect/build_lib.py:309-331 | the edits, removals and `SYS_AUTOSTART` keep entries under their names |
| Meals.SetupKeyedByName | src/parasect/build_lib.py:279-283 | the list a meal starts from is keyed by name |
| Meals.MealKeyedByName | src/parasect/build_lib.py:246-331 | every parameter of a built meal sits under its own name |
| MealBuild.AddEach | src/parasect/build_lib.py:416-418 | the loop of `add_param` calls leaves the target as the repeated addition specifies, or returns its exception |
| MealBuild.AddNamed | src/parasect/build_lib.py:416-418 | the same loop, walked over the sorted names |
| MealBuild.AdoptEach | src/parasect/build_lib.py:479-495 | the `add_new` loop of `apply_edits` leaves the target as `AdoptAndAdd` specifies |
| MealBuild.AdoptNamed | src/parasect/build_lib.py:479-495 | the same loop, walked over the sorted names |
| MealBuild.RemoveEach | src/parasect/build_lib.py:448-449 | the staple-removal loop leaves the target as the sorted removals specify |
| MealBuild.RemoveNamed | src/parasect/build_lib.py:448-449 | the same loop, walked over the names |
| MealBuild.Meal.Blank | src/parasect/build_lib.py:230-255 | a new meal with the class defaults |
| MealBuild.Meal.ReadOptions | src/parasect/build_lib.py:263-307 | the stages up to `decide_on_operator` leave the meal showing `MealSetup` (parent, base list, header, footer, flags), or return its exception |
| MealBuild.Meal.Configure | src/parasect/build_lib.py:285-307 | the option stages after the base list leave the meal showing `OptionsWith` |
| MealBuild.Meal.SetBase | src/parasect/build_lib.py:279-283 | the parent's own list object, or the default list read anew, or a new empty list |
| MealBuild.Meal.ReadFlags | src/parasect/build_lib.py:285-307 | header, footer, modes and removal flags as `OptionsWith` records them |
| MealBuild.Meal.ReadModes | src/parasect/build_lib.py:293-303 | each of `sitl`, `hitl` and `add_new` overrides its field when present, else the field keeps its value |
| MealBuild.Meal.ParseParent | src/parasect/build_lib.py:333-351 | a parent meal is built and shown exactly when `ParentOf` gives one, or its exception is returned |
| MealBuild.Meal.LoadBaseParameters | src/parasect/build_lib.py:372-382 | the parent's list object or the default list; without either, "Default parameters path not set." |
| MealBuild.Meal.ParseHeaderFooter | src/parasect/build_lib.py:353-370 | header and footer become what `HeaderFooter` gives |
| MealBuild.Meal.DecideOnCalibration | src/parasect/build_lib.py:384-393 | the calibration flag becomes what `DecideFlag` gives |
| MealBuild.Meal.DecideOnOperator | src/parasect/build_lib.py:395-404 | the operator flag becomes what `DecideFlag` gives |
| MealBuild.Meal.CollectDishes | src/parasect/build_lib.py:497-537 | one dish object per custom-dish key, in key order, holding the specified lists |
| MealBuild.Meal.ApplyEdits | src/parasect/build_lib.py:460-495 | the meal's list becomes what `Meals.ApplyEdits` gives, or the exception is returned |
| MealBuild.Meal.RemoveBlacklist | src/parasect/build_lib.py:428-440 | the meal's list becomes the list with the blacklisted entries gone |
| MealBuild.Meal.RemoveBlacklistedIn | src/parasect/build_lib.py:432-440 | the loop over a key snapshot removes exactly the blacklisted names visited |
| MealBuild.Meal.RemoveCalibration | src/parasect/build_lib.py:442-449 | with the flag set, the calibration dish's names are removed (`KeyError` if one is missing); otherwise nothing changes |
| MealBuild.Meal.RemoveOperator | src/parasect/build_lib.py:451-458 | the same for the operator dish |
| MealBuild.Meal.Cook | src/parasect/build_lib.py:309-331 | the stages from `collect_dishes` to `SYS_AUTOSTART` leave the list as `MealParams` specifies |
| MealBuild.Meal.Trim | src/parasect/build_lib.py:309-325 | the stages from `collect_dishes` to `remove_operator` leave the list as `Trimmed` specifies |
| MealBuild.RemoveStapleDish | src/parasect/build_lib.py:442-458 | the target becomes `RemoveStaple` of its old entries, or the exception is returned |
| MealBuild.NewMeal | src/parasect/build_lib.py:246-331 | `Meal(...)` gives a new meal showing `MealSpec`; a parent meal shares its list object with the child |
| Export.Terminated | src/parasect/build_lib.py:583-584 | each row is followed by a line break |
| Export.VariantText | src/parasect/build_lib.py:592-598 | the meal's variant rows; none without a variant name or without variants; `KeyError` for an unknown name |
| Export.BuildHeaderFooter | src/parasect/build_lib.py:570-599 | global rows, then format rows, then variant rows, each with a line break; an unknown format or variant is a `KeyError` |
| Export.TypeCode | src/parasect/build_lib.py:619-627 | FLOAT is 9, INT32 is 6, anything else is a `TypeError`, and only those two succeed |
| Export.ParamLine | src/parasect/build_lib.py:616-631 | a line ends in a line break; the value is printed first, so its error comes first; a PX4 line also needs a type code |
| Export.ParamLines | src/parasect/build_lib.py:616-631 | one line per name in the given order, or the error of a failing line |
| Export.AirframeVersion | src/parasect/build_lib.py:635-644 | version 1 is `set`/px4afv1, version 2 `set-default`/px4afv2, anything else a `ValueError` |
| Export.BuildFilename | src/parasect/build_lib.py:738-750 | `name.csv`, `name.params`, or `frameid_name` with `.hil` exactly for HITL |
| Export.CoveringLines | src/parasect/build_lib.py:616-631 | lines over names that cover the list exist exactly when every parameter has a line |
| Export.SortedLines | src/parasect/build_lib.py:616-617 | a meal's lines follow its names in strictly ascending order, one per parameter |
| Export.ExportPx4Layout | src/parasect/build_lib.py:609-631 | the px4 header followed by the lines, with no footer; it succeeds only when every parameter is FLOAT or INT32 |
| Export.ExportPx4Untyped | src/parasect/build_lib.py:619-627 | an untyped parameter makes the PX4 export fail with `TypeError` |
| Export.PrintableLinesFail | src/parasect/build_lib.py:619-627 | lines of printable values fail only with `TypeError` |
| Export.FreeOfSeparators | src/parasect/build_lib.py:631 | printed ids hold no tab, comma or underscore |
| Export.Px4LineFields | src/parasect/build_lib.py:631 | a PX4 line split on tabs gives back vid, cid, name, value and type code |
| Export.Px4LineReadBack | src/parasect/build_lib.py:631 | the tab reader decodes a written PX4 line to the same name, ids and type, and to the same value for INT32 |
| Export.CsvLineReadBack | src/parasect/build_lib.py:693 | a CSV line splits on ',' into name and value; the comma reader accepts it exactly when the value parses, and keeps the name |
| Export.AirframeIndentation | src/parasect/build_lib.py:651-659 | an airframe line starts with a tab exactly when the meal is not SITL |
| Export.ExportPx4afLayout | src/parasect/build_lib.py:633-664 | header, `param` lines, footer; an unknown version is a `ValueError`; the lines exist exactly when every value prints |
| Export.ExportCsvLayout | src/parasect/build_lib.py:680-698 | header, `NAME,value` lines, footer, succeeding exactly when all three do |
| Export.LineErrors | src/parasect/build_lib.py:609-698 | lines fail only with the `ValueError` of an unprintable value or, in a PX4 file, a `TypeError` |
| Export.MealLineErrors | src/parasect/build_lib.py:609-698 | a meal's lines fail only as `LineErrors` says |
| Export.ExportErrors | src/parasect/build_lib.py:700-711 | an export fails only with `KeyError`, `ValueError` or, for PX4, `TypeError` |
| Export.AirframeFilenameFrameId | src/parasect/build_lib.py:745 | the airframe file name begins with the frame id up to its first underscore |
| Compare.IdsOfSnoc | src/parasect/compare_lib.py:84-88 | one more parameter adds its vehicle id with its component id, or adds the component id to that vehicle's set |
| Compare.VidOrderFacts | src/parasect/compare_lib.py:66-90 | the dictionary's key order lists every vehicle id once |
| Compare.CollectVidCid | src/parasect/compare_lib.py:66-90 | the id map and its key order of the first list's parameters followed by the second's |
| Compare.CollectIds | src/parasect/compare_lib.py:82-88 | the loop builds the id map and its first-occurrence key order |
| Compare.ItemsAreValues | src/parasect/compare_lib.py:83 | the parameters iterated are the list's values |
| Compare.IdsOfMeaning | src/parasect/compare_lib.py:66-90 | a vehicle id maps to a component id exactly when some parameter carries both; no set is empty |
| Compare.IdsMeaning | src/parasect/compare_lib.py:66-90 | the same over the two lists: an id pair is collected exactly when a parameter of either list carries it |
| Compare.ComparisonSpec1 | src/parasect/compare_lib.py:192-202 | true for no ids, false for both, `ValueError` for exactly one |
| Compare.ComparisonSpec2 | src/parasect/compare_lib.py:205-231 | `ValueError` when an id is missing; otherwise true exactly for a one-sided row whose parameter carries both ids |
| Compare.ComparisonSpec3 | src/parasect/compare_lib.py:234-255 | `ValueError` when an id is missing; otherwise true exactly for a two-sided row whose parameters both carry both ids |
| Compare.ParamIdTestAsWrittenRejectsUnfiltered | src/parasect/compare_lib.py:180-184 | as written, a row fails with "vid must not be None" whenever no ids are requested, although the first spec says compare |
| Compare.ParamIdTestOutcome | src/parasect/compare_lib.py:151-189 | the filter fails only for a row without parameters or exactly one id; without ids it keeps every row; with both it keeps exactly the rows whose present parameters carry them |
| Compare.ParamIdTestAgrees | src/parasect/compare_lib.py:176-189 | with both ids given, the corrected filter and the code as written agree |
| Compare.PairForOutcome | src/parasect/compare_lib.py:107-146 | a name yields its row exactly when it is wanted (filter passed, and values differ if two-sided) |
| Compare.ComparePairsHalfIds | src/parasect/compare_lib.py:93-148 | a request with exactly one id fails with `ValueError` as soon as there is a name |
| Compare.ComparePairsIsFilter | src/parasect/compare_lib.py:93-148 | under a consistent request the walk never fails and keeps exactly the wanted names' rows, in order |
| Compare.FilterRowsMembers | src/parasect/compare_lib.py:107-146 | each row is the pair of a wanted name, `None` on the missing side, and every wanted name has a row |
| Compare.FilterRowsAscending | src/parasect/compare_lib.py:102-104 | the rows come in strictly ascending name order |
| Compare.CompareListsFacts | src/parasect/compare_lib.py:93-148 | rows in strictly ascending name order, each name from the union and wanted, each row the lists' entries, and every wanted name present |
| Compare.DefaultIdsNotComponentTwo | src/parasect/compare_lib.py:205-255 | with `cid=2`, lists whose parameters keep component id 1 give no rows |
| Compare.FilterRowsNoneWanted | src/parasect/compare_lib.py:93-148 | without a wanted name there are no rows |
| Compare.CompareParameterLists | src/parasect/compare_lib.py:93-148 | returns `CompareLists` of the two dictionaries |
| Compare.WalkNames | src/parasect/compare_lib.py:104-148 | the loop over the names computes the walk `ComparePairs`, stopping at the first failing name |
| Compare.CompareListsAsWrittenRejectsUnfiltered | src/parasect/compare_lib.py:93-148 | as written, a comparison without ids fails with "vid must not be None" as soon as either list has a parameter, while the intended filter succeeds |
| Compare.CompareListsAsWrittenAgrees | src/parasect/compare_lib.py:93-148 | with both ids given, the comparison as written equals the corrected one |
| Compare.RemoveStapleNames | src/parasect/compare_lib.py:41-48 | `l -= Staple().param_list` leaves both the old and new name holding the list without the staple names, sharing storage unless the list was empty |
| Compare.ComponentAnswer | src/parasect/compare_lib.py:60-61 | one more compared id pair extends the results by its comparison |
| Compare.CompareComponents | src/parasect/compare_lib.py:56-61 | the inner loop compares each component of a vehicle once, skipping those other than the requested one |
| Compare.CompareAllIds | src/parasect/compare_lib.py:54-61 | the outer loop visits each collected id pair of the requested component once, vehicle by vehicle in the dictionary's key order, and each result is that pair's comparison |
| Compare.RemoveStapleFromBoth | src/parasect/compare_lib.py:41-48 | one staple removed from both lists; when the staple load raises, the exception, with both lists untouched |
| Compare.StripBoth | src/parasect/compare_lib.py:40-48 | the optional calibration and operator removals on both lists; on an exception each list is untouched, or only calibration-stripped when the operator load is what raised |
| Compare.GetVehiclesComparison | src/parasect/compare_lib.py:25-63 | one result per id pair collected before the removals (of the requested component, if given), grouped by vehicle id in the order the ids first occur in the two lists, each being the comparison of the stripped lists; on an exception the caller's lists are untouched, or only calibration-stripped |
| CompareReport.FoldErrorStays | src/parasect/compare_lib.py:395-402 | once a list fails, the report's measuring fails with that error |
| CompareReport.WidestFold | src/parasect/compare_lib.py:278-298 | running maxima cover the start and every element, each column is attained, and the first failing element's error is the result |
| CompareReport.ColumnLengthsFacts | src/parasect/compare_lib.py:274-298 | every width is at least 1 and at least every name or printed value in its column; a pair without parameters is a `RuntimeError`, an unprintable value a `ValueError` |
| CompareReport.MeasurePair | src/parasect/compare_lib.py:282-296 | the widths of one pair, with its name from the first parameter when present |
| CompareReport.GetColumnLengths | src/parasect/compare_lib.py:274-298 | the loop with its three running maxima computes `ColumnLengths` |
| CompareReport.LineLayout | src/parasect/compare_lib.py:376 | three left-aligned columns, separators " : " and the divider, a line break, total length widths + 7 |
| CompareReport.ComparisonRowOutcome | src/parasect/compare_lib.py:342-376 | a row prints when a parameter is present and both cells print; no parameter is a `RuntimeError`; a missing value prints "X" |
| CompareReport.RowIsLine | src/parasect/compare_lib.py:354-376 | a printable row is the line of its name, its cells and its divider |
| CompareReport.ComparisonRowLayout | src/parasect/compare_lib.py:342-376 | a row whose fields fit has the divider at column name + value1 + 4 and shows the name and both values untruncated |
| CompareReport.LineBreaks | src/parasect/compare_lib.py:376 | a row of fields without line breaks is one line |
| CompareReport.RowBreaks | src/parasect/compare_lib.py:342-376 | a printed row holds one line break |
| CompareReport.RowsOk | src/parasect/compare_lib.py:335-338 | the rows print exactly when every row does |
| CompareReport.RowsBreaks | src/parasect/compare_lib.py:335-338 | the rows hold one line per pair |
| CompareReport.BannerBreaks | src/parasect/compare_lib.py:330-332 | the banner is three lines |
| CompareReport.ComparisonStringsFacts | src/parasect/compare_lib.py:301-339 | "" for an empty list; the ids come from the first pair's first parameter, else its second; a pair without parameters is a `ValueError`; then the banner and the rows |
| CompareReport.ComparisonStringsBreaks | src/parasect/compare_lib.py:301-339 | a section holds three lines more than it has rows, none when empty |
| CompareReport.GenerateComparisonStrings | src/parasect/compare_lib.py:301-339 | the method with its loop computes `ComparisonStrings` |
| CompareReport.BuildRows | src/parasect/compare_lib.py:335-338 | the row loop computes `Rows` |
| CompareReport.FileLabel | src/parasect/compare_lib.py:386-389 | a missing or empty file name becomes the list's default label |
| CompareReport.ReportWidthsFacts | src/parasect/compare_lib.py:391-402 | the widths start at 1 and the label lengths, cover every list's widths, and fail exactly when some list's do |
| CompareReport.FittingRow | src/parasect/compare_lib.py:342-376 | widths that fit a list make each row print, at full length with the divider aligned |
| CompareReport.FittingRows | src/parasect/compare_lib.py:301-339 | widths that fit a list make its section print |
| CompareReport.SectionsOk | src/parasect/compare_lib.py:413-416 | once the widths are found no section fails |
| CompareReport.ComparisonStringFacts | src/parasect/compare_lib.py:379-420 | headings, rule, sections, rule and "n parameters differ" with n the total row count; fails exactly when some list's widths do |
| CompareReport.HeadingLayout | src/parasect/compare_lib.py:407-410 | the heading shows "File comparison" and the labels untruncated, with '\|' after the first value column |
| CompareReport.RowsAligned | src/parasect/compare_lib.py:395-416 | every row of the report prints at the common widths, with its divider in one column |
| CompareReport.SectionsBreaks | src/parasect/compare_lib.py:413-416 | the sections hold three lines per non-empty list plus one per row |
| CompareReport.HeadingBreaks | src/parasect/compare_lib.py:410 | the heading is one line |
| CompareReport.RuleBreaks | src/parasect/compare_lib.py:411 | a rule is one line |
| CompareReport.CountLineBreaks | src/parasect/compare_lib.py:419 | the closing count is one line |
| CompareReport.ComparisonStringBreaks | src/parasect/compare_lib.py:379-420 | the report holds 4 + 3 per non-empty list + one per row line breaks |
| CompareReport.MeasureReport | src/parasect/compare_lib.py:391-404 | the first loop computes the report widths and the row count |
| CompareReport.BuildSections | src/parasect/compare_lib.py:413-416 | the second loop computes the sections |
| CompareReport.BuildComparisonString | src/parasect/compare_lib.py:379-420 | the method computes `ComparisonString` |
| CompareExamples.ColumnLengthsSecondOnly | tests/test_compare_lib.py:137-147 | P, P1, Q only in the second list give widths 2, 1, 2 |
| CompareExamples.ColumnLengthsFirstOnly | tests/test_compare_lib.py:149-159 | the same only in the first list give widths 2, 2, 1 |
| CompareExamples.SectionTitle | tests/test_compare_lib.py:169-187 | the second line of a default-id section is "Component 1-1:", whichever side the parameter is on |
| CompareExamples.OneRowWidths | tests/test_compare_lib.py:193-199 | one second-list row with default labels gives widths 1, 6, 6 |
| CompareExamples.DefaultHeading | tests/test_compare_lib.py:193-199 | those widths give the heading "File comparison : List 1 \| List 2" |
| CompareExamples.DefaultLabels | tests/test_compare_lib.py:193-199 | without file names the report opens with that heading |
| CompareExamples.TwoRowsWidths | tests/test_compare_lib.py:219-235 | two-digit values and labels "1", "2" give widths 3, 2, 2 |
| CompareExamples.ShortHeading | tests/test_compare_lib.py:219-235 | those widths give "File comparison : 1  \| 2 " |
| CompareExamples.ShortLabels | tests/test_compare_lib.py:219-235 | with labels "1" and "2" the report opens with that heading |

## Left out

- Logging, the `Borg`/`Logger`/`ConfigPaths` singletons, environment variables, the click command line, `make_folder`, `export_meal`, `build_helper`, `compare_helper` and `build_meals`: these are I/O and wiring around the core.
- YAML loading and pydantic validation (including `MealMenuModel._check_entries`, which looks at files on disk): documents arrive as `Documents` datatypes.
- The XML reader (`read_params_xml`, `build_param_from_xml`) relies on an XML parser. Its outcome on a file is an input. `Meals.DefaultFileKeyed` assumes it stores each parameter under its name, as its `add_param` calls do.
- `os.listdir` of the custom dishes folder, and the `Calibration()`/`Operator()` file loads: the dish names and the staple dishes are inputs.
- The digit-count computation and `f"{v:.{n}f}"` in `get_pretty_value`, and `values_differ` with its tolerances: floating-point formatting and comparison are the parameters `fixed` and `differ`.
- `get_param_from_str` also accepts the integer codes 6 and 9. `Parameters.GetParamFromStr` takes only a string tag, and the codes are handled in `Parameters.BuildParamFromQgc`.
- Parameter objects are values. A stored entry whose value `add_param` overwrites is a map update, so aliasing of `Parameter` objects between lists is not modelled. `apply_edits` writing the default's type into the caller's edited object is modelled only through the list it is added to.
- Python's recursion limit on chains of parents is the `fuel` argument. Running out of it gives `RecursionError`.
- Meals.FrameNumber: a non-integer `frame_id` (a string or null) is rejected with `TypeError` when `SYS_AUTOSTART` is built. Python instead stores the value and fails later, or never.
- Export.ExportAs / Export.BuildFilename: the `Formats` enum has no `csv`, `px4afv1` or `px4afv2` member, so `export` and `build_filename` as written raise `AttributeError` at their first comparison (`Formats.csv`), whatever format is asked for. The model dispatches over the intended format set {csv, px4, px4afv1, px4afv2}.
- `ReservedOptions` omits `hitl`, `add_new` and the `remove_*` keys; the reserved and staple names are inputs of the model.
- Generators: exports and readers are line and row sequences. Laziness, and output written before a later line fails, are not modelled.
- The order of the component ids inside one vehicle id follows Python's set iteration. The model leaves that order unspecified: `Compare.CompareComponents` states only that each requested pair is visited once. The order of the vehicle ids is stated.
- Meal state after an exception: a `Meal.__init__` that raises leaves no object behind to observe. The methods return the exception but do not describe the fields left half-set.
- Strings.Upper / Parameters.NewParameter: `str.upper()` is modelled on ASCII letters only. Python also maps other cased Unicode letters ('é' to 'É') and can lengthen a name ('ß' to "SS"); the model keeps every other character and the length.
- Compare.PairForOutcome: states one name's outcome under the intended id filter. With no ids requested, `compare_parameter_lists` as written fails there with `ValueError` (see Findings).
- Compare.ComparePairsIsFilter: states the walk under the intended id filter, so it promises rows for a request without ids where the code as written fails with `ValueError`.
- Compare.CompareListsFacts: promises a result for a request without ids. The code as written fails with `ValueError` once either list has a parameter, as `Compare.CompareListsAsWrittenRejectsUnfiltered` shows.
- Compare.CompareParameterLists: the method runs the intended filter. It equals the code as written whenever both ids are given, as they are from `get_vehicles_comparison` (`Compare.CompareListsAsWrittenAgrees`).
- Compare.GetVehiclesComparison requires the two lists to be different dictionary objects, as they are when read from two files.
- Column widths are unbounded integers; `f"{x:{n}}"` is modelled as padding that never truncates.
- Tests that call an API this source does not define (`cast_param_value`, a three-argument `Parameter`, keyword ids, `__contains__`) are not modelled.

## Findings

| source | as written | input that shows it | evidently intended | confidence | as-written member | corrected member |
|---|---|---|---|---|---|---|
| src/parasect/compare_lib.py:180-184 | `param_id_test` evaluates all three specs before combining them. With no ids requested, `comparison_spec_2` raises `ValueError("vid must not be None")`, so the filter never returns. | any row with at least one parameter and `vid=None, cid=None` | the first spec's True for "no ids" short-circuits, so every row is compared | not executed | Compare.ParamIdTestAsWrittenRejectsUnfiltered | Compare.ParamIdTestOutcome |
