/** Documents: the shapes of parasect's YAML documents once they are parsed
    (dish files, header and footer boilerplate, the meals menu). Optional
    fields are `Option`s; a YAML mapping is a Dafny `map`, and the meals menu
    keeps the order of its keys because the build walks them in that order. */
module Documents {
  import opened Wrappers
  import opened Parameters

  /** `Allergens`: the parameters and the groups a dish removes. */
  datatype Allergens = Allergens(substances: Option<seq<Substance>>, groups: Option<seq<Substance>>)

  /** `Recipe`: parameters to set and allergens to remove. */
  datatype Recipe = Recipe(ingredients: Option<seq<Substance>>, allergens: Option<Allergens>)

  /** `Recipe()`. */
  const EmptyRecipe: Recipe := Recipe(None, None)

  /** `DishModel`: a common recipe and named variants, each a dish model. */
  datatype DishModel = DishModel(common: Option<Recipe>, variants: Option<map<string, DishModel>>)

  /** `FormatText`: boilerplate lines for one output format, with variants. */
  datatype FormatText = FormatText(common: Option<seq<string>>, variants: Option<map<string, FormatText>>)

  /** `BoilerplateText`: lines for every format and lines per format. */
  datatype BoilerplateText = BoilerplateText(common: Option<seq<string>>, formats: map<string, FormatText>)

  /** A value of a meals-menu entry: YAML null, an integer, a boolean or a string. */
  datatype EntryValue = Null | IntV(i: int) | BoolV(b: bool) | StrV(s: string)

  /** Python truthiness of an entry value. */
  predicate Truthy(v: EntryValue) {
    match v
    case Null => false
    case IntV(i) => i != 0
    case BoolV(b) => b
    case StrV(s) => s != ""
  }

  /** One meal of the menu: its keys in the order the YAML file lists them,
      and the value under each key. */
  datatype MealEntry = MealEntry(keys: seq<string>, values: map<string, EntryValue>) {
    /** Every listed key has a value, every value is listed, no key twice. */
    predicate WellFormed() {
      (forall k :: k in values ==> k in keys)
      && (forall i :: 0 <= i < |keys| ==> keys[i] in values)
      && forall i, j :: 0 <= i < j < |keys| ==> keys[i] != keys[j]
    }

    predicate Has(k: string) { k in values }

    /** `meal_dict[k]` for a listed key. */
    function Get(k: string): EntryValue {
      if k in values then values[k] else Null
    }
  }
}
