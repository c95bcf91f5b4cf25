/**
 * The root of a refinement (show_a_table/model/refiner/category_selector.py):
 * choose a category, list its attributes, and pick the refiner an
 * attribute's configured kind calls for. The `attributes` table of the
 * configuration file is a constructor argument.
 */
module CategorySelection {
  import opened Base
  import opened OrderedDict
  import opened Refiner

  /** `config["attributes"]`: per category name, the attribute names and their kinds, in file order. */
  type AttrTable = seq<(string, seq<(string, string)>)>

  /** Every level of the table is a dictionary. */
  predicate WellFormed(t: AttrTable) {
    IsDict(t) && forall i :: 0 <= i < |t| ==> IsDict(t[i].1)
  }

  const CategoryTitle := "カテゴリの選択"

  /** Which refiner `refiners` builds. */
  datatype Dispatched = DateRefinerFor(attr: string) | GeoRefinerFor(attr: string) | NoRefiner

  const Unimplemented: seq<string> := ["Free", "Number", "Data"]

  /** The kind dispatch of `refiners`, with `GeoRefiner` built without the attribute its constructor does not take. */
  function RefinerForKind(kind: string, attr: string): Result<Dispatched> {
    if kind == "Geo" then Ok(GeoRefinerFor(attr))
    else if kind == "Date" then Ok(DateRefinerFor(attr))
    else if kind == "Free" then Err(NotImplementedError)
    else if kind == "Number" then Err(NotImplementedError)
    else if kind == "Data" then Err(NotImplementedError)
    else Ok(NoRefiner)
  }

  /** The kind dispatch as written: `GeoRefiner(attr)` passes an argument `GeoRefiner.__init__` does not accept. */
  function RefinerForKindAsWritten(kind: string, attr: string): Result<Dispatched> {
    if kind == "Geo" then Err(TypeError)
    else if kind == "Date" then Ok(DateRefinerFor(attr))
    else if kind in Unimplemented then Err(NotImplementedError)
    else Ok(NoRefiner)
  }

  /**
   * `Date` builds a date refiner and `Geo` a geographic one for the
   * attribute; `Free`, `Number` and `Data` raise `NotImplementedError`; any
   * other kind gives `None`.
   */
  lemma RefinerForKindCases(kind: string, attr: string)
    ensures RefinerForKind(kind, attr) == Ok(DateRefinerFor(attr)) <==> kind == "Date"
    ensures RefinerForKind(kind, attr) == Ok(GeoRefinerFor(attr)) <==> kind == "Geo"
    ensures RefinerForKind(kind, attr).Err? <==> kind in Unimplemented
    ensures RefinerForKind(kind, attr).Err? ==> RefinerForKind(kind, attr).error == NotImplementedError
    ensures RefinerForKind(kind, attr) == Ok(NoRefiner) <==> kind !in ["Geo", "Date"] + Unimplemented
  {
  }

  /** As written only the `Geo` kind differs from the corrected dispatch: it raises `TypeError`. */
  lemma GeoDispatchAsWritten(kind: string, attr: string)
    ensures RefinerForKindAsWritten(kind, attr) == RefinerForKind(kind, attr) <==> kind != "Geo"
    ensures RefinerForKindAsWritten("Geo", attr) == Err(TypeError)
    ensures RefinerForKind("Geo", attr) == Ok(GeoRefinerFor(attr))
  {
  }

  /**
   * `config["attributes"][cat.name]`, in Python's evaluation order: the
   * missing `attributes` key first (`KeyError`), then a missing category
   * (`AttributeError` on `None.name`), then an unconfigured category (`KeyError`).
   */
  function CategoryTable(config: Option<AttrTable>, cat: Option<Category>): (r: Result<seq<(string, string)>>)
    ensures config.None? ==> r == Err(KeyError)
    ensures config.Some? && cat.None? ==> r == Err(AttributeError)
    ensures config.Some? && cat.Some? ==>
      if cat.value.Name() in Keys(config.value) then r == Ok(Get(config.value, cat.value.Name()).value)
      else r == Err(KeyError)
  {
    if config.None? then Err(KeyError)
    else if cat.None? then Err(AttributeError)
    else
      match Get(config.value, cat.value.Name())
      case None => Err(KeyError)
      case Some(t) => Ok(t)
  }

  /** Of a well-formed table, each category's entry is itself a dictionary. */
  lemma TableOfWellFormed(t: AttrTable, name: string)
    requires WellFormed(t) && name in Keys(t)
    ensures IsDict(Get(t, name).value)
  {
    var i :| 0 <= i < |t| && Keys(t)[i] == name;
    GetAt(t, i);
  }

  /** `CategorySelector`: the chosen category and what the refinement collected. */
  class CategorySelector {
    var cat: Option<Category>
    var attr: Option<string>
    var queries: seq<Query>
    const config: Option<AttrTable>

    ghost predicate Valid()
      reads this
    {
      config.Some? ==> WellFormed(config.value)
    }

    /** `CategorySelector()`, with the parsed configuration's `attributes` entry (`None` when it has none). */
    constructor(config: Option<AttrTable>)
      requires config.Some? ==> WellFormed(config.value)
      ensures Valid()
      ensures cat == None && attr == None && queries == []
      ensures this.config == config
    {
      cat := None;
      attr := None;
      queries := [];
      this.config := config;
    }

    /** `categories()`: the five category values, or `RuntimeError` once a category is chosen. */
    method Categories() returns (r: Result<Step>)
      ensures cat.Some? <==> r == Err(RuntimeError)
      ensures r.Ok? ==> r.value.Offer? && r.value.title == CategoryTitle
      ensures r.Ok? ==> |r.value.keys| == |AllCategories| && forall c: Category :: c.Value() in r.value.keys
      ensures r.Ok? ==> forall k :: k in r.value.keys ==> exists c: Category :: c.Value() == k
    {
      if cat.Some? {
        return Err(RuntimeError);
      }
      CategoryValuesInOrder();
      forall c: Category ensures c.Value() in CategoryValues {
        match c
        case Company => assert CategoryValues[0] == c.Value();
        case Airport => assert CategoryValues[1] == c.Value();
        case Person => assert CategoryValues[2] == c.Value();
        case City => assert CategoryValues[3] == c.Value();
        case Compound => assert CategoryValues[4] == c.Value();
      }
      forall k | k in CategoryValues ensures exists c: Category :: c.Value() == k {
        var i :| 0 <= i < |CategoryValues| && CategoryValues[i] == k;
        assert AllCategories[i].Value() == k;
      }
      r := Ok(Offer(CategoryTitle, CategoryValues));
    }

    /** `set_category(v)`: the category whose value is `v`, or none; never raises. */
    method SetCategory(v: string)
      modifies this`cat
      ensures cat.Some? ==> cat.value.Value() == v
      ensures cat.None? <==> forall c: Category :: c.Value() != v
    {
      cat := ValueOf(v);
    }

    /** `attributes()`: the names configured for the chosen category, in file order. */
    method Attributes() returns (r: Result<seq<string>>)
      requires Valid()
      ensures r.Ok? <==> config.Some? && cat.Some? && cat.value.Name() in Keys(config.value)
      ensures r.Ok? ==> r.value == Keys(Get(config.value, cat.value.Name()).value) && Distinct(r.value)
      ensures r.Err? ==> r.error == CategoryTable(config, cat).error
    {
      var t := CategoryTable(config, cat);
      if t.Err? {
        return Err(t.error);
      }
      TableOfWellFormed(config.value, cat.value.Name());
      r := Ok(Keys(t.value));
    }

    /** `refiners(attr)`: look up the attribute's kind and dispatch on it. */
    method Refiners(a: string) returns (r: Result<Dispatched>)
      ensures CategoryTable(config, cat).Err? ==> r == Err(CategoryTable(config, cat).error)
      ensures CategoryTable(config, cat).Ok? && a !in Keys(CategoryTable(config, cat).value) ==> r == Err(KeyError)
      ensures CategoryTable(config, cat).Ok? && a in Keys(CategoryTable(config, cat).value) ==>
        r == RefinerForKind(Get(CategoryTable(config, cat).value, a).value, a)
    {
      var t := CategoryTable(config, cat);
      if t.Err? {
        return Err(t.error);
      }
      var kind := Get(t.value, a);
      if kind.None? {
        return Err(KeyError);
      }
      r := RefinerForKind(kind.value, a);
    }
  }
}
