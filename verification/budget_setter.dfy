/**
 * The budget settings panel (my-app/src/components/BudgetSetter.tsx): the
 * edited budget map, the category being saved, and the set of categories
 * marked as saved. Each POST to the server is recorded in `posts` and each
 * `onBudgetUpdate` call in `reports`; whether a POST succeeds is a parameter.
 */
module BudgetSetter {
  import opened Wrappers
  import opened Js
  import Records
  import Categories

  /** The body of one `POST /api/budgets`. */
  datatype Post = Post(category: string, amount: real, month: int, year: int)

  /** One `onBudgetUpdate(category, amount)` call. */
  datatype Report = Report(category: string, amount: real)

  /** The `saving` marker of a save of every category. */
  const All: string := "all"

  /** The POST bodies for the categories `cs`, in order. */
  function PostsFor(budgets: Records.Record, cs: seq<string>, month: int, year: int): (ps: seq<Post>)
    ensures |ps| == |cs|
    ensures forall i :: 0 <= i < |cs| ==> ps[i] == Post(cs[i], Records.Lookup(budgets, cs[i]), month, year)
  {
    seq(|cs|, i requires 0 <= i < |cs| => Post(cs[i], Records.Lookup(budgets, cs[i]), month, year))
  }

  /** The reports for the categories `cs`, in order. */
  function ReportsFor(budgets: Records.Record, cs: seq<string>): (rs: seq<Report>)
    ensures |rs| == |cs|
    ensures forall i :: 0 <= i < |cs| ==> rs[i] == Report(cs[i], Records.Lookup(budgets, cs[i]))
  {
    seq(|cs|, i requires 0 <= i < |cs| => Report(cs[i], Records.Lookup(budgets, cs[i])))
  }

  /** One more category adds its POST at the end. */
  lemma PostsForSnoc(budgets: Records.Record, cs: seq<string>, c: string, month: int, year: int)
    ensures PostsFor(budgets, cs + [c], month, year)
      == PostsFor(budgets, cs, month, year) + [Post(c, Records.Lookup(budgets, c), month, year)]
  {
    assert (cs + [c])[|cs|] == c;
  }

  /** One more category adds its report at the end. */
  lemma ReportsForSnoc(budgets: Records.Record, cs: seq<string>, c: string)
    ensures ReportsFor(budgets, cs + [c]) == ReportsFor(budgets, cs) + [Report(c, Records.Lookup(budgets, c))]
  {
    assert (cs + [c])[|cs|] == c;
  }

  /** `new Set(categories)`: every offered category, each counted once, so
      the set is as large as the list. */
  function AllCategories(): (s: set<string>)
    ensures forall c :: c in s <==> c in Categories.Categories
    ensures |s| == |Categories.Categories|
  {
    Categories.CategoriesShape();
    Categories.DistinctCount(Categories.Categories);
    set c | c in Categories.Categories
  }

  /** The total of the amounts posted. */
  function PostedTotal(ps: seq<Post>): real {
    if ps == [] then 0.0 else PostedTotal(ps[..|ps| - 1]) + ps[|ps| - 1].amount
  }

  /** The POSTs for a key list carry, in total, the lookups over that list. */
  lemma {:induction false} PostedTotalIsLookups(budgets: Records.Record, cs: seq<string>, month: int, year: int)
    ensures PostedTotal(PostsFor(budgets, cs, month, year)) == Records.SumLookups(budgets, cs)
  {
    if cs != [] {
      var init, last := cs[..|cs| - 1], cs[|cs| - 1];
      PostedTotalIsLookups(budgets, init, month, year);
      assert cs == init + [last];
      PostsForSnoc(budgets, init, last, month, year);
      var ps := PostsFor(budgets, init, month, year);
      assert (ps + [Post(last, Records.Lookup(budgets, last), month, year)])[..|ps|] == ps;
    }
  }

  /** Saving every budget posts, in total, the Total Budget figure less the
      values stored under keys that are not offered categories; when every
      key is an offered category the two are equal. */
  lemma FullSavePostsTotalBudget(budgets: Records.Record, month: int, year: int)
    requires Records.KeysUnique(budgets)
    ensures PostedTotal(PostsFor(budgets, Categories.Categories, month, year))
      == Records.SumValues(budgets) - Records.SumValues(Records.OtherKeys(budgets, Categories.Categories))
    ensures (forall i :: 0 <= i < |budgets| ==> budgets[i].key in Categories.Categories) ==>
      PostedTotal(PostsFor(budgets, Categories.Categories, month, year)) == Records.SumValues(budgets)
  {
    Categories.CategoriesShape();
    PostedTotalIsLookups(budgets, Categories.Categories, month, year);
    Records.SumValuesSplit(budgets, Categories.Categories);
    if forall i :: 0 <= i < |budgets| ==> budgets[i].key in Categories.Categories {
      Records.SumValuesAsLookups(budgets, Categories.Categories);
    }
  }

  class BudgetSettings {
    /** The period every POST is for. */
    const month: int
    const year: int
    /** `inputBudgets` */
    var inputBudgets: Records.Record
    /** `saving`: the category being saved, "all", or None (`null`). */
    var saving: Option<string>
    /** `savedCategories` */
    var savedCategories: set<string>
    /** The POSTs sent so far. */
    var posts: seq<Post>
    /** The `onBudgetUpdate` calls made so far. */
    var reports: seq<Report>

    /** A JavaScript object never holds a key twice. */
    ghost predicate Valid()
      reads this
    {
      Records.KeysUnique(inputBudgets)
    }

    /** The first render: the edited map starts as the `budgets` prop, nothing
        is being saved and nothing is marked saved. */
    constructor (budgets: Records.Record, month: int, year: int)
      requires Records.KeysUnique(budgets)
      ensures Valid()
      ensures this.month == month && this.year == year
      ensures inputBudgets == budgets && saving == None && savedCategories == {}
      ensures posts == [] && reports == []
    {
      this.month := month;
      this.year := year;
      inputBudgets := budgets;
      saving := None;
      savedCategories := {};
      posts := [];
      reports := [];
    }

    /** `totalBudget`: every value of the edited map. */
    function TotalBudget(): real
      reads this
    {
      Records.SumValues(inputBudgets)
    }

    /** `handleChange`: the category's entry becomes `Number(value) || 0`,
        every other entry stays, the category alone loses its saved mark, and
        the total moves by exactly the change of that entry. */
    method HandleChange(category: string, value: string)
      requires Valid()
      modifies this
      ensures Valid()
      ensures Records.Get(inputBudgets, category) == Some(OrZero(StringToNumber(value)))
      ensures forall k :: k != category ==> Records.Get(inputBudgets, k) == Records.Get(old(inputBudgets), k)
      ensures savedCategories == old(savedCategories) - {category}
      ensures TotalBudget() == old(TotalBudget()) - Records.Lookup(old(inputBudgets), category) + OrZero(StringToNumber(value))
      ensures saving == old(saving) && posts == old(posts) && reports == old(reports)
    {
      Records.SumAfterSet(inputBudgets, category, OrZero(StringToNumber(value)));
      Records.SetKeepsUnique(inputBudgets, category, OrZero(StringToNumber(value)));
      inputBudgets := Records.Set(inputBudgets, category, OrZero(StringToNumber(value)));
      savedCategories := savedCategories - {category};
    }

    /** `saveBudget`: POST the category's amount (`inputBudgets[category] || 0`);
        on success report it and mark the category saved, on failure change
        nothing else. Either way `saving` is cleared at the end. */
    method SaveBudget(category: string, postOk: bool)
      modifies this
      ensures posts == old(posts) + [Post(category, Records.Lookup(inputBudgets, category), month, year)]
      ensures postOk ==> reports == old(reports) + [Report(category, Records.Lookup(inputBudgets, category))]
      ensures postOk ==> savedCategories == old(savedCategories) + {category}
      ensures !postOk ==> reports == old(reports) && savedCategories == old(savedCategories)
      ensures saving == None && inputBudgets == old(inputBudgets)
    {
      saving := Some(category);
      var amount := Records.Lookup(inputBudgets, category);
      posts := posts + [Post(category, amount, month, year)];
      if postOk {
        reports := reports + [Report(category, amount)];
        savedCategories := savedCategories + {category};
      }
      saving := None;
    }

    /** `saveAllBudgets`: POST every offered category in list order, reporting
        each after its POST succeeds. `failAt` is the position of the first
        POST that fails (none fails when it is past the end). A failure stops
        the loop: the earlier categories stay reported and the saved marks are
        left as they were. Only a full run marks every category saved.
        `saving` is cleared at the end either way. */
    method SaveAllBudgets(failAt: nat)
      modifies this
      ensures failAt >= |Categories.Categories| ==>
        && posts == old(posts) + PostsFor(inputBudgets, Categories.Categories, month, year)
        && reports == old(reports) + ReportsFor(inputBudgets, Categories.Categories)
        && savedCategories == AllCategories()
      ensures failAt < |Categories.Categories| ==>
        && posts == old(posts) + PostsFor(inputBudgets, Categories.Categories[..failAt + 1], month, year)
        && reports == old(reports) + ReportsFor(inputBudgets, Categories.Categories[..failAt])
        && savedCategories == old(savedCategories)
      ensures saving == None && inputBudgets == old(inputBudgets)
    {
      saving := Some(All);
      var cats := Categories.Categories;
      for i := 0 to |cats|
        invariant i <= failAt
        invariant posts == old(posts) + PostsFor(inputBudgets, cats[..i], month, year)
        invariant reports == old(reports) + ReportsFor(inputBudgets, cats[..i])
        invariant savedCategories == old(savedCategories) && inputBudgets == old(inputBudgets)
      {
        var category := cats[i];
        var amount := Records.Lookup(inputBudgets, category);
        assert cats[..i + 1] == cats[..i] + [category];
        PostsForSnoc(inputBudgets, cats[..i], category, month, year);
        ReportsForSnoc(inputBudgets, cats[..i], category);
        posts := posts + [Post(category, amount, month, year)];
        if i == failAt {
          saving := None;
          return;
        }
        reports := reports + [Report(category, amount)];
      }
      assert cats[..|cats|] == cats;
      savedCategories := AllCategories();
      saving := None;
    }
  }

  /** Changing a category and saving it reports the parsed amount and marks
      that category saved again. */
  method ChangeThenSave(s: BudgetSettings, category: string, value: string)
    requires s.Valid()
    modifies s
    ensures s.reports == old(s.reports) + [Report(category, OrZero(StringToNumber(value)))]
    ensures category in s.savedCategories
  {
    s.HandleChange(category, value);
    s.SaveBudget(category, true);
  }
}
