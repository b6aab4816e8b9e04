/** `categoryTagColor`: the colour of the tag strip at the top of a card. */
module StateColor {
  import opened Outcome
  import opened TodoTypes

  const DefaultTag := "bg-slate-400"

  function CategoryName(c: Category): string {
    match c
    case Ainka => "Ainka"
    case Kuku => "Kuku"
    case Freelancer => "Freelancer"
    case Personal => "Personal"
    case Learning => "Learning"
    case Other => "Other"
  }

  /** The switch over the category's value (`None` for `undefined`);
      `'Other'`, `undefined` and any unknown value share the default. */
  function CategoryTagColor(category: Option<string>): (r: string)
    ensures |r| > 0
    ensures category == Some("Ainka") <==> r == "bg-blue-600"
    ensures category == Some("Kuku") <==> r == "bg-gray-500"
    ensures category == Some("Freelancer") <==> r == "bg-emerald-500"
    ensures category == Some("Personal") <==> r == "bg-purple-500"
    ensures category == Some("Learning") <==> r == "bg-sky-400"
    ensures r == DefaultTag <==>
      category.None? || category.value !in {"Ainka", "Kuku", "Freelancer", "Personal", "Learning"}
  {
    match category
    case None => DefaultTag
    case Some(name) =>
      match name
      case "Ainka" => "bg-blue-600"
      case "Kuku" => "bg-gray-500"
      case "Freelancer" => "bg-emerald-500"
      case "Personal" => "bg-purple-500"
      case "Learning" => "bg-sky-400"
      case _ => DefaultTag
  }

  /** The five named categories get pairwise different colours, none of them the default. */
  lemma NamedCategoriesDistinct(c: Category, d: Category)
    requires c != Other && d != Other && c != d
    ensures CategoryTagColor(Some(CategoryName(c))) != CategoryTagColor(Some(CategoryName(d)))
    ensures CategoryTagColor(Some(CategoryName(c))) != DefaultTag
  {
  }

  /** `Other`, a missing category and an unknown value are shown alike. */
  lemma OtherIsDefault(name: string)
    requires name !in {"Ainka", "Kuku", "Freelancer", "Personal", "Learning"}
    ensures CategoryTagColor(Some(name)) == CategoryTagColor(None) == CategoryTagColor(Some(CategoryName(Other)))
  {
  }
}
