/** The values actions/category-actions.ts computes before it calls the database: the
    rows of addDefaultCategoriesAction and the `updates` object of updateCategoryAction. */
module CategoryActions {
  import opened Js
  import CategoryForm

  datatype CategoryTemplate = CategoryTemplate(name: string, color: string)

  const DefaultCategories: seq<CategoryTemplate> := [
    CategoryTemplate("Food", "#FF6347"),
    CategoryTemplate("Transport", "#4682B4"),
    CategoryTemplate("Utilities", "#FFD700"),
    CategoryTemplate("Entertainment", "#8A2BE2")
  ]

  /** A row inserted into the categories table. */
  datatype CategoryRow = CategoryRow(userId: string, name: string, color: string)

  /** `templates.map((category) => ({ user_id, name: category.name, color: category.color }))`. */
  function RowsFor(templates: seq<CategoryTemplate>, userId: string): (rows: seq<CategoryRow>)
    ensures |rows| == |templates|
    ensures forall i :: 0 <= i < |rows| ==>
      rows[i].userId == userId && rows[i].name == templates[i].name && rows[i].color == templates[i].color
  {
    if templates == [] then []
    else [CategoryRow(userId, templates[0].name, templates[0].color)] + RowsFor(templates[1..], userId)
  }

  /** The rows addDefaultCategoriesAction inserts for the signed-in user. */
  function DefaultCategoryRows(userId: string): seq<CategoryRow> {
    RowsFor(DefaultCategories, userId)
  }

  /** Every default has a name and a colour the category form accepts. */
  lemma DefaultCategoriesValid()
    ensures forall i :: 0 <= i < |DefaultCategories| ==>
      DefaultCategories[i].name != "" && CategoryForm.IsHexColor(DefaultCategories[i].color)
  {
  }

  /** Four rows, in the order of the defaults, all owned by the same user, and every one
      would pass the category form's schema. */
  lemma DefaultCategoryRowsShape(userId: string)
    ensures |DefaultCategoryRows(userId)| == 4
    ensures forall i :: 0 <= i < 4 ==>
      DefaultCategoryRows(userId)[i] == CategoryRow(userId, DefaultCategories[i].name, DefaultCategories[i].color)
    ensures forall i :: 0 <= i < 4 ==>
      CategoryForm.CategoryIssues(CategoryForm.CategoryFormData(DefaultCategoryRows(userId)[i].name, DefaultCategoryRows(userId)[i].color)) == []
  {
    var rows := DefaultCategoryRows(userId);
    DefaultCategoriesValid();
    forall i | 0 <= i < 4
      ensures CategoryForm.CategoryIssues(CategoryForm.CategoryFormData(rows[i].name, rows[i].color)) == []
    {
      CategoryForm.CategoryAccepted(CategoryForm.CategoryFormData(rows[i].name, rows[i].color));
    }
  }

  /** updateCategoryAction's `updates`: start from `{}`, then set `name` and `color`
      only when the argument is truthy (present and non-empty). Empty or absent
      arguments give the empty update, so the action cannot clear a field. */
  method CategoryUpdates(name: Option<string>, color: Option<string>) returns (updates: map<string, string>)
    ensures updates.Keys <= {"name", "color"}
    ensures "name" in updates <==> name.Some? && name.value != ""
    ensures "color" in updates <==> color.Some? && color.value != ""
    ensures "name" in updates ==> updates["name"] == name.value
    ensures "color" in updates ==> updates["color"] == color.value
    ensures (name.None? || name.value == "") && (color.None? || color.value == "") ==> updates == map[]
  {
    updates := map[];
    if name.Some? && name.value != "" {
      updates := updates["name" := name.value];
    }
    if color.Some? && color.value != "" {
      updates := updates["color" := color.value];
    }
  }
}
