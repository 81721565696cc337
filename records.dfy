/** The records the application reads from its database (types/expense.ts,
    types/source.ts, types/preferences.ts). A `null` column is `None`.
    Amounts and balances are JavaScript numbers, modelled as reals. */
module Records {
  import opened Js

  /** The category columns joined onto an expense row. */
  datatype CategoryRef = CategoryRef(id: string, name: string, color: string)

  /** The source columns joined onto an expense row. */
  datatype SourceRef = SourceRef(id: string, name: string, balance: real)

  datatype Expense = Expense(
    id: string,
    userId: string,
    amount: real,
    description: Option<string>,
    date: string,
    createdAt: string,
    category: Option<CategoryRef>,
    source: Option<SourceRef>)

  datatype Source = Source(id: string, userId: string, name: string, balance: real, createdAt: string)

  /** A category as the category form edits it (types/category.ts is not part of this model). */
  datatype Category = Category(id: string, name: string, color: string)

  datatype NumberFormat = Comma | Dot

  datatype Preferences = Preferences(
    id: string,
    userId: string,
    currency: string,
    numberFormat: NumberFormat,
    decimalLength: int,
    trackSources: bool,
    createdAt: string,
    updatedAt: string)
}
