/** The optional value used for JavaScript's `null` (a missing edit target, absent notes, `NaN`). */
module Wrappers {
  datatype Option<+T> = None | Some(value: T)
}

/** The expense record as the client receives it from the backend, and the fixed category list. */
module Expenses {
  import opened Wrappers

  /** The enumerated categories, in the order the form and the filter bar list them. */
  const Categories: seq<string> :=
    ["Food", "Rent", "Utilities", "Entertainment", "Travel", "Shopping", "Others"]

  /** The category a blank form starts with: the first of the list. */
  const DefaultCategory: string := Categories[0]

  /** A record as held by the client; `notes` may be absent. */
  datatype Expense = Expense(
    id: nat,
    title: string,
    amount: real,
    date: string,
    category: string,
    notes: Option<string>)
}
