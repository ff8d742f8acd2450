/** The ingredients page: the fetched rows split into the user's own ingredients and the shared defaults. */
module Ingredients {
  import opened Wrappers
  import opened Seqs

  /** A row of the ingredients table; `ownerId` is `None` for a shared default. */
  datatype IngredientRow = IngredientRow(id: string, name: string, unitType: string, ownerId: Option<string>)

  function RowName(row: IngredientRow): string { row.name }

  /** `item.owner_id && item.owner_id === userId`: an owner id that is present, not empty, and the user's. */
  function IsMine(userId: Option<string>): IngredientRow -> bool {
    (row: IngredientRow) => Truthy(row.ownerId) && row.ownerId == userId
  }

  /** `item.owner_id === null` */
  function IsShared(row: IngredientRow): bool { row.ownerId.None? }

  /** "Your ingredients". */
  function MyIngredients(rows: seq<IngredientRow>, userId: Option<string>): (r: seq<IngredientRow>)
    ensures forall x :: x in r <==> x in rows && x.ownerId.Some? && x.ownerId.value != "" && x.ownerId == userId
  {
    Filter(rows, IsMine(userId))
  }

  /** "Shared defaults". */
  function SharedIngredients(rows: seq<IngredientRow>): (r: seq<IngredientRow>)
    ensures forall x :: x in r <==> x in rows && x.ownerId == None
  {
    Filter(rows, IsShared)
  }

  /** No row is listed twice, and a row another user owns is listed nowhere. */
  lemma ListsDisjoint(rows: seq<IngredientRow>, userId: Option<string>, x: IngredientRow)
    ensures !(x in MyIngredients(rows, userId) && x in SharedIngredients(rows))
    ensures x.ownerId.Some? && x.ownerId != userId ==>
              x !in MyIngredients(rows, userId) && x !in SharedIngredients(rows)
  {
  }

  /** Signed out, the user owns nothing. */
  lemma SignedOutOwnsNothing(rows: seq<IngredientRow>)
    ensures MyIngredients(rows, None) == []
  {
    FilterNone(rows, IsMine(None));
  }

  /** Both lists keep the name order of the fetch, and are made of rows in fetch order. */
  lemma ListsKeepFetchOrder(rows: seq<IngredientRow>, userId: Option<string>, le: (string, string) -> bool)
    requires SortedBy(rows, RowName, le)
    ensures SortedBy(MyIngredients(rows, userId), RowName, le)
    ensures SortedBy(SharedIngredients(rows), RowName, le)
    ensures IsSubsequence(MyIngredients(rows, userId), rows) && IsSubsequence(SharedIngredients(rows), rows)
  {
    FilterSorted(rows, IsMine(userId), RowName, le);
    FilterSorted(rows, IsShared, RowName, le);
    FilterIsSubsequence(rows, IsMine(userId));
    FilterIsSubsequence(rows, IsShared);
  }
}
