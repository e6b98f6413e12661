/**
 * The watchlist page's list transitions: adding a symbol with its company
 * name (refused when either is blank or the symbol is already listed, in
 * any letter case) and removing every item with a given symbol.
 */
module Watchlist {
  import opened Seqs
  import opened Js

  datatype Item = Item(symbol: string, name: string, addedAt: string)

  /** The list and the two input fields. */
  datatype Page = Page(watchlist: seq<Item>, newSymbol: string, newName: string)

  /** The toast the page shows. */
  datatype Toast = ErrorToast(text: string) | SuccessToast(text: string)

  const BlankInput := "Please enter both symbol and company name"

  function UpperSymbol(it: Item): string
  {
    ToUpper(it.symbol)
  }

  /** No two items have symbols that are equal once upper-cased. */
  predicate NoDuplicateSymbols(items: seq<Item>)
  {
    DistinctBy(items, UpperSymbol)
  }

  /** Some item's symbol equals `symbol` when both are upper-cased. */
  predicate Listed(items: seq<Item>, symbol: string)
  {
    exists i :: 0 <= i < |items| && ToUpper(items[i].symbol) == ToUpper(symbol)
  }

  /**
   * `addStock`, with `addedAt` the current time as an ISO string: a blank
   * symbol or name, or a listed symbol, leaves the page as it was; otherwise
   * the new item (symbol upper-cased but not trimmed, name trimmed) goes
   * first and the inputs are cleared.
   */
  function AddStock(page: Page, addedAt: string): (r: (Page, Toast))
    ensures Trim(page.newSymbol) == "" || Trim(page.newName) == "" ==>
              r == (page, ErrorToast(BlankInput))
    ensures Trim(page.newSymbol) != "" && Trim(page.newName) != "" && Listed(page.watchlist, page.newSymbol) ==>
              r == (page, ErrorToast(page.newSymbol + " is already in your watchlist"))
    ensures Trim(page.newSymbol) != "" && Trim(page.newName) != "" && !Listed(page.watchlist, page.newSymbol) ==>
              && r.0.watchlist == [Item(ToUpper(page.newSymbol), Trim(page.newName), addedAt)] + page.watchlist
              && r.0.newSymbol == "" && r.0.newName == ""
              && r.1 == SuccessToast(ToUpper(page.newSymbol) + " added to watchlist")
  {
    if Trim(page.newSymbol) == "" || Trim(page.newName) == "" then
      (page, ErrorToast(BlankInput))
    else if exists i :: 0 <= i < |page.watchlist| && ToUpper(page.watchlist[i].symbol) == ToUpper(page.newSymbol) then
      (page, ErrorToast(page.newSymbol + " is already in your watchlist"))
    else
      var item := Item(ToUpper(page.newSymbol), Trim(page.newName), addedAt);
      (Page([item] + page.watchlist, "", ""), SuccessToast(ToUpper(page.newSymbol) + " added to watchlist"))
  }

  /** `removeStock(symbol)`: drops the items whose symbol is exactly `symbol`, keeping the rest in order. */
  function RemoveStock(items: seq<Item>, symbol: string): (r: seq<Item>)
    ensures |r| <= |items|
    ensures forall it :: it in r <==> it in items && it.symbol != symbol
    ensures Subsequence(r, items)
    ensures r == Filter(items, (it: Item) => it.symbol != symbol)
  {
    var r := Filter(items, (it: Item) => it.symbol != symbol);
    FilterSubsequence(items, (it: Item) => it.symbol != symbol);
    forall it ensures it in r <==> it in items && it.symbol != symbol {
      FilterIn(items, (it: Item) => it.symbol != symbol, it);
    }
    r
  }

  // ----------------------------------------------------------- properties

  /** Adding never introduces two symbols that are equal once upper-cased. */
  lemma AddKeepsSymbolsDistinct(page: Page, addedAt: string)
    requires NoDuplicateSymbols(page.watchlist)
    ensures NoDuplicateSymbols(AddStock(page, addedAt).0.watchlist)
  {
    if Trim(page.newSymbol) != "" && Trim(page.newName) != "" && !Listed(page.watchlist, page.newSymbol) {
      var item := Item(ToUpper(page.newSymbol), Trim(page.newName), addedAt);
      ToUpperIdempotent(page.newSymbol);
      assert UpperSymbol(item) == ToUpper(page.newSymbol);
      DistinctByPrepend(item, page.watchlist, UpperSymbol);
    }
  }

  /** Removing keeps symbols distinct, since what remains is a subsequence. */
  lemma RemoveKeepsSymbolsDistinct(items: seq<Item>, symbol: string)
    requires NoDuplicateSymbols(items)
    ensures NoDuplicateSymbols(RemoveStock(items, symbol))
  {
    DistinctByFilter(items, UpperSymbol, (it: Item) => it.symbol != symbol);
  }

  /** Removing a symbol leaves no item with exactly that symbol, and removing again changes nothing. */
  lemma RemoveIdempotent(items: seq<Item>, symbol: string)
    ensures RemoveStock(RemoveStock(items, symbol), symbol) == RemoveStock(items, symbol)
  {
    var r := RemoveStock(items, symbol);
    FilterKeepsAll(r, (it: Item) => it.symbol != symbol);
  }

  /** A symbol differing from a listed one only in letter case is refused. */
  lemma CaseInsensitiveDuplicate(page: Page, addedAt: string, i: nat)
    requires Trim(page.newSymbol) != "" && Trim(page.newName) != ""
    requires i < |page.watchlist| && ToUpper(page.watchlist[i].symbol) == ToUpper(page.newSymbol)
    ensures AddStock(page, addedAt).0 == page
  {
  }
}
