/** The inventory page (src/pages/Inventory.tsx): the search filter over the
    loaded records and the guarded delete. */
module Inventory {
  import opened EquipmentTypes
  import opened Seqs
  import opened Strings
  import Storage
  import Auth

  /** What the search promises: the lower-cased term occurs in the
      lower-cased name, brand, serial number or assigned user. */
  ghost predicate KeptBySearch(item: Equipment, term: string)
  {
    var t := Lower(term);
    || IsSubstring(t, Lower(item.name))
    || IsSubstring(t, Lower(item.brand))
    || IsSubstring(t, Lower(item.serialNumber))
    || IsSubstring(t, Lower(item.assignedUser))
  }

  /** The predicate the page passes to `filter`. */
  predicate Matches(item: Equipment, term: string)
  {
    var t := Lower(term);
    || Includes(Lower(item.name), t)
    || Includes(Lower(item.brand), t)
    || Includes(Lower(item.serialNumber), t)
    || Includes(Lower(item.assignedUser), t)
  }

  /** The filtered list: exactly the records the search keeps, each as
      often as in the input, in their original order. */
  function SearchFilter(items: seq<Equipment>, term: string): (r: seq<Equipment>)
    ensures forall i :: 0 <= i < |r| ==> r[i] in items && KeptBySearch(r[i], term)
    ensures forall i :: 0 <= i < |items| && KeptBySearch(items[i], term) ==> items[i] in r
    ensures IsSubsequence(r, items)
    ensures forall x :: multiset(r)[x] == if KeptBySearch(x, term) then multiset(items)[x] else 0
  {
    FilterIsSubsequence(items, (item: Equipment) => Matches(item, term));
    forall x ensures multiset(Filter(items, (item: Equipment) => Matches(item, term)))[x]
                     == if Matches(x, term) then multiset(items)[x] else 0 {
      FilterMultiplicity(items, (item: Equipment) => Matches(item, term), x);
    }
    Filter(items, (item: Equipment) => Matches(item, term))
  }

  /** An empty search term keeps every record. */
  lemma EmptyTermKeepsAll(items: seq<Equipment>)
    ensures SearchFilter(items, "") == items
  {
    forall i | 0 <= i < |items| ensures Matches(items[i], "") {
      EmptyIsIncluded(Lower(items[i].name));
    }
    FilterKeepsAll(items, (item: Equipment) => Matches(item, ""));
  }

  /** The search ignores case: terms with the same lower-case form select
      the same records. */
  lemma SearchIgnoresCase(items: seq<Equipment>, term: string, term': string)
    requires Lower(term) == Lower(term')
    ensures SearchFilter(items, term) == SearchFilter(items, term')
  {
    FilterAgreeing(items, (item: Equipment) => Matches(item, term), (item: Equipment) => Matches(item, term'));
  }

  /** Searching the search result again with the same term changes nothing. */
  lemma SearchIsIdempotent(items: seq<Equipment>, term: string)
    ensures SearchFilter(SearchFilter(items, term), term) == SearchFilter(items, term)
  {
    var r := SearchFilter(items, term);
    FilterKeepsAll(r, (item: Equipment) => Matches(item, term));
  }

  /** The page's state: the loaded records, the ones on screen and the term. */
  class InventoryPage {
    var equipment: seq<Equipment>
    var filteredEquipment: seq<Equipment>
    var searchTerm: string

    /** Once effects have run, the screen shows the search result. */
    ghost predicate Valid()
      reads this
    {
      filteredEquipment == SearchFilter(equipment, searchTerm)
    }

    constructor ()
      ensures equipment == [] && filteredEquipment == [] && searchTerm == ""
      ensures Valid()
    {
      equipment := [];
      filteredEquipment := [];
      searchTerm := "";
    }

    /** The effect that re-filters whenever the term or the records change. */
    method ApplySearch()
      modifies this`filteredEquipment
      ensures filteredEquipment == SearchFilter(equipment, searchTerm)
    {
      filteredEquipment := SearchFilter(equipment, searchTerm);
    }

    /** Typing into the search box. */
    method SetSearchTerm(term: string)
      modifies this`searchTerm, this`filteredEquipment
      ensures searchTerm == term && Valid()
    {
      searchTerm := term;
      ApplySearch();
    }

    /** `loadEquipment`, followed by the filter effect it triggers. */
    method LoadEquipment(store: Storage.EquipmentStore)
      modifies this`equipment, this`filteredEquipment
      ensures equipment == store.equipment && Valid()
    {
      var data := store.GetEquipment();
      equipment := data;
      filteredEquipment := data;
      ApplySearch();
    }

    /** `handleDelete`: nothing at all without a signed-in user; otherwise
        delete as that user and reload. */
    method HandleDelete(store: Storage.EquipmentStore, user: Option<Auth.User>, id: string, entryId: string, timestamp: string)
      modifies this, store
      ensures user.None? ==> unchanged(this) && unchanged(store)
      ensures user.Some? ==>
        && store.State() == Storage.DeleteStep(old(store.State()), id, user.value.username, entryId, timestamp)
        && equipment == store.equipment && searchTerm == old(searchTerm) && Valid()
    {
      if user.Some? {
        store.DeleteEquipment(id, user.value.username, entryId, timestamp);
        LoadEquipment(store);
      }
    }
  }
}
