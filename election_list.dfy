/** The election list page of the web client: the elections fetched from the
    backend, filtered by a search term on their titles, ten to a page. The
    component's state is a class; its effects and handlers are methods, each
    leaving the state as it is after React has run the effects they
    trigger. */
module ElectionList {
  import opened Common
  import opened Js

  const PageSize: nat := 10
  const UnexpectedFormat: string := "Unexpected data format. Please contact support."

  /** One election as the list shows it. */
  datatype Listed = Listed(electionId: string, title: string)

  /** What getElections() gave: an array, some other value, or an error. */
  datatype Fetched = Items(items: seq<Listed>) | NotAnArray | Failed(message: string)

  predicate OccursAt(s: string, part: string, i: nat)
  {
    i + |part| <= |s| && s[i..i + |part|] == part
  }

  /** String.prototype.includes. */
  predicate Contains(s: string, part: string)
  {
    exists i: nat :: i <= |s| && OccursAt(s, part, i)
  }

  /** The title filter: the lowercased title contains the lowercased,
      trimmed search term. */
  predicate Matches(e: Listed, searchTerm: string)
  {
    Contains(ToLower(e.title), Trim(ToLower(searchTerm)))
  }

  /** elections.filter(...): the matching elections in their original order. */
  function Filter(es: seq<Listed>, searchTerm: string): (r: seq<Listed>)
    ensures |r| <= |es|
  {
    if es == [] then []
    else Filter(es[..|es| - 1], searchTerm) + (if Matches(es[|es| - 1], searchTerm) then [es[|es| - 1]] else [])
  }

  /** An election is listed exactly when it matches. */
  lemma {:induction false} FilterMembers(es: seq<Listed>, searchTerm: string)
    ensures forall e :: e in Filter(es, searchTerm) <==> e in es && Matches(e, searchTerm)
  {
    if es != [] {
      FilterMembers(es[..|es| - 1], searchTerm);
      assert es == es[..|es| - 1] + [es[|es| - 1]];
    }
  }

  lemma {:induction false} FilterAll(es: seq<Listed>, searchTerm: string)
    requires forall j :: 0 <= j < |es| ==> Matches(es[j], searchTerm)
    ensures Filter(es, searchTerm) == es
  {
    if es != [] {
      FilterAll(es[..|es| - 1], searchTerm);
      assert es == es[..|es| - 1] + [es[|es| - 1]];
    }
  }

  /** A search term of white space only keeps every election. */
  lemma BlankTermKeepsAll(es: seq<Listed>, searchTerm: string)
    requires AllSpace(searchTerm)
    ensures Filter(es, searchTerm) == es
  {
    var lowered := ToLower(searchTerm);
    assert forall i :: 0 <= i < |lowered| ==> lowered[i] == searchTerm[i];
    TrimBlank(lowered);
    forall j | 0 <= j < |es|
      ensures Matches(es[j], searchTerm)
    {
      assert OccursAt(ToLower(es[j].title), [], 0);
    }
    FilterAll(es, searchTerm);
  }

  /** filtered.slice((page - 1) * 10, page * 10), clamped to the list. */
  function Page(fs: seq<Listed>, page: nat): (r: seq<Listed>)
    requires page >= 1
  {
    fs[Clamp((page - 1) * PageSize, |fs|)..Clamp(page * PageSize, |fs|)]
  }

  /** An index cut down to the length of the list, as slice() does. */
  function Clamp(i: nat, n: nat): (r: nat)
    ensures r <= n && (r == i || (r == n && n < i))
  {
    if i < n then i else n
  }

  /** Math.ceil(filtered.length / 10): the number of page buttons. */
  function PageCount(n: nat): (k: nat)
    ensures k * PageSize >= n && (k == 0 || (k - 1) * PageSize < n)
  {
    (n + PageSize - 1) / PageSize
  }

  /** A page holds at most ten elections, each of them from the filtered list
      at its position. */
  lemma PageBounds(fs: seq<Listed>, page: nat)
    requires page >= 1
    ensures |Page(fs, page)| <= PageSize
    ensures forall j :: 0 <= j < |Page(fs, page)| ==> Page(fs, page)[j] == fs[(page - 1) * PageSize + j]
  {
  }

  /** Every page past the last button is empty; every button's page is not. */
  lemma PagesInRange(fs: seq<Listed>, page: nat)
    requires page >= 1
    ensures Page(fs, page) != [] <==> page <= PageCount(|fs|)
  {
  }

  /** Pages 1 .. k, one after the other. */
  function Pages(fs: seq<Listed>, k: nat): seq<Listed>
  {
    if k == 0 then [] else Pages(fs, k - 1) + Page(fs, k)
  }

  /** Pages 1 .. k are the list up to the end of page k, or all of it. */
  lemma {:induction false} PagesUpTo(fs: seq<Listed>, k: nat)
    ensures Pages(fs, k) == fs[..Clamp(k * PageSize, |fs|)]
  {
    if k > 0 {
      PagesUpTo(fs, k - 1);
      var a, b := Clamp((k - 1) * PageSize, |fs|), Clamp(k * PageSize, |fs|);
      assert (k - 1) * PageSize <= k * PageSize;
      assert Page(fs, k) == fs[a..b];
      assert fs[..b] == fs[..a] + fs[a..b];
    }
  }

  /** Concatenating the pages of all buttons gives back the filtered list. */
  lemma AllPages(fs: seq<Listed>)
    ensures Pages(fs, PageCount(|fs|)) == fs
  {
    PagesUpTo(fs, PageCount(|fs|));
    assert fs[..|fs|] == fs;
  }

  class ElectionListView {
    var elections: seq<Listed>
    var filtered: seq<Listed>
    var searchTerm: string
    var currentPage: nat
    var loading: bool
    var error: Option<string>

    /** Once the filter effect has run, the filtered list is the filter of the
        elections by the search term, and the page number is at least 1 (with
        an empty list page 1 has no button and shows nothing). */
    ghost predicate Valid()
      reads this
    {
      filtered == Filter(elections, searchTerm) && currentPage >= 1
    }

    constructor ()
      ensures Valid()
      ensures elections == [] && filtered == [] && searchTerm == "" && currentPage == 1
      ensures loading && error == None
    {
      elections := [];
      filtered := [];
      searchTerm := "";
      currentPage := 1;
      loading := true;
      error := None;
    }

    /** The elections on the current page: paginatedElections. */
    function Visible(): (r: seq<Listed>)
      reads this
      requires Valid()
      ensures |r| <= PageSize
      ensures forall e :: e in r ==> e in elections && Matches(e, searchTerm)
    {
      PageBounds(filtered, currentPage);
      FilterMembers(elections, searchTerm);
      Page(filtered, currentPage)
    }

    /** The fetch effect: an array becomes the list (and the filter effect
        then runs on it, back at page 1); anything else sets the error and
        leaves the list as it was. Loading ends either way. */
    method OnFetched(data: Fetched)
      requires Valid()
      modifies this
      ensures Valid() && !loading && searchTerm == old(searchTerm)
      ensures data.Items? ==>
        && elections == data.items && filtered == Filter(data.items, searchTerm)
        && currentPage == 1 && error == old(error)
      ensures data.NotAnArray? ==>
        elections == old(elections) && filtered == old(filtered) && currentPage == old(currentPage)
        && error == Some(UnexpectedFormat)
      ensures data.Failed? ==>
        elections == old(elections) && filtered == old(filtered) && currentPage == old(currentPage)
        && error == Some("Failed to fetch elections: " + data.message)
    {
      match data {
        case Items(items) =>
          elections := items;
          filtered := Filter(items, searchTerm);
          currentPage := 1;
        case NotAnArray =>
          error := Some(UnexpectedFormat);
        case Failed(message) =>
          error := Some("Failed to fetch elections: " + message);
      }
      loading := false;
    }

    /** handleSearchChange, followed by the filter effect: the list is
        filtered again and the page goes back to 1. */
    method OnSearchChange(term: string)
      requires Valid()
      modifies this
      ensures Valid()
      ensures searchTerm == term && filtered == Filter(elections, term) && currentPage == 1
      ensures elections == old(elections) && loading == old(loading) && error == old(error)
    {
      searchTerm := term;
      filtered := Filter(elections, term);
      currentPage := 1;
    }

    /** handlePageChange, called by page button `page`. */
    method OnPageChange(page: nat)
      requires Valid() && page >= 1
      modifies this
      ensures Valid()
      ensures currentPage == page
      ensures elections == old(elections) && filtered == old(filtered) && searchTerm == old(searchTerm)
      ensures loading == old(loading) && error == old(error)
    {
      currentPage := page;
    }
  }
}
