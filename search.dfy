/**
 * The site-wide search overlay. Its state is whether it is open, the query
 * typed so far, the results shown and the highlighted result (-1 for none).
 * Cmd/Ctrl+K opens and closes it, Escape closes it, the arrow keys move the
 * highlight and Enter follows the highlighted result. The results are the
 * entries of a fixed catalogue whose title or description contains the query,
 * ignoring letter case.
 */
module Search {
  import opened Wrappers

  datatype SearchResult = SearchResult(id: string, title: string, description: string, url: string)

  /** The fixed catalogue the overlay searches. */
  const Catalogue: seq<SearchResult> := [
    SearchResult("1", "Basic Plan", "Our starter internet plan", "/#plans"),
    SearchResult("2", "Premium Plan", "High-speed fiber connection", "/#plans"),
    SearchResult("3", "Contact Support", "Get help with your service", "/contacts"),
    SearchResult("4", "Request Quote", "Get pricing for your area", "/quote")
  ]

  // ---------------------------------------------------------------------------
  // Case-insensitive substring matching
  // ---------------------------------------------------------------------------

  /** Lower-casing of one character (ASCII letters only). */
  function LowerChar(c: char): (r: char)
    ensures !('A' <= r <= 'Z')
    ensures !('A' <= c <= 'Z') ==> r == c
  {
    if 'A' <= c <= 'Z' then (c as int + 32) as char else c
  }

  /** The capital letters and their small letters, in the same order. */
  const Capitals: string := "ABCDEFGHIJKLMNOPQRSTUVWXYZ"
  const Smalls: string := "abcdefghijklmnopqrstuvwxyz"

  /** Each capital letter becomes its own small letter. */
  lemma LowerCharTable()
    ensures forall k :: 0 <= k < 26 ==> LowerChar(Capitals[k]) == Smalls[k]
  {
  }

  /** Lower-casing of a text: no capital letter is left, and nothing else changes. */
  function ToLower(s: string): (r: string)
    ensures |r| == |s|
    ensures forall i :: 0 <= i < |r| ==> !('A' <= r[i] <= 'Z')
    ensures forall i :: 0 <= i < |s| && !('A' <= s[i] <= 'Z') ==> r[i] == s[i]
  {
    seq(|s|, i requires 0 <= i < |s| => LowerChar(s[i]))
  }

  /** `needle` occurs in `hay` starting at position `i`. */
  predicate OccursAt(hay: string, needle: string, i: int)
  {
    0 <= i && i + |needle| <= |hay| && hay[i..i + |needle|] == needle
  }

  /** Substring test, scanning `hay` from the left: the empty text is in every text, and a found text fits. */
  predicate Includes(hay: string, needle: string)
    ensures needle == [] ==> Includes(hay, needle)
    ensures Includes(hay, needle) ==> |needle| <= |hay|
    decreases |hay|
  {
    (|needle| <= |hay| && hay[..|needle|] == needle) || (|hay| > 0 && Includes(hay[1..], needle))
  }

  /** The scan finds `needle` exactly when it occurs somewhere in `hay`. */
  lemma {:induction false} IncludesIff(hay: string, needle: string)
    ensures Includes(hay, needle) <==> exists i :: OccursAt(hay, needle, i)
    decreases |hay|
  {
    if |needle| <= |hay| && hay[..|needle|] == needle {
      assert OccursAt(hay, needle, 0);
    } else if |hay| > 0 {
      IncludesIff(hay[1..], needle);
      if Includes(hay[1..], needle) {
        var i :| OccursAt(hay[1..], needle, i);
        OccursShift(hay, needle, i);
      } else if exists i :: OccursAt(hay, needle, i) {
        var i :| OccursAt(hay, needle, i);
        assert i != 0;
        OccursShift(hay, needle, i - 1);
      }
    }
  }

  /** An occurrence in the tail of `hay` is an occurrence in `hay`, one position on. */
  lemma OccursShift(hay: string, needle: string, i: int)
    requires |hay| > 0 && i >= 0
    ensures OccursAt(hay[1..], needle, i) <==> OccursAt(hay, needle, i + 1)
  {
    if i + |needle| <= |hay| - 1 {
      assert hay[1..][i..i + |needle|] == hay[i + 1..i + 1 + |needle|];
    }
  }

  /** A needle whose first character is nowhere in `hay` is not in `hay`. */
  lemma {:induction false} FirstCharAbsent(hay: string, needle: string)
    requires |needle| > 0 && forall i :: 0 <= i < |hay| ==> hay[i] != needle[0]
    ensures !Includes(hay, needle)
    decreases |hay|
  {
    if |hay| > 0 {
      if |needle| <= |hay| {
        assert hay[..|needle|][0] == hay[0];
      }
      FirstCharAbsent(hay[1..], needle);
    }
  }

  /** An entry matches when its title or its description contains the query, ignoring case. */
  predicate Matches(item: SearchResult, query: string)
    ensures query == [] ==> Matches(item, query)
    ensures Matches(item, query) ==> |query| <= |item.title| || |query| <= |item.description|
  {
    Includes(ToLower(item.title), ToLower(query)) || Includes(ToLower(item.description), ToLower(query))
  }

  /** `Array.prototype.filter`: the entries of `items` that `keep` accepts, in their order. */
  function Filter<T>(items: seq<T>, keep: T -> bool): (r: seq<T>)
    ensures |r| <= |items|
    ensures forall k :: 0 <= k < |r| ==> r[k] in items && keep(r[k])
  {
    if items == [] then []
    else (if keep(items[0]) then [items[0]] else []) + Filter(items[1..], keep)
  }

  /**
   * `idx` lists, increasingly, the positions in `items` of the entries of `r`,
   * and a position is listed exactly when `keep` accepts its entry.
   */
  ghost predicate IsSelection<T>(r: seq<T>, items: seq<T>, keep: T -> bool, idx: seq<nat>)
  {
    Picks(r, items, idx) && Increasing(idx) && ListsAccepted(items, keep, idx)
  }

  /** Entry `k` of `r` is entry `idx[k]` of `items`. */
  ghost predicate Picks<T>(r: seq<T>, items: seq<T>, idx: seq<nat>)
  {
    |idx| == |r| && forall k :: 0 <= k < |idx| ==> idx[k] < |items| && r[k] == items[idx[k]]
  }

  ghost predicate Increasing(idx: seq<nat>)
  {
    forall k, l :: 0 <= k < l < |idx| ==> idx[k] < idx[l]
  }

  /** A position of `items` is listed in `idx` exactly when `keep` accepts its entry. */
  ghost predicate ListsAccepted<T>(items: seq<T>, keep: T -> bool, idx: seq<nat>)
  {
    forall j :: 0 <= j < |items| ==> (j in idx <==> keep(items[j]))
  }

  /** The filter keeps exactly the accepted entries, each once, in their order. */
  lemma {:induction false} FilterSelects<T>(items: seq<T>, keep: T -> bool) returns (idx: seq<nat>)
    ensures IsSelection(Filter(items, keep), items, keep, idx)
  {
    if items == [] {
      return [];
    }
    var rest := FilterSelects(items[1..], keep);
    idx := FilterSelectsStep(items, keep, rest);
  }

  /** The positions for the whole list, given the positions `rest` for its tail. */
  function ConsPositions<T>(items: seq<T>, keep: T -> bool, rest: seq<nat>): seq<nat>
    requires items != []
  {
    (if keep(items[0]) then [0] else []) + Shift(rest)
  }

  /** The inductive step of `FilterSelects`: from the tail's positions to the whole list's. */
  lemma FilterSelectsStep<T>(items: seq<T>, keep: T -> bool, rest: seq<nat>) returns (idx: seq<nat>)
    requires items != []
    requires IsSelection(Filter(items[1..], keep), items[1..], keep, rest)
    ensures IsSelection(Filter(items, keep), items, keep, idx)
  {
    idx := ConsPositions(items, keep, rest);
    ConsPositionsPick(items, keep, rest);
    ConsPositionsIncrease(items, keep, rest);
    ConsPositionsExact(items, keep, rest);
  }

  /** The consed positions pick the filter's entries. */
  lemma ConsPositionsPick<T>(items: seq<T>, keep: T -> bool, rest: seq<nat>)
    requires items != []
    requires Picks(Filter(items[1..], keep), items[1..], rest)
    ensures Picks(Filter(items, keep), items, ConsPositions(items, keep, rest))
  {
    assert items == [items[0]] + items[1..];
    PicksCons(items[0], items[1..], Filter(items[1..], keep), rest, keep(items[0]));
  }

  /** Positions into a list's tail, shifted past its head. */
  function Shift(rest: seq<nat>): (r: seq<nat>)
    ensures |r| == |rest| && forall k :: 0 <= k < |rest| ==> r[k] == rest[k] + 1
  {
    seq(|rest|, k requires 0 <= k < |rest| => rest[k] + 1)
  }

  /** Picking from a tail, with the head taken or not, is picking from the whole list. */
  lemma PicksCons<T>(x: T, tail: seq<T>, back: seq<T>, rest: seq<nat>, take: bool)
    requires Picks(back, tail, rest)
    ensures Picks((if take then [x] else []) + back, [x] + tail, (if take then [0] else []) + Shift(rest))
  {
    var items, sh := [x] + tail, Shift(rest);
    if take {
      var r, idx := [x] + back, [0] + sh;
      forall k | 0 <= k < |idx|
        ensures idx[k] < |items| && r[k] == items[idx[k]]
      {
        if k > 0 {
          assert idx[k] == rest[k - 1] + 1;
          assert r[k] == back[k - 1];
        }
      }
    } else {
      forall k | 0 <= k < |sh|
        ensures sh[k] < |items| && back[k] == items[sh[k]]
      {
        assert sh[k] == rest[k] + 1;
      }
    }
  }

  /** The consed positions increase. */
  lemma ConsPositionsIncrease<T>(items: seq<T>, keep: T -> bool, rest: seq<nat>)
    requires items != []
    requires Increasing(rest)
    ensures Increasing(ConsPositions(items, keep, rest))
  {
    var idx := ConsPositions(items, keep, rest);
    var h := if keep(items[0]) then 1 else 0;
    assert forall k :: h <= k < |idx| ==> idx[k] == rest[k - h] + 1;
  }

  /** A position is among the consed positions exactly when `keep` accepts its entry. */
  lemma ConsPositionsExact<T>(items: seq<T>, keep: T -> bool, rest: seq<nat>)
    requires items != []
    requires ListsAccepted(items[1..], keep, rest)
    ensures ListsAccepted(items, keep, ConsPositions(items, keep, rest))
  {
    var tail := items[1..];
    var idx := ConsPositions(items, keep, rest);
    var h := if keep(items[0]) then 1 else 0;
    forall j | 0 <= j < |items|
      ensures j in idx <==> keep(items[j])
    {
      if j == 0 {
        assert forall k :: h <= k < |idx| ==> idx[k] == rest[k - h] + 1;
      } else {
        assert items[j] == tail[j - 1];
        if j - 1 in rest {
          var k :| 0 <= k < |rest| && rest[k] == j - 1;
          assert idx[h + k] == j;
        }
        if j in idx {
          var k :| 0 <= k < |idx| && idx[k] == j;
          assert k >= h && idx[k] == rest[k - h] + 1;
        }
      }
    }
  }

  /** The catalogue filter of the query effect: a shorter list, of matching entries of `items`. */
  function FilterMatches(items: seq<SearchResult>, query: string): (r: seq<SearchResult>)
    ensures |r| <= |items|
    ensures forall k :: 0 <= k < |r| ==> r[k] in items && Matches(r[k], query)
  {
    Filter(items, item => Matches(item, query))
  }

  /**
   * What the overlay lists for a query: nothing for an empty query, else the
   * matching catalogue entries (see `SearchResultsAreCatalogueSelection`), so
   * never more than the catalogue.
   */
  function SearchResults(query: string): (r: seq<SearchResult>)
    ensures query == "" ==> r == []
    ensures |r| <= |Catalogue|
  {
    if query == "" then [] else FilterMatches(Catalogue, query)
  }

  /** Filters with the same test keep the same entries. */
  lemma {:induction false} FilterSameKeep<T>(items: seq<T>, keep: T -> bool, same: T -> bool)
    requires forall x :: keep(x) == same(x)
    ensures Filter(items, keep) == Filter(items, same)
  {
    if items != [] {
      FilterSameKeep(items[1..], keep, same);
    }
  }

  /** Lower-casing twice is lower-casing once. */
  lemma ToLowerIdempotent(s: string)
    ensures ToLower(ToLower(s)) == ToLower(s)
  {
    var t := ToLower(s);
    assert forall i :: 0 <= i < |t| ==> ToLower(t)[i] == t[i];
  }

  /** The letter case of the query does not change the results. */
  lemma QueryCaseIgnored(query: string)
    ensures SearchResults(ToLower(query)) == SearchResults(query)
  {
    if query != "" {
      ToLowerIdempotent(query);
      assert ToLower(query) != "";
      FilterSameKeep(Catalogue, item => Matches(item, ToLower(query)), item => Matches(item, query));
    }
  }

  /** `c` is letter number `k` of the alphabet, capital or small. */
  predicate SameLetter(c: char, k: int)
    requires 0 <= k < 26
  {
    c == Capitals[k] || c == Smalls[k]
  }

  /** Two queries that agree letter by letter up to case list the same results. */
  lemma CaseVariantsAgree(a: string, b: string)
    requires |a| == |b|
    requires forall i :: 0 <= i < |a| ==>
      a[i] == b[i] || exists k :: 0 <= k < 26 && SameLetter(a[i], k) && SameLetter(b[i], k)
    ensures SearchResults(a) == SearchResults(b)
  {
    LowerCharTable();
    assert ToLower(a) == ToLower(b);
    QueryCaseIgnored(a);
    QueryCaseIgnored(b);
  }

  /** The results for a non-empty query are exactly the matching catalogue entries, in catalogue order. */
  lemma SearchResultsAreCatalogueSelection(query: string) returns (idx: seq<nat>)
    requires query != ""
    ensures |idx| == |SearchResults(query)|
    ensures forall k :: 0 <= k < |idx| ==> idx[k] < |Catalogue| && SearchResults(query)[k] == Catalogue[idx[k]]
    ensures forall k, l :: 0 <= k < l < |idx| ==> idx[k] < idx[l]
    ensures forall j :: 0 <= j < |Catalogue| ==> (j in idx <==> Matches(Catalogue[j], query))
  {
    idx := FilterMatchesSelects(Catalogue, query);
  }

  /** The catalogue filter keeps exactly the matching entries of any list, in order. */
  lemma FilterMatchesSelects(items: seq<SearchResult>, query: string) returns (idx: seq<nat>)
    ensures |idx| == |FilterMatches(items, query)|
    ensures forall k :: 0 <= k < |idx| ==> idx[k] < |items| && FilterMatches(items, query)[k] == items[idx[k]]
    ensures forall k, l :: 0 <= k < l < |idx| ==> idx[k] < idx[l]
    ensures forall j :: 0 <= j < |items| ==> (j in idx <==> Matches(items[j], query))
  {
    idx := FilterSelects(items, item => Matches(item, query));
  }

  // ---------------------------------------------------------------------------
  // The overlay's transitions
  // ---------------------------------------------------------------------------

  datatype Overlay = Overlay(isOpen: bool, query: string, results: seq<SearchResult>, selectedIndex: int)

  /** The state on first render. */
  const Initial: Overlay := Overlay(false, "", [], -1)

  /** A keydown event: the key's name and the two modifier flags that matter. */
  datatype KeyEvent = KeyEvent(key: string, metaKey: bool, ctrlKey: bool)

  /** The new state after an event, and the route the router is sent to, if any. */
  datatype Reaction = Reaction(next: Overlay, navigateTo: Option<string>)

  /**
   * Opening or closing the overlay; either way the query, the results and the
   * highlight start over, consistently with each other.
   */
  function Toggle(s: Overlay): (r: Overlay)
    ensures r.isOpen != s.isOpen
    ensures r.results == SearchResults(r.query) && SelectionInRange(r)
  {
    Overlay(!s.isOpen, "", [], -1)
  }

  /** ArrowDown moves the highlight one result down, but not past the last result. */
  function ArrowDownIndex(sel: int, count: nat): (r: int)
    ensures sel <= r <= sel + 1
    ensures sel <= count - 1 ==> r <= count - 1
  {
    if sel < count - 1 then sel + 1 else sel
  }

  /** ArrowUp moves the highlight one result up, but not above the first result. */
  function ArrowUpIndex(sel: int): (r: int)
    ensures sel - 1 <= r <= sel
    ensures sel >= 0 ==> r >= 0
  {
    if sel > 0 then sel - 1 else sel
  }

  predicate IsShortcut(e: KeyEvent)
  {
    e.key == "k" && (e.metaKey || e.ctrlKey)
  }

  /**
   * The keydown listener. A key either toggles the overlay or moves at most
   * the highlight, and a navigation goes to the highlighted result of an open
   * overlay, which then closes.
   */
  function KeyDown(s: Overlay, e: KeyEvent): (r: Reaction)
    ensures r.next == Toggle(s) || r.next == s.(selectedIndex := r.next.selectedIndex)
    ensures r.navigateTo.Some? ==>
      && s.isOpen && 0 <= s.selectedIndex < |s.results|
      && r.navigateTo.value == s.results[s.selectedIndex].url && r.next == Toggle(s)
  {
    if IsShortcut(e) then Reaction(Toggle(s), None)
    else if !s.isOpen then Reaction(s, None)
    else if e.key == "Escape" then Reaction(Toggle(s), None)
    else if e.key == "ArrowDown" then Reaction(s.(selectedIndex := ArrowDownIndex(s.selectedIndex, |s.results|)), None)
    else if e.key == "ArrowUp" then Reaction(s.(selectedIndex := ArrowUpIndex(s.selectedIndex)), None)
    else if e.key == "Enter" && 0 <= s.selectedIndex < |s.results| then
      Reaction(Toggle(s), Some(s.results[s.selectedIndex].url))
    else Reaction(s, None)
  }

  /**
   * Typing in the search box (shown only while open): the results follow the
   * new query, whatever they were, and the highlight stays where it was.
   */
  function TypeQuery(s: Overlay, query: string): (r: Overlay)
    requires s.isOpen
    ensures r.isOpen && r.query == query && r.results == SearchResults(query)
    ensures r.selectedIndex == s.selectedIndex
  {
    s.(query := query, results := SearchResults(query))
  }

  /** A click on result `i`: follow it, and the overlay is back in its first state. */
  function ClickResult(s: Overlay, i: int): (r: Reaction)
    requires s.isOpen && 0 <= i < |s.results|
    ensures r.next == Initial && r.navigateTo == Some(s.results[i].url)
  {
    Reaction(Toggle(s), Some(s.results[i].url))
  }

  /**
   * What every reachable state satisfies: the results are those of the query,
   * the highlight is -1 or a catalogue position, and a closed overlay is blank.
   */
  predicate Inv(s: Overlay)
  {
    && s.results == SearchResults(s.query)
    && -1 <= s.selectedIndex < |Catalogue|
    && (!s.isOpen ==> s == Initial)
  }

  /** The highlight points at a shown result, or at nothing. */
  predicate SelectionInRange(s: Overlay)
  {
    -1 <= s.selectedIndex < |s.results|
  }

  /** Toggling, from any state, flips `isOpen` and resets everything else. */
  lemma ToggleResets(s: Overlay)
    ensures Toggle(s).isOpen == !s.isOpen
    ensures Toggle(s).query == "" && Toggle(s).results == [] && Toggle(s).selectedIndex == -1
    ensures Inv(Toggle(s)) && SelectionInRange(Toggle(s))
    ensures Toggle(Toggle(s)) == Overlay(s.isOpen, "", [], -1)
  {
  }

  /** Escape closes an open overlay, which goes back to its first state, and navigates nowhere. */
  lemma EscapeCloses(s: Overlay, e: KeyEvent)
    requires s.isOpen && e.key == "Escape"
    ensures KeyDown(s, e) == Reaction(Initial, None)
  {
  }

  /** While closed, every key but the shortcut leaves the state alone and goes nowhere. */
  lemma ClosedIgnoresKeys(s: Overlay, e: KeyEvent)
    requires !s.isOpen && !IsShortcut(e)
    ensures KeyDown(s, e) == Reaction(s, None)
  {
  }

  /** The shortcut toggles the overlay whether it is open or closed. */
  lemma ShortcutToggles(s: Overlay, e: KeyEvent)
    requires IsShortcut(e)
    ensures KeyDown(s, e).next == Toggle(s) && KeyDown(s, e).navigateTo == None
  {
  }

  /**
   * ArrowDown never pushes the highlight past the last result and ArrowUp never
   * below the first; with no highlight ArrowUp keeps none, and with no results
   * ArrowDown keeps none.
   */
  lemma ArrowKeysClamp(sel: int, count: nat)
    ensures sel <= ArrowDownIndex(sel, count) <= sel + 1
    ensures sel <= count - 1 ==> ArrowDownIndex(sel, count) <= count - 1
    ensures ArrowDownIndex(sel, count) == sel + 1 <==> sel < count - 1
    ensures sel - 1 <= ArrowUpIndex(sel) <= sel
    ensures sel >= 0 ==> ArrowUpIndex(sel) >= 0
    ensures ArrowUpIndex(sel) == sel - 1 <==> sel > 0
    ensures ArrowUpIndex(-1) == -1 && ArrowDownIndex(-1, 0) == -1
  {
  }

  /** Inside the list, ArrowUp undoes ArrowDown and ArrowDown undoes ArrowUp. */
  lemma ArrowKeysUndo(sel: int, count: nat)
    ensures 0 <= sel < count - 1 ==> ArrowUpIndex(ArrowDownIndex(sel, count)) == sel
    ensures 0 < sel < count ==> ArrowDownIndex(ArrowUpIndex(sel), count) == sel
  {
  }

  /** The highlight after pressing ArrowDown `k` times. */
  function ArrowDownTimes(sel: int, k: nat, count: nat): int
  {
    if k == 0 then sel else ArrowDownIndex(ArrowDownTimes(sel, k - 1, count), count)
  }

  /** From no highlight, `k` presses of ArrowDown highlight result `k - 1`, stopping at the last result. */
  lemma {:induction false} ArrowDownSaturates(k: nat, count: nat)
    requires count > 0
    ensures ArrowDownTimes(-1, k, count) == if k <= count then k - 1 else count - 1
  {
    if k > 0 {
      ArrowDownSaturates(k - 1, count);
    }
  }

  /** Enter follows the highlighted result and closes exactly when a result is highlighted. */
  lemma EnterFollowsSelection(s: Overlay, e: KeyEvent)
    requires s.isOpen && e.key == "Enter"
    ensures KeyDown(s, e).navigateTo.Some? <==> 0 <= s.selectedIndex < |s.results|
    ensures 0 <= s.selectedIndex < |s.results| ==>
      KeyDown(s, e) == Reaction(Toggle(s), Some(s.results[s.selectedIndex].url))
    ensures !(0 <= s.selectedIndex < |s.results|) ==> KeyDown(s, e) == Reaction(s, None)
  {
  }

  /** Only the shortcut, Escape and a successful Enter open or close the overlay or change its query. */
  lemma KeyDownKeepsQuery(s: Overlay, e: KeyEvent)
    requires !IsShortcut(e) && e.key != "Escape" && !(e.key == "Enter" && 0 <= s.selectedIndex < |s.results|)
    ensures KeyDown(s, e).next.isOpen == s.isOpen
    ensures KeyDown(s, e).next.query == s.query && KeyDown(s, e).next.results == s.results
    ensures KeyDown(s, e).navigateTo == None
  {
  }

  /** Every navigation, by Enter or by a click, goes to the url of a catalogue entry. */
  lemma NavigationTargetsCatalogue(s: Overlay, e: KeyEvent, i: int)
    requires Inv(s)
    ensures KeyDown(s, e).navigateTo.Some? ==>
      exists j :: 0 <= j < |Catalogue| && KeyDown(s, e).navigateTo.value == Catalogue[j].url
    ensures s.isOpen && 0 <= i < |s.results| ==>
      exists j :: 0 <= j < |Catalogue| && ClickResult(s, i).navigateTo == Some(Catalogue[j].url)
  {
    if KeyDown(s, e).navigateTo.Some? {
      var idx := SearchResultsAreCatalogueSelection(s.query);
      var j := idx[s.selectedIndex];
      assert KeyDown(s, e).navigateTo.value == Catalogue[j].url;
    }
    if s.isOpen && 0 <= i < |s.results| {
      var idx := SearchResultsAreCatalogueSelection(s.query);
      var j := idx[i];
      assert ClickResult(s, i).navigateTo == Some(Catalogue[j].url);
    }
  }

  lemma InitialInv()
    ensures Inv(Initial) && SelectionInRange(Initial)
  {
  }

  /** Every key keeps the invariant. */
  lemma KeyDownInv(s: Overlay, e: KeyEvent)
    requires Inv(s)
    ensures Inv(KeyDown(s, e).next)
  {
    var next := KeyDown(s, e).next;
    if next == Toggle(s) {
      ToggleResets(s);
    } else if s.isOpen && !IsShortcut(e) && e.key == "ArrowDown" {
      assert |s.results| <= |Catalogue|;
    }
  }

  /** Keys keep the highlight on a shown result or on none. */
  lemma KeyDownSelectionInRange(s: Overlay, e: KeyEvent)
    requires SelectionInRange(s)
    ensures SelectionInRange(KeyDown(s, e).next)
  {
  }

  /** Typing and clicking keep the invariant. */
  lemma TypeQueryAndClickInv(s: Overlay, query: string, i: int)
    requires Inv(s) && s.isOpen
    ensures Inv(TypeQuery(s, query))
    ensures 0 <= i < |s.results| ==> Inv(ClickResult(s, i).next)
  {
  }

  /**
   * Typing does not reset the highlight: narrowing the query to "Quote" leaves
   * one result, so a highlight on the second result or further down now
   * points at nothing shown, and Enter does nothing.
   */
  lemma NarrowingStrandsSelection(s: Overlay)
    requires s.isOpen && s.selectedIndex >= 1
    ensures TypeQuery(s, "Quote").results == [Catalogue[3]]
    ensures TypeQuery(s, "Quote").selectedIndex == s.selectedIndex
    ensures !SelectionInRange(TypeQuery(s, "Quote"))
    ensures KeyDown(TypeQuery(s, "Quote"), KeyEvent("Enter", false, false)) == Reaction(TypeQuery(s, "Quote"), None)
  {
    QuoteFindsOnlyQuote();
  }

  /** The query "Quote" lists the quote entry alone. */
  lemma QuoteFindsOnlyQuote()
    ensures SearchResults("Quote") == [Catalogue[3]]
  {
    var keep := (item: SearchResult) => Matches(item, "Quote");
    QuoteMatchesLast();
    QuoteMisses(0);
    QuoteMisses(1);
    QuoteMisses(2);
    FilterKeepsOnlyLast(Catalogue, keep);
  }

  /** Filtering four entries of which only the last is accepted. */
  lemma FilterKeepsOnlyLast<T>(c: seq<T>, keep: T -> bool)
    requires |c| == 4 && !keep(c[0]) && !keep(c[1]) && !keep(c[2]) && keep(c[3])
    ensures Filter(c, keep) == [c[3]]
  {
    assert c[3..][1..] == [];
    assert Filter(c[3..], keep) == [c[3]];
    assert c[2..][1..] == c[3..];
    assert Filter(c[2..], keep) == [c[3]];
    assert c[1..][1..] == c[2..];
    assert Filter(c[1..], keep) == [c[3]];
  }

  lemma QuoteMatchesLast()
    ensures Matches(Catalogue[3], "Quote")
  {
    var q := ToLower("Quote");
    assert q == "quote";
    var title := Catalogue[3].title;
    assert title == "Request Quote";
    var hay := ToLower(title);
    assert hay[8] == 'q' && hay[9] == 'u' && hay[10] == 'o' && hay[11] == 't' && hay[12] == 'e';
    assert hay[8..13] == q;
    IncludesIff(hay, q);
    assert OccursAt(hay, q, 8);
  }

  lemma QuoteMisses(j: nat)
    requires j < 3
    ensures !Matches(Catalogue[j], "Quote")
  {
    if j == 0 {
      BasicPlanMissesQuote();
    } else if j == 1 {
      PremiumPlanMissesQuote();
    } else {
      ContactSupportMissesQuote();
    }
  }

  lemma BasicPlanMissesQuote()
    ensures !Matches(Catalogue[0], "Quote")
  {
    assert NoLetterQ("Basic Plan") && NoLetterQ("Our starter internet plan");
    NoLetterQMisses(Catalogue[0]);
  }

  lemma PremiumPlanMissesQuote()
    ensures !Matches(Catalogue[1], "Quote")
  {
    assert NoLetterQ("Premium Plan") && NoLetterQ("High-speed fiber connection");
    NoLetterQMisses(Catalogue[1]);
  }

  lemma ContactSupportMissesQuote()
    ensures !Matches(Catalogue[2], "Quote")
  {
    assert NoLetterQ("Contact Support") && NoLetterQ("Get help with your service");
    NoLetterQMisses(Catalogue[2]);
  }

  /** No letter q, in either case, occurs in `t`. */
  predicate NoLetterQ(t: string)
  {
    forall i :: 0 <= i < |t| ==> t[i] != 'q' && t[i] != 'Q'
  }

  /** An entry with no letter q in its title or its description does not match "Quote". */
  lemma NoLetterQMisses(item: SearchResult)
    requires NoLetterQ(item.title) && NoLetterQ(item.description)
    ensures !Matches(item, "Quote")
  {
    assert ToLower("Quote")[0] == 'q';
    FirstCharAbsent(ToLower(item.title), ToLower("Quote"));
    FirstCharAbsent(ToLower(item.description), ToLower("Quote"));
  }

  // ---------------------------------------------------------------------------
  // The component
  // ---------------------------------------------------------------------------

  /** The overlay component: its four state variables and the routes pushed so far. */
  class SearchOverlay {
    var isOpen: bool
    var query: string
    var results: seq<SearchResult>
    var selectedIndex: int
    var navigations: seq<string>

    function State(): Overlay
      reads this
    {
      Overlay(isOpen, query, results, selectedIndex)
    }

    constructor ()
      ensures State() == Initial && navigations == []
    {
      isOpen, query, results, selectedIndex := false, "", [], -1;
      navigations := [];
    }

    /** The search button, the backdrop and the shortcut. */
    method ToggleSearch()
      modifies this
      ensures State() == Toggle(old(State()))
      ensures navigations == old(navigations)
    {
      isOpen := !isOpen;
      query := "";
      results := [];
      selectedIndex := -1;
    }

    /**
     * The keydown listener. Like the listener, which sees the state of the
     * render it was registered in, every test reads the state as it was when
     * the key was pressed.
     */
    method HandleKeyDown(e: KeyEvent)
      modifies this
      ensures State() == KeyDown(old(State()), e).next
      ensures navigations == old(navigations) + match KeyDown(old(State()), e).navigateTo
                                                case Some(url) => [url]
                                                case None => []
    {
      var wasOpen, shown, selected := isOpen, results, selectedIndex;
      if e.key == "k" && (e.metaKey || e.ctrlKey) {
        ToggleSearch();
      }
      if !wasOpen {
        return;
      }
      if e.key == "Escape" {
        ToggleSearch();
      }
      if e.key == "ArrowDown" {
        selectedIndex := if selectedIndex < |shown| - 1 then selectedIndex + 1 else selectedIndex;
      }
      if e.key == "ArrowUp" {
        selectedIndex := if selectedIndex > 0 then selectedIndex - 1 else selectedIndex;
      }
      if e.key == "Enter" && selected >= 0 {
        if selected < |shown| {
          navigations := navigations + [shown[selected].url];
          ToggleSearch();
        }
      }
    }

    /** A change of the search box, followed by the effect that recomputes the results. */
    method SetQuery(q: string)
      requires isOpen
      modifies this
      ensures State() == TypeQuery(old(State()), q)
      ensures navigations == old(navigations)
    {
      query := q;
      if q == "" {
        results := [];
      } else {
        results := FilterMatches(Catalogue, q);
      }
    }

    /** A click on the `i`-th shown result. */
    method SelectResult(i: int)
      requires isOpen && 0 <= i < |results|
      modifies this
      ensures State() == ClickResult(old(State()), i).next
      ensures navigations == old(navigations) + [old(results)[i].url]
    {
      navigations := navigations + [results[i].url];
      ToggleSearch();
    }
  }
}
