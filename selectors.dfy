/**
 * `findElement`: resolving a step's comma-separated selector list against
 * the page. The page is abstract: a query either throws (the selector is not
 * valid CSS, such as the `:contains(...)` candidates of the task table),
 * matches nothing, or returns the first element that matches.
 */
module Selectors {
  import opened Wrappers
  import opened JsString

  /** An element of the page, identified by its position in the document. */
  datatype Element = Element(id: nat)

  /** What `document.querySelector(sel)` does for one selector. */
  datatype QueryResult = Invalid | NoMatch | Match(element: Element)

  /** The page as seen through `document.querySelector`. */
  type Page = string -> QueryResult

  /** `selector.split(',').map(s => s.trim())`. */
  function Candidates(selector: string): seq<string> {
    TrimAll(Split(selector))
  }

  /** `pieces.map(s => s.trim())`. */
  function TrimAll(pieces: seq<string>): seq<string> {
    seq(|pieces|, k requires 0 <= k < |pieces| => Trim(pieces[k]))
  }

  /** Trimming a list piece by piece trims its head and then its tail. */
  lemma TrimAllCons(first: string, rest: seq<string>)
    ensures TrimAll([first] + rest) == [Trim(first)] + TrimAll(rest)
  {
    var xs := [first] + rest;
    var l, r := TrimAll(xs), [Trim(first)] + TrimAll(rest);
    assert |l| == |r|;
    forall k | 0 <= k < |l| ensures l[k] == r[k] {
      if k > 0 {
        assert xs[k] == rest[k - 1];
      }
    }
  }

  /**
   * The loop over the candidates: the element of the first candidate whose
   * query matches; a candidate whose query throws is skipped like one that
   * matches nothing.
   */
  function FindFirst(candidates: seq<string>, page: Page): Option<Element> {
    if candidates == [] then None
    else match page(candidates[0])
      case Match(e) => Some(e)
      case _ => FindFirst(candidates[1..], page)
  }

  /**
   * The search finds nothing exactly when no candidate matches, and
   * otherwise the element of a matching candidate with none matching
   * before it.
   */
  lemma {:induction false} FindFirstSpec(candidates: seq<string>, page: Page)
    ensures var r := FindFirst(candidates, page);
            && (r.None? <==> forall k :: 0 <= k < |candidates| ==> !page(candidates[k]).Match?)
            && (r.Some? ==> exists k :: 0 <= k < |candidates| && page(candidates[k]) == Match(r.value)
                                        && forall j :: 0 <= j < k ==> !page(candidates[j]).Match?)
  {
    if candidates != [] && !page(candidates[0]).Match? {
      var rest := candidates[1..];
      FindFirstSpec(rest, page);
      forall k | 0 <= k < |rest| ensures rest[k] == candidates[k + 1] { }
      if FindFirst(rest, page).Some? {
        var k :| 0 <= k < |rest| && page(rest[k]) == Match(FindFirst(rest, page).value)
                 && forall j :: 0 <= j < k ==> !page(rest[j]).Match?;
        assert page(candidates[k + 1]) == Match(FindFirst(candidates, page).value);
        assert forall j :: 0 <= j < k + 1 ==> !page(candidates[j]).Match? by {
          forall j | 0 <= j < k + 1 ensures !page(candidates[j]).Match? {
            if j > 0 { assert candidates[j] == rest[j - 1]; }
          }
        }
      } else {
        forall k | 0 <= k < |candidates| ensures !page(candidates[k]).Match? {
          if k > 0 { assert candidates[k] == rest[k - 1]; }
        }
      }
    }
  }

  /** `findElement`: nothing for an empty selector, else the first candidate that matches. */
  function FindElement(selector: string, page: Page): Option<Element> {
    if selector == "" then None else FindFirst(Candidates(selector), page)
  }

  /**
   * The result of `findElement` in terms of the trimmed candidates: none
   * for an empty selector or when no candidate matches; otherwise the match
   * of a candidate with no matching candidate before it.
   */
  lemma FindElementFirstMatch(selector: string, page: Page)
    ensures var cands := Candidates(selector);
            && (FindElement(selector, page).None? <==>
                  selector == "" || forall k :: 0 <= k < |cands| ==> !page(cands[k]).Match?)
            && (FindElement(selector, page).Some? ==>
                  exists k :: 0 <= k < |cands| && page(cands[k]) == Match(FindElement(selector, page).value)
                              && forall j :: 0 <= j < k ==> !page(cands[j]).Match?)
  {
    FindFirstSpec(Candidates(selector), page);
  }

  /** The first candidate wins whenever it matches. */
  lemma {:induction false} FindFirstAt(candidates: seq<string>, page: Page, k: nat)
    requires k < |candidates| && page(candidates[k]).Match?
    requires forall j :: 0 <= j < k ==> !page(candidates[j]).Match?
    ensures FindFirst(candidates, page) == Some(page(candidates[k]).element)
  {
    if k > 0 {
      FindFirstAt(candidates[1..], page, k - 1);
    }
  }

  /** A query that throws and one that matches nothing have the same effect on the search. */
  lemma {:induction false} InvalidIsNoMatch(candidates: seq<string>, page: Page, page': Page)
    requires forall s :: (page(s).Match? || page'(s).Match?) ==> page(s) == page'(s)
    ensures FindFirst(candidates, page) == FindFirst(candidates, page')
  {
    if candidates != [] {
      InvalidIsNoMatch(candidates[1..], page, page');
    }
  }

  /** Only the candidates of a selector are ever queried: pages that agree on them agree on the result. */
  lemma {:induction false} OnlyCandidatesQueried(candidates: seq<string>, page: Page, page': Page)
    requires forall k :: 0 <= k < |candidates| ==> page(candidates[k]) == page'(candidates[k])
    ensures FindFirst(candidates, page) == FindFirst(candidates, page')
  {
    if candidates != [] {
      OnlyCandidatesQueried(candidates[1..], page, page');
    }
  }

  /** The candidates are the comma-separated pieces of the selector, trimmed. */
  lemma CandidatesOfList(first: string, rest: string)
    requires ',' !in first
    ensures Candidates(first + "," + rest) == [Trim(first)] + Candidates(rest)
  {
    SplitFirst(first, rest);
    TrimAllCons(first, Split(rest));
  }

  /** A first candidate whose query throws or matches nothing is passed over for the rest of the list. */
  lemma FindElementSkipsFirst(first: string, rest: string, page: Page)
    requires ',' !in first && !page(Trim(first)).Match?
    ensures FindElement(first + "," + rest, page) == FindFirst(Candidates(rest), page)
  {
    var cands := Candidates(first + "," + rest);
    CandidatesOfList(first, rest);
    assert cands[0] == Trim(first) && cands[1..] == Candidates(rest);
    assert (first + "," + rest)[|first|] == ',';
  }

  /** A first candidate that matches decides the result, whatever follows it. */
  lemma FindElementTakesFirst(first: string, rest: string, page: Page)
    requires ',' !in first && page(Trim(first)).Match?
    ensures FindElement(first + "," + rest, page) == Some(page(Trim(first)).element)
  {
    var cands := Candidates(first + "," + rest);
    CandidatesOfList(first, rest);
    assert cands[0] == Trim(first);
    FindFirstAt(cands, page, 0);
  }
}
