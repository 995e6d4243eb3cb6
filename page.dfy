/**
 * The page model shared by both scrapers, with the bounded sibling-range
 * extraction they perform section by section.
 *
 * A fetched page is a status code and the list of its challenge sections
 * (`div.section.theme-white`, in document order). Of each section the walk
 * needs: the heading text, the elements in the sibling list of the anchor
 * (`div.container-columns`), the position of the anchor in that list, the
 * marker element (`div.container-buttons-left`) and the text of the solution
 * container's content, each of the last three when present.
 */
module Page {
  import opened Wrappers
  import opened Strings

  /**
   * An element of a sibling list. `markup` stands for everything the HTML
   * parser compares when it tests two elements for equality (tag name,
   * attributes and children), `text` for the element's stripped text.
   */
  datatype Element = Element(markup: string, text: string)

  datatype Section = Section(
    heading: string,
    siblings: seq<Element>,
    anchor: Option<nat>,
    marker: Option<Element>,
    solution: Option<string>)
  {
    /** The anchor, when there is one, is one of the siblings. */
    predicate WellFormed()
    {
      anchor.Some? ==> anchor.value < |siblings|
    }

    /** A section contributes a block exactly when it has both the anchor and the marker. */
    predicate Qualifies()
    {
      anchor.Some? && marker.Some?
    }
  }

  datatype Response = Response(status: int, sections: seq<Section>)
  {
    predicate WellFormed()
    {
      AllWellFormed(sections)
    }
  }

  predicate AllWellFormed(sections: seq<Section>)
  {
    forall k :: 0 <= k < |sections| ==> sections[k].WellFormed()
  }

  /** The `(title, extracted_data, solution)` triple a successful scrape returns. */
  datatype Scraped = Scraped(title: string, blocks: seq<string>, solution: string)

  /** The texts of the elements of `s`, from the front, until the first element equal to `marker`. */
  function TextsUntil(s: seq<Element>, marker: Element): seq<string>
  {
    if |s| == 0 || s[0] == marker then [] else [s[0].text] + TextsUntil(s[1..], marker)
  }

  /**
   * The walk collects, in order, the texts of a prefix of `s` none of whose
   * elements equals the marker, and that prefix ends at the first element
   * equal to the marker or at the end of `s`: the marker and everything after
   * it are never collected.
   */
  lemma {:induction false} TextsUntilBounded(s: seq<Element>, marker: Element)
    ensures |TextsUntil(s, marker)| <= |s|
    ensures forall j :: 0 <= j < |TextsUntil(s, marker)| ==>
      TextsUntil(s, marker)[j] == s[j].text && s[j] != marker
    ensures |TextsUntil(s, marker)| < |s| ==> s[|TextsUntil(s, marker)|] == marker
  {
    if |s| > 0 && s[0] != marker {
      TextsUntilBounded(s[1..], marker);
    }
  }

  /** When no element equals the marker, the walk collects the texts of every element. */
  lemma {:induction false} TextsUntilNoMarker(s: seq<Element>, marker: Element)
    requires forall j :: 0 <= j < |s| ==> s[j] != marker
    ensures |TextsUntil(s, marker)| == |s|
    ensures forall j :: 0 <= j < |s| ==> TextsUntil(s, marker)[j] == s[j].text
  {
    TextsUntilBounded(s, marker);
  }

  /**
   * The sibling walk: from the element after the anchor, collect texts while
   * there is an element and it differs from the marker.
   */
  method CollectRange(siblings: seq<Element>, anchor: nat, marker: Element) returns (texts: seq<string>)
    requires anchor < |siblings|
    ensures texts == TextsUntil(siblings[anchor + 1..], marker)
  {
    texts := [];
    var i := anchor + 1;
    while i < |siblings| && siblings[i] != marker
      invariant anchor + 1 <= i <= |siblings|
      invariant TextsUntil(siblings[anchor + 1..], marker) == texts + TextsUntil(siblings[i..], marker)
    {
      assert siblings[i..][1..] == siblings[i + 1..];
      texts := texts + [siblings[i].text];
      i := i + 1;
    }
  }

  /** The block a section contributes: its collected texts joined with newlines, or None. */
  function SectionBlock(sec: Section): Option<string>
    requires sec.WellFormed()
  {
    if sec.Qualifies()
    then Some(Join(TextsUntil(sec.siblings[sec.anchor.value + 1..], sec.marker.value), "\n"))
    else None
  }

  /** The `if label_level_div and buttons_left_div` step of a scrape. */
  method ExtractBlock(sec: Section) returns (block: Option<string>)
    requires sec.WellFormed()
    ensures block == SectionBlock(sec)
  {
    if sec.anchor.Some? && sec.marker.Some? {
      var texts := CollectRange(sec.siblings, sec.anchor.value, sec.marker.value);
      block := Some(Join(texts, "\n"));
    } else {
      block := None;
    }
  }

  /** The blocks of a single section, as a list of zero or one. */
  function BlockList(sec: Section): seq<string>
    requires sec.WellFormed()
  {
    match SectionBlock(sec)
    case Some(b) => [b]
    case None => []
  }

  /** The blocks the sections contribute, in document order. */
  function Blocks(secs: seq<Section>): seq<string>
    requires AllWellFormed(secs)
  {
    if |secs| == 0 then [] else Blocks(secs[..|secs| - 1]) + BlockList(secs[|secs| - 1])
  }

  /** The title after visiting the sections: each heading overwrites the previous one. */
  function LastTitle(secs: seq<Section>, initial: string): string
  {
    if |secs| == 0 then initial else secs[|secs| - 1].heading
  }

  /** The solution after visiting the sections: only sections that have a solution overwrite it. */
  function LastSolution(secs: seq<Section>, initial: string): string
  {
    if |secs| == 0 then initial
    else match secs[|secs| - 1].solution
      case Some(s) => s
      case None => LastSolution(secs[..|secs| - 1], initial)
  }

  /** The number of sections having both the anchor and the marker, counted from the front. */
  function NumQualifying(secs: seq<Section>): nat
  {
    if |secs| == 0 then 0 else (if secs[0].Qualifies() then 1 else 0) + NumQualifying(secs[1..])
  }

  /** What a scrape starting from `("", [], "")` gives for a fetched page: nothing unless the status is 200. */
  function ScrapeResult(page: Response): Option<Scraped>
    requires page.WellFormed()
  {
    if page.status != 200 then None
    else Some(Scraped(LastTitle(page.sections, ""), Blocks(page.sections), LastSolution(page.sections, "")))
  }

  /** Visiting two runs of sections one after the other yields the blocks of each, in order. */
  lemma {:induction false} BlocksAppend(a: seq<Section>, b: seq<Section>)
    requires AllWellFormed(a) && AllWellFormed(b)
    ensures AllWellFormed(a + b)
    ensures Blocks(a + b) == Blocks(a) + Blocks(b)
  {
    if |b| > 0 {
      var b' := b[..|b| - 1];
      assert (a + b)[..|a + b| - 1] == a + b';
      assert (a + b)[|a + b| - 1] == b[|b| - 1];
      BlocksAppend(a, b');
    } else {
      assert a + b == a;
    }
  }

  /** The number of blocks is the number of sections having both the anchor and the marker. */
  lemma {:induction false} BlocksCount(secs: seq<Section>)
    requires AllWellFormed(secs)
    ensures |Blocks(secs)| == NumQualifying(secs)
  {
    if |secs| > 0 {
      assert secs == [secs[0]] + secs[1..];
      BlocksAppend([secs[0]], secs[1..]);
      BlocksCount(secs[1..]);
      assert Blocks([secs[0]]) == BlockList(secs[0]) by {
        assert [secs[0]][..0] == [];
      }
    }
  }

  /** Counting qualifying sections distributes over concatenation. */
  lemma {:induction false} NumQualifyingAppend(a: seq<Section>, b: seq<Section>)
    ensures NumQualifying(a + b) == NumQualifying(a) + NumQualifying(b)
  {
    if |a| > 0 {
      assert (a + b)[1..] == a[1..] + b;
      NumQualifyingAppend(a[1..], b);
    } else {
      assert a + b == b;
    }
  }

  /**
   * Each qualifying section's block sits at the position given by the number
   * of qualifying sections before it: blocks appear in document order, one
   * per qualifying section.
   */
  lemma {:induction false} BlockAt(secs: seq<Section>, k: nat)
    requires AllWellFormed(secs)
    requires k < |secs| && secs[k].Qualifies()
    ensures NumQualifying(secs[..k]) < |Blocks(secs)|
    ensures Blocks(secs)[NumQualifying(secs[..k])] == SectionBlock(secs[k]).value
  {
    var pre, mid, post := secs[..k], [secs[k]], secs[k + 1..];
    assert secs == pre + mid + post;
    assert AllWellFormed(pre) && AllWellFormed(mid) && AllWellFormed(post);
    BlocksAppend(pre, mid);
    BlocksAppend(pre + mid, post);
    BlocksCount(pre);
    assert Blocks(mid) == BlockList(secs[k]) by {
      assert mid[..0] == [];
    }
  }

  /** A section lacking the anchor or the marker contributes no block; any other exactly one. */
  lemma SingleSectionBlocks(sec: Section)
    requires sec.WellFormed()
    ensures AllWellFormed([sec])
    ensures |Blocks([sec])| == (if sec.Qualifies() then 1 else 0)
  {
    assert [sec][..0] == [];
  }

  /** Visiting two runs of sections one after the other gives the title of visiting both at once. */
  lemma LastTitleAppend(a: seq<Section>, b: seq<Section>, initial: string)
    ensures LastTitle(a + b, initial) == LastTitle(b, LastTitle(a, initial))
  {
    if |b| > 0 {
      assert (a + b)[|a + b| - 1] == b[|b| - 1];
    } else {
      assert a + b == a;
    }
  }

  /** The same for the solution. */
  lemma {:induction false} LastSolutionAppend(a: seq<Section>, b: seq<Section>, initial: string)
    ensures LastSolution(a + b, initial) == LastSolution(b, LastSolution(a, initial))
  {
    if |b| > 0 {
      assert (a + b)[..|a + b| - 1] == a + b[..|b| - 1];
      assert (a + b)[|a + b| - 1] == b[|b| - 1];
      LastSolutionAppend(a, b[..|b| - 1], initial);
    } else {
      assert a + b == a;
    }
  }

  /** The solution stays the initial value when no section has one. */
  lemma {:induction false} LastSolutionNone(secs: seq<Section>, initial: string)
    requires forall k :: 0 <= k < |secs| ==> secs[k].solution.None?
    ensures LastSolution(secs, initial) == initial
  {
    if |secs| > 0 {
      var pre := secs[..|secs| - 1];
      assert forall k :: 0 <= k < |pre| ==> pre[k] == secs[k];
      LastSolutionNone(pre, initial);
    }
  }

  /** The solution is that of the last section having one. */
  lemma {:induction false} LastSolutionIsLast(secs: seq<Section>, initial: string, k: nat)
    requires k < |secs| && secs[k].solution.Some?
    requires forall j :: k < j < |secs| ==> secs[j].solution.None?
    ensures LastSolution(secs, initial) == secs[k].solution.value
  {
    if k < |secs| - 1 {
      var pre := secs[..|secs| - 1];
      assert pre[k] == secs[k];
      assert forall j :: k < j < |pre| ==> pre[j] == secs[j];
      LastSolutionIsLast(pre, initial, k);
    }
  }
}
