/** The PortSwigger adapter: a scraper object whose results accumulate in its fields. */
module PortSwiggerAdapter {
  import opened Wrappers
  import opened Page

  class PortSwiggerScrapper {
    var url: string
    var title: string
    var extractedData: seq<string>
    var solution: string

    constructor (url: string)
      ensures this.url == url && title == "" && extractedData == [] && solution == ""
    {
      this.url := url;
      title := "";
      extractedData := [];
      solution := "";
    }

    /**
     * `scrape`, with `page` the response to the GET of `url`. A failed fetch
     * returns `(None, None, None)` and changes nothing. Otherwise each section
     * overwrites the title, a qualifying section appends its block to the
     * blocks already held (they are never cleared), a section with a solution
     * overwrites the solution, and the call returns the three fields.
     */
    method Scrape(page: Response) returns (result: Option<Scraped>)
      requires page.WellFormed()
      modifies this
      ensures url == old(url)
      ensures page.status != 200 ==>
        result == None && title == old(title) && extractedData == old(extractedData) && solution == old(solution)
      ensures page.status == 200 ==>
        && title == LastTitle(page.sections, old(title))
        && extractedData == old(extractedData) + Blocks(page.sections)
        && solution == LastSolution(page.sections, old(solution))
        && result == Some(Scraped(title, extractedData, solution))
    {
      if page.status != 200 {
        return None;
      }
      var sections := page.sections;
      for i := 0 to |sections|
        invariant url == old(url)
        invariant title == LastTitle(sections[..i], old(title))
        invariant extractedData == old(extractedData) + Blocks(sections[..i])
        invariant solution == LastSolution(sections[..i], old(solution))
      {
        var section := sections[i];
        assert sections[..i + 1][..i] == sections[..i];
        title := section.heading;
        var block := ExtractBlock(section);
        if block.Some? {
          extractedData := extractedData + [block.value];
        }
        if section.solution.Some? {
          solution := section.solution.value;
        }
      }
      assert sections[..|sections|] == sections;
      return Some(Scraped(title, extractedData, solution));
    }
  }

  /**
   * Scraping page `p` and then page `q` with one object leaves the same
   * fields as scraping a page holding the sections of both, and the blocks
   * grow by exactly the number of qualifying sections of each page.
   */
  lemma {:induction false} RepeatedScrapesAccumulate(p: seq<Section>, q: seq<Section>, title: string, data: seq<string>, solution: string)
    requires AllWellFormed(p) && AllWellFormed(q)
    ensures AllWellFormed(p + q)
    ensures LastTitle(q, LastTitle(p, title)) == LastTitle(p + q, title)
    ensures data + Blocks(p) + Blocks(q) == data + Blocks(p + q)
    ensures LastSolution(q, LastSolution(p, solution)) == LastSolution(p + q, solution)
    ensures |data + Blocks(p) + Blocks(q)| == |data| + NumQualifying(p) + NumQualifying(q)
  {
    BlocksAppend(p, q);
    LastTitleAppend(p, q, title);
    LastSolutionAppend(p, q, solution);
    BlocksCount(p);
    BlocksCount(q);
  }
}
