/**
 * The adapter dispatcher: picks the scraper for a URL by its host and keeps
 * the last scrape's triple in its fields.
 */
module Dispatch {
  import opened Wrappers
  import opened Strings
  import opened Page
  import opened PortSwiggerAdapter

  datatype Adapter = PortSwigger | PentesterLab

  /**
   * The outcome of looking at a URL's host: an adapter, no third
   * `/`-separated piece at all (an IndexError), or a host outside the list.
   */
  datatype Selection = Selected(adapter: Adapter) | NoHost | Unsupported(host: string)

  const PortSwiggerHost: string := "portswigger.net"
  const PentesterLabHost: string := "pentesterlab.com"

  /** `url.split("/")[2]`, or None when there are fewer than three pieces. */
  function Host(url: string): (h: Option<string>)
    ensures h.Some? <==> Occurrences(url, '/') >= 2
    ensures h.Some? ==> '/' !in h.value
  {
    SplitPieces(url, '/');
    var pieces := Split(url, '/');
    if |pieces| >= 3 then Some(pieces[2]) else None
  }

  /** The `match` on the host: exact equality with one of the two supported hosts. */
  function SelectAdapter(url: string): Selection
  {
    match Host(url)
    case None => NoHost
    case Some(host) =>
      if host == PortSwiggerHost then Selected(PortSwigger)
      else if host == PentesterLabHost then Selected(PentesterLab)
      else Unsupported(host)
  }

  /**
   * For a URL `scheme//host` followed by nothing or by a path starting with
   * `/`, the host is exactly the text between the double slash and the path.
   */
  lemma HostOf(scheme: string, host: string, path: string)
    requires '/' !in scheme && '/' !in host
    requires path == [] || path[0] == '/'
    ensures Host(scheme + "//" + host + path) == Some(host)
  {
    var url := scheme + "//" + host + path;
    assert url == scheme + ['/'] + (['/'] + (host + path));
    SplitAfterSeparator(scheme, ['/'] + (host + path), '/');
    assert ['/'] + (host + path) == [] + ['/'] + (host + path);
    SplitAfterSeparator([], host + path, '/');
    if path == [] {
      assert host + path == host;
      SplitWithout(host, '/');
    } else {
      assert host + path == host + ['/'] + path[1..];
      SplitAfterSeparator(host, path[1..], '/');
    }
  }

  /**
   * Which adapter a URL of that shape selects: only the two hosts, spelled
   * exactly, are supported; every other host, subdomains and hosts with a
   * port included, is refused.
   */
  lemma SelectByHost(scheme: string, host: string, path: string)
    requires '/' !in scheme && '/' !in host
    requires path == [] || path[0] == '/'
    ensures SelectAdapter(scheme + "//" + host + path) ==
      if host == PortSwiggerHost then Selected(PortSwigger)
      else if host == PentesterLabHost then Selected(PentesterLab)
      else Unsupported(host)
  {
    HostOf(scheme, host, path);
  }

  /** A URL with fewer than two slashes has no host part. */
  lemma NoHostBelowTwoSlashes(url: string)
    requires Occurrences(url, '/') < 2
    ensures SelectAdapter(url) == NoHost
  {
  }

  /** A subdomain of `portswigger.net`, `www.portswigger.net` among them, is refused. */
  lemma SubdomainRefused(scheme: string, sub: string, path: string)
    requires '/' !in scheme && '/' !in sub
    requires path == [] || path[0] == '/'
    ensures SelectAdapter(scheme + "//" + (sub + "." + PortSwiggerHost) + path) == Unsupported(sub + "." + PortSwiggerHost)
  {
    var host := sub + "." + PortSwiggerHost;
    assert '/' !in host by {
      assert forall c :: c in host ==> c in sub || c in "." || c in PortSwiggerHost;
    }
    assert host != PortSwiggerHost by {
      assert |host| > |PortSwiggerHost|;
    }
    assert host != PentesterLabHost by {
      if |sub| == 0 {
        assert host[0] == '.';
      } else {
        assert |host| > |PentesterLabHost|;
      }
    }
    SelectByHost(scheme, host, path);
  }

  /** `portswigger.net` followed by a port, `portswigger.net:443` among them, is refused. */
  lemma HostWithPortRefused(scheme: string, port: string, path: string)
    requires '/' !in scheme && '/' !in port
    requires path == [] || path[0] == '/'
    ensures SelectAdapter(scheme + "//" + (PortSwiggerHost + ":" + port) + path) == Unsupported(PortSwiggerHost + ":" + port)
  {
    var host := PortSwiggerHost + ":" + port;
    assert '/' !in host by {
      assert forall c :: c in host ==> c in PortSwiggerHost || c in ":" || c in port;
    }
    assert host != PortSwiggerHost by {
      assert |host| > |PortSwiggerHost|;
    }
    assert host != PentesterLabHost by {
      assert host[1] == 'o';
    }
    SelectByHost(scheme, host, path);
  }

  /** The exceptions `scrape` raises. */
  datatype ScrapeError = IndexError | ValueError(message: string)

  /** What `scrape` does: raise, or return the stored triple. */
  datatype ConsumerResult =
    | Failed(error: ScrapeError)
    | Returned(title: Option<string>, extractedData: Option<seq<string>>, solution: Option<string>)

  class ScrapperConsumer {
    var title: Option<string>
    var extractedData: Option<seq<string>>
    var solution: Option<string>

    constructor ()
      ensures title == Some("") && extractedData == Some([]) && solution == Some("")
    {
      title := Some("");
      extractedData := Some([]);
      solution := Some("");
    }

    /** `get_title`, `get_extracted_data` and `get_solution`: the stored triple, field by field. */
    function GetTitle(): Option<string> reads this { title }
    function GetExtractedData(): Option<seq<string>> reads this { extractedData }
    function GetSolution(): Option<string> reads this { solution }

    /** The fields hold a returned triple: `(None, None, None)` for a failed fetch. */
    predicate Holds(r: Option<Scraped>)
      reads this
    {
      match r
      case None => title == None && extractedData == None && solution == None
      case Some(s) => title == Some(s.title) && extractedData == Some(s.blocks) && solution == Some(s.solution)
    }

    /**
     * `scrape(url)`. `page` is the response to the GET of `url` the
     * PortSwigger adapter would make; `pentesterLab` is what the PentesterLab
     * adapter returns for `url`.
     */
    method Scrape(url: string, page: Response, pentesterLab: Option<Scraped>) returns (result: ConsumerResult)
      requires page.WellFormed()
      modifies this
      ensures SelectAdapter(url) == NoHost ==>
        result == Failed(IndexError) && unchanged(this)
      ensures SelectAdapter(url).Unsupported? ==>
        result == Failed(ValueError("Unsupported URL: " + url)) && unchanged(this)
      ensures SelectAdapter(url) == Selected(PortSwigger) ==> Holds(ScrapeResult(page))
      ensures SelectAdapter(url) == Selected(PentesterLab) ==> Holds(pentesterLab)
      ensures SelectAdapter(url).Selected? ==> result == Returned(GetTitle(), GetExtractedData(), GetSolution())
    {
      match SelectAdapter(url)
      case NoHost => {
        result := Failed(IndexError);
      }
      case Unsupported(_) => {
        result := Failed(ValueError("Unsupported URL: " + url));
      }
      case Selected(adapter) => {
        var scraped: Option<Scraped>;
        if adapter == PortSwigger {
          var scrapper := new PortSwiggerScrapper(url);
          scraped := scrapper.Scrape(page);
          assert page.status == 200 ==> [] + Blocks(page.sections) == Blocks(page.sections);
        } else {
          scraped := pentesterLab;
        }
        match scraped {
          case None =>
            title, extractedData, solution := None, None, None;
          case Some(s) =>
            title, extractedData, solution := Some(s.title), Some(s.blocks), Some(s.solution);
        }
        result := Returned(title, extractedData, solution);
      }
    }
  }
}
