/** The record a scrape is normalised into before it is sent to a model. */
module Objects {

  /**
   * `ScrappedData`: the four fields are set once, at construction, and no
   * operation changes them, so the record is an immutable value.
   */
  datatype ScrappedData = ScrappedData(url: string, title: string, data: string, solution: string)
  {
    function GetUrl(): string { url }
    function GetTitle(): string { title }
    function GetData(): string { data }
    function GetSolution(): string { solution }

    /** `as_dict`: exactly the four keys, each mapped to its field. */
    function AsDict(): (d: map<string, string>)
      ensures d.Keys == {"url", "title", "data", "solution"}
      ensures d["url"] == url && d["title"] == title && d["data"] == data && d["solution"] == solution
    {
      map["url" := url, "title" := title, "data" := data, "solution" := solution]
    }

    /**
     * `__str__`. The separators are the two characters `/` and `n`, not a
     * line break.
     */
    function ToString(): string
    {
      url + "/n" + title + ": " + data + "/n/n" + solution
    }
  }

  /** Rebuilds a record from its dictionary form. */
  function FromDict(d: map<string, string>): ScrappedData
    requires "url" in d && "title" in d && "data" in d && "solution" in d
  {
    ScrappedData(d["url"], d["title"], d["data"], d["solution"])
  }

  /** The getters return the constructor arguments, and the dictionary form loses nothing. */
  lemma RecordRoundTrip(url: string, title: string, data: string, solution: string)
    ensures var r := ScrappedData(url, title, data, solution);
      r.GetUrl() == url && r.GetTitle() == title && r.GetData() == data && r.GetSolution() == solution
      && FromDict(r.AsDict()) == r
  {
  }

  /**
   * The string form adds eight characters and no line break to the fields,
   * and begins with the URL followed by the two characters `/n`.
   */
  lemma ToStringShape(r: ScrappedData)
    ensures |r.ToString()| == |r.url| + |r.title| + |r.data| + |r.solution| + 8
    ensures r.ToString()[..|r.url| + 2] == r.url + "/n"
    ensures '\n' !in r.url + r.title + r.data + r.solution ==> '\n' !in r.ToString()
  {
    var s := r.ToString();
    assert s == (r.url + "/n") + (r.title + ": " + r.data + "/n/n" + r.solution);
    if '\n' !in r.url + r.title + r.data + r.solution {
      assert forall c :: c in s ==> c in r.url || c in r.title || c in r.data || c in r.solution || c in "/n: ";
    }
  }
}
