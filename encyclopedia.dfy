/**
  The best-effort summary aggregation both `search_wikipedia` functions run:
  take the first three titles of the search, fetch each page, skip the ones
  whose fetch fails, and keep the rest in rank order.
*/
module Encyclopedia {
  import opened Wrappers
  import opened PyStrings

  /** The two encyclopedia calls: the title search and the page fetch by exact title. */
  datatype Service = Service(search: string -> Result<seq<string>, string>, page: string -> Option<string>)

  const MaxTitles := 3
  const NoResult := "No good result found."

  /** `f"**{title}**\n{page.summary}"`. */
  function Block(title: string, summary: string): string {
    "**" + title + "**\n" + summary
  }

  /** `titles[:3]`. */
  function Candidates(titles: seq<string>): (c: seq<string>)
    ensures c <= titles
    ensures |c| == if |titles| < MaxTitles then |titles| else MaxTitles
  {
    if |titles| < MaxTitles then titles else titles[..MaxTitles]
  }

  /** One block per title whose page could be fetched, in the order of `titles`. */
  function Summaries(titles: seq<string>, page: string -> Option<string>): seq<string>
    decreases |titles|
  {
    if titles == [] then []
    else
      var last := titles[|titles| - 1];
      Summaries(titles[..|titles| - 1], page) + (if page(last).Some? then [Block(last, page(last).value)] else [])
  }

  /** The loop over `titles[:3]` appending to `summaries`. */
  method CollectSummaries(titles: seq<string>, page: string -> Option<string>) returns (summaries: seq<string>)
    ensures summaries == Summaries(Candidates(titles), page)
  {
    var candidates := Candidates(titles);
    summaries := [];
    var i := 0;
    while i < |candidates|
      invariant 0 <= i <= |candidates|
      invariant summaries == Summaries(candidates[..i], page)
    {
      var title := candidates[i];
      var fetched := page(title);
      if fetched.Some? {
        summaries := summaries + [Block(title, fetched.value)];
      }
      assert candidates[..i + 1][..i] == candidates[..i];
      i := i + 1;
    }
    assert candidates[..i] == candidates;
  }

  /** `"\n\n".join(summaries) if summaries else "No good result found."`. */
  function Aggregate(summaries: seq<string>): string {
    if summaries == [] then NoResult else Join("\n\n", summaries)
  }

  /**
    `search_wikipedia` once the search and the page fetches are answered; the
    two bots differ only in the `errorPrefix` put before a search failure.
  */
  function WikiResult(errorPrefix: string, query: string, wiki: Service): string {
    match wiki.search(query)
    case Err(message) => errorPrefix + message
    case Ok(titles) => Aggregate(Summaries(Candidates(titles), wiki.page))
  }

  method SearchWikipedia(errorPrefix: string, query: string, wiki: Service) returns (r: string)
    ensures r == WikiResult(errorPrefix, query, wiki)
  {
    var found := wiki.search(query);
    if found.Err? {
      return errorPrefix + found.error;
    }
    var summaries := CollectSummaries(found.value, wiki.page);
    r := if summaries != [] then Join("\n\n", summaries) else NoResult;
  }

  /** The error prefix shows only when the search itself fails, and then it heads the message. */
  lemma WikiResultPrefixOnlyOnError(p: string, q: string, query: string, wiki: Service)
    ensures wiki.search(query).Ok? ==> WikiResult(p, query, wiki) == WikiResult(q, query, wiki)
    ensures wiki.search(query).Err? ==> WikiResult(p, query, wiki) == p + wiki.search(query).error
  {
  }

  /** The blocks of consecutive title lists follow one another: rank order is kept. */
  lemma {:induction false} SummariesAppend(a: seq<string>, b: seq<string>, page: string -> Option<string>)
    ensures Summaries(a + b, page) == Summaries(a, page) + Summaries(b, page)
    decreases |b|
  {
    if b == [] {
      assert a + b == a;
    } else {
      var last := b[|b| - 1];
      SummariesAppend(a, b[..|b| - 1], page);
      assert (a + b)[..|a + b| - 1] == a + b[..|b| - 1];
      assert (a + b)[|a + b| - 1] == last;
    }
  }

  /** Every title of the list gets a block exactly when its fetch succeeds. */
  lemma {:induction false} SummariesCount(titles: seq<string>, page: string -> Option<string>)
    ensures |Summaries(titles, page)| <= |titles|
    ensures Summaries(titles, page) == [] <==> forall i :: 0 <= i < |titles| ==> page(titles[i]).None?
    ensures (forall i :: 0 <= i < |titles| ==> page(titles[i]).Some?) ==> |Summaries(titles, page)| == |titles|
    decreases |titles|
  {
    if titles != [] {
      var init := titles[..|titles| - 1];
      SummariesCount(init, page);
      assert forall i :: 0 <= i < |init| ==> init[i] == titles[i];
    }
  }

  /** Titles past the third are never fetched: they cannot change the result. */
  lemma OnlyFirstThreeMatter(titles: seq<string>, more: seq<string>, page: string -> Option<string>)
    requires |titles| >= MaxTitles
    ensures Summaries(Candidates(titles + more), page) == Summaries(Candidates(titles), page)
  {
    assert (titles + more)[..MaxTitles] == titles[..MaxTitles];
  }

  /** Every aggregated entry is a bold title block. */
  lemma {:induction false} SummariesAreBlocks(titles: seq<string>, page: string -> Option<string>)
    ensures forall i :: 0 <= i < |Summaries(titles, page)| ==> "**" <= Summaries(titles, page)[i]
    decreases |titles|
  {
    if titles != [] {
      SummariesAreBlocks(titles[..|titles| - 1], page);
    }
  }

  lemma JoinStartsWithFirst(sep: string, xs: seq<string>)
    requires xs != []
    ensures xs[0] <= Join(sep, xs)
  {
  }

  /** The fixed "no result" text comes back exactly when no candidate page could be fetched. */
  lemma AggregateNoResultIff(titles: seq<string>, page: string -> Option<string>)
    ensures Aggregate(Summaries(titles, page)) == NoResult
        <==> forall i :: 0 <= i < |titles| ==> page(titles[i]).None?
  {
    var s := Summaries(titles, page);
    SummariesCount(titles, page);
    if s != [] {
      SummariesAreBlocks(titles, page);
      JoinStartsWithFirst("\n\n", s);
      assert "**" <= Aggregate(s);
      assert Aggregate(s)[0] == '*' != NoResult[0];
    }
  }

  /** A successful search ends in the fixed "no result" text or in bold title blocks. */
  lemma AggregateShape(titles: seq<string>, page: string -> Option<string>)
    ensures var r := Aggregate(Summaries(titles, page));
      r == NoResult || "**" <= r
  {
    var s := Summaries(titles, page);
    if s != [] {
      SummariesAreBlocks(titles, page);
      JoinStartsWithFirst("\n\n", s);
    }
  }
}
