/** `download_latest_news`: cut every news link at its tracking suffix, fetch each
    page, and store one description per link in the table's `description`
    column. The HTTP request and the HTML parsing are a parameter of the model:
    `fetch(idx, link)` is the outcome of the request for the `idx`-th link. */
module News {
  import opened Seqs
  import opened Text

  /** What one `requests.get(link, timeout=10)` gives: a response with its status
      code and the texts of the page's `<p>` elements, or a `RequestException`. */
  datatype FetchOutcome =
    | Response(statusCode: int, paragraphs: seq<string>)
    | RequestException

  /** The marker a link is cut at. */
  const TrackingMarker: string := "&ved"

  /** The description stored for a page that could not be retrieved. */
  const FailurePlaceholder: string := "Failed to retrieve the webpage."

  const StatusOk: int := 200

  /** The table of search results: its `link` column, and the `description` column
      that `download_latest_news` assigns. The other columns play no part here. */
  class NewsFrame {
    var link: seq<string>
    var description: seq<string>

    constructor (links: seq<string>)
      ensures link == links && description == []
    {
      link := links;
      description := [];
    }
  }

  /** `re.split("&ved", link)[0]`: the link up to its first "&ved"; a link without
      one is kept whole. */
  function TrimLink(link: string): (r: string)
    ensures r <= link
    ensures |r| < |link| ==> OccursAt(link, TrackingMarker, |r|)
    ensures forall i :: 0 <= i < |r| ==> !OccursAt(link, TrackingMarker, i)
    ensures (forall i :: 0 <= i < |link| ==> !OccursAt(link, TrackingMarker, i)) ==> r == link
  {
    PrefixBefore(link, TrackingMarker)
  }

  /** The list comprehension over the `link` column: one trimmed link per link,
      in the same order, each a prefix of the link it came from. */
  function TrimLinks(links: seq<string>): (r: seq<string>)
    ensures |r| == |links|
    ensures forall i :: 0 <= i < |r| ==> r[i] <= links[i]
  {
    seq(|links|, i requires 0 <= i < |links| => TrimLink(links[i]))
  }

  /** Trimming the links once more changes nothing. */
  lemma TrimLinksIdempotent(links: seq<string>)
    ensures TrimLinks(TrimLinks(links)) == TrimLinks(links)
  {
    forall i | 0 <= i < |links|
      ensures TrimLink(TrimLink(links[i])) == TrimLink(links[i])
    {
      PrefixBeforeIdempotent(links[i], TrackingMarker);
    }
  }

  /** The description recorded for one outcome: the paragraph texts joined by one
      space for a 200 response, the placeholder for any other status and for a
      request exception. */
  function Describe(outcome: FetchOutcome): (r: string)
    ensures outcome.RequestException? || outcome.statusCode != StatusOk ==> r == FailurePlaceholder
  {
    match outcome
    case Response(status, paragraphs) =>
      if status == StatusOk then Join(" ", paragraphs) else FailurePlaceholder
    case RequestException => FailurePlaceholder
  }

  /** One description per link, in link order. */
  function Descriptions(links: seq<string>, fetch: (nat, string) -> FetchOutcome): (r: seq<string>)
    ensures |r| == |links|
  {
    seq(|links|, i requires 0 <= i < |links| => Describe(fetch(i, links[i])))
  }

  /** A successful page's description has every paragraph and one space between
      each two; a page without paragraphs is described by "", not by the
      placeholder. */
  lemma SuccessfulDescription(paragraphs: seq<string>)
    ensures Describe(Response(StatusOk, paragraphs)) == Join(" ", paragraphs)
    ensures paragraphs == [] ==> Describe(Response(StatusOk, paragraphs)) == ""
    ensures paragraphs != [] ==>
      |Describe(Response(StatusOk, paragraphs))| == SumLengths(paragraphs) + |paragraphs| - 1
  {
  }

  /** `download_latest_news(data)`: the `link` column is left as it was, the
      `description` column becomes one entry per trimmed link, in link order,
      and the same table object is returned. */
  method DownloadLatestNews(data: NewsFrame, fetch: (nat, string) -> FetchOutcome)
    returns (r: NewsFrame)
    modifies data
    ensures r == data
    ensures data.link == old(data.link)
    ensures data.description == Descriptions(TrimLinks(old(data.link)), fetch)
  {
    var latestLinks := TrimLinks(data.link);
    var description: seq<string> := [];
    for idx := 0 to |latestLinks|
      invariant |description| == idx
      invariant forall j :: 0 <= j < idx ==> description[j] == Describe(fetch(j, latestLinks[j]))
    {
      var link := latestLinks[idx];
      match fetch(idx, link) {
        case Response(status, paragraphs) =>
          if status == StatusOk {
            var pageDescription := Join(" ", paragraphs);
            description := description + [pageDescription];
          } else {
            description := description + [FailurePlaceholder];
          }
        case RequestException =>
          description := description + [FailurePlaceholder];
      }
    }
    data.description := description;
    r := data;
  }
}
