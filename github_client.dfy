/**
 * The configuration that `GitHubAPIClient.__init__` builds: the search URL
 * for one language sorted by stars, the fixed `Accept` header and the
 * page-size parameter. Sending the request is not part of this model.
 */
module GitHubClient {
  import opened Wrappers

  /** The search endpoint up to and including the `language:` qualifier. */
  const SearchPrefix: string := "https://api.github.com/search/repositories?q=language:"

  /** What follows the language in the query string. */
  const SortSuffix: string := "&sort=stars"

  /** The media type sent in the `Accept` header. */
  const AcceptMediaType: string := "application/vnd.github.v3+json"

  /** The client's three fields; none of them changes after construction. */
  datatype GitHubAPIClient = GitHubAPIClient(
    apiUrl: string,
    headers: map<string, string>,
    params: map<string, int>)

  /**
   * The constructor, with the source's defaults: language "Java" and 30
   * results per page. The language is spliced in as it is, without any
   * URL encoding.
   */
  function NewClient(language: string := "Java", perPage: int := 30): (c: GitHubAPIClient)
    ensures |c.apiUrl| == |SearchPrefix| + |language| + |SortSuffix|
    ensures c.apiUrl[..|SearchPrefix|] == SearchPrefix
    ensures c.apiUrl[|SearchPrefix|..|SearchPrefix| + |language|] == language
    ensures c.apiUrl[|SearchPrefix| + |language|..] == SortSuffix
    ensures c.headers.Keys == {"Accept"} && c.headers["Accept"] == AcceptMediaType
    ensures c.params.Keys == {"per_page"} && c.params["per_page"] == perPage
  {
    GitHubAPIClient(
      SearchPrefix + language + SortSuffix,
      map["Accept" := AcceptMediaType],
      map["per_page" := perPage])
  }

  /** Reads the language back out of a search URL of the shape the client builds. */
  function QueryLanguage(url: string): (r: Option<string>)
    ensures r.Some? ==> |url| >= |SearchPrefix| + |SortSuffix|
  {
    if |url| >= |SearchPrefix| + |SortSuffix|
       && url[..|SearchPrefix|] == SearchPrefix
       && url[|url| - |SortSuffix|..] == SortSuffix
    then Some(url[|SearchPrefix|..|url| - |SortSuffix|])
    else None
  }

  /** The URL of a client determines the language it was built for. */
  lemma UrlNamesLanguage(language: string, perPage: int)
    ensures QueryLanguage(NewClient(language, perPage).apiUrl) == Some(language)
  {
  }

  /** Every URL from which a language can be read back is the URL of a client for that language. */
  lemma LanguageNamesUrl(url: string, language: string, perPage: int)
    requires QueryLanguage(url) == Some(language)
    ensures NewClient(language, perPage).apiUrl == url
  {
  }

  /** Clients for different languages query different URLs. */
  lemma DistinctLanguagesDistinctUrls(a: string, b: string, n: int, m: int)
    requires a != b
    ensures NewClient(a, n).apiUrl != NewClient(b, m).apiUrl
  {
  }
}
