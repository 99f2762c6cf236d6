# Most-starred repositories: search configuration and chart data

A Dafny model of the part of the Python program `Lab17_awilliams2_java.py` that computes something.
The program asks the GitHub repository-search API for the most-starred repositories in one language and plots their star counts.
The model covers two parts:

- `GitHubClient` (`github_client.dfy`): what `GitHubAPIClient.__init__` builds. That is the search URL `https://api.github.com/search/repositories?q=language:<LANG>&sort=stars`, the fixed `Accept: application/vnd.github.v3+json` header and the `per_page` parameter. The defaults are language "Java" and 30 per page.
- `RepoData` (`repo_data.dfy`): `RepoDataParser`. Its constructor takes the response's `"items"` list. `extract_repo_data` walks that list once and returns three index-aligned lists:
  - links `<a href='URL'>NAME</a>`;
  - star counts;
  - hover strings `OWNER<br />DESCRIPTION`, where a null or empty description becomes `No description provided.`.

JSON objects are modelled by the keys the program reads. Each key is an `Option`, and `None` means the key is absent.
Python's `KeyError` becomes `Err(KeyError(key))` in a `Result`, so a failed extraction carries no partial lists.
`extract_repo_data` appends to three lists inside a `for` loop. It is modelled as the method `ExtractRepoData`, a `while` loop proved equal to the specification function `Extract`.
The client and the parser never change their fields after construction, so both are immutable datatypes built by functions.

In three places the code is looser than a strict reading of its purpose, and the model follows the code:

- The code raises Python's `KeyError`, not a dedicated malformed-response error.
- The code treats an empty-string description like a null one.
- The code does not check that star counts are non-negative, so they are plain `int`.

## Model

| member | source | states |
|---|---|---|
| `GitHubClient.NewClient` | Lab17_awilliams2_java.py:18-21 | the URL is the fixed search prefix, then the language unchanged, then `&sort=stars`; the headers map only `Accept` to the v3 JSON media type; the params map only `per_page` to the page size |
| `GitHubClient.UrlNamesLanguage` | Lab17_awilliams2_java.py:19 | the language can be read back out of every client's URL |
| `GitHubClient.LanguageNamesUrl` | Lab17_awilliams2_java.py:19 | every URL of the search shape is the URL of the client for the language it contains, so the URL shape is exactly prefix, language, suffix |
| `GitHubClient.DistinctLanguagesDistinctUrls` | Lab17_awilliams2_java.py:19 | clients for different languages query different URLs |
| `RepoData.NewParser` | Lab17_awilliams2_java.py:31-32 | construction succeeds exactly when the response has an `items` key and keeps that list; otherwise it fails with `KeyError("items")` before any extraction |
| `RepoData.DescriptionOr` | Lab17_awilliams2_java.py:42 | a truthy description is kept unchanged; a null or empty one becomes the placeholder; the result is never empty |
| `RepoData.ProcessRepo` | Lab17_awilliams2_java.py:38-46 | one repository yields a row exactly when all six lookups succeed, and the row is the link `<a href='URL'>NAME</a>`, the star count and the hover `LOGIN<br />DESCRIPTION-or-placeholder`; otherwise the error names the first absent key, in the order name, html_url, owner, login, stargazers_count, description |
| `RepoData.Extract` | Lab17_awilliams2_java.py:34-48 | a successful extraction returns three lists, each exactly as long as `items` (so empty `items` gives three empty lists) |
| `RepoData.ExtractRepoData` | Lab17_awilliams2_java.py:34-48 | the loop that appends to three lists returns exactly `Extract` of the parser's items, including the error of the first failing repository and no partial lists |
| `RepoData.ExtractPrefixErr` | Lab17_awilliams2_java.py:37-42 | once some repository raises, the whole extraction raises that same error, whatever follows it |
| `RepoData.ExtractOkIff` | Lab17_awilliams2_java.py:37-42 | extraction succeeds if and only if every repository has every key that is read |
| `RepoData.ExtractAt` | Lab17_awilliams2_java.py:37-46 | on success, entry `i` of each list comes from repository `i`: its star count unfiltered (zero included), link `<a href='URL'>NAME</a>` and hover `LOGIN<br />DESCRIPTION-or-placeholder`, with no escaping |
| `RepoData.ExtractErrFirst` | Lab17_awilliams2_java.py:37-42 | on failure there is a first incomplete repository; every earlier one is complete, and the error is that repository's first missing key |
| `RepoData.SingleRepoExample` | Lab17_awilliams2_java.py:34-48 | the one-repository response `foo` / `https://x/foo` / `bob` / 42 / null description gives `["<a href='https://x/foo'>foo</a>"]`, `[42]`, `["bob<br />No description provided."]` |

## Left out

- `GitHubAPIClient.fetch_top_repositories` (lines 23-26): the HTTP GET, `raise_for_status` and JSON decoding are network I/O through the `requests` library. The model takes the decoded response as its input instead. How `requests` merges `per_page` into the query string is also not modelled.
- `RepoPlotter` (lines 51-69): it builds and shows a Plotly figure, which is rendering through a foreign library.
- `main` (lines 72-81): it only connects the three classes.
- The model types JSON values only as far as the program uses them. Names, URLs and logins are strings, star counts are integers and descriptions are null or a string. Other JSON values would go through Python's `str()` formatting or other truthiness rules; the model does not cover them.
- In the model `items` is always a list. A JSON object under `items` would be iterated by its keys, and that case is not modelled.
- An `owner` that is JSON null would raise `TypeError` rather than `KeyError`. The model has no null owner, only a present or absent one.
- The language goes into the URL without URL encoding in both the source and the model, so a language such as `C++` is not escaped.
