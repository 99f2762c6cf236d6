/**
 * `RepoDataParser`: turns a decoded repository-search response into the three
 * parallel lists the bar chart is drawn from: HTML link labels, star counts
 * and hover strings.
 *
 * JSON objects are modelled by their keys: every key the parser reads is an
 * `Option`, and `None` stands for a key the object does not have. Python's
 * `KeyError` becomes `Err(KeyError(key))`.
 */
module RepoData {
  import opened Wrappers

  /** The value under a repository's "description" key: JSON null or a string. */
  datatype Description = Null | Text(text: string)

  /** The repository's "owner" object; only "login" is read. */
  datatype Owner = Owner(login: Option<string>)

  /** One element of the response's "items" list. */
  datatype Repo = Repo(
    name: Option<string>,
    htmlUrl: Option<string>,
    owner: Option<Owner>,
    stargazersCount: Option<int>,
    description: Option<Description>)

  /** The decoded response; only "items" is read. */
  datatype Response = Response(items: Option<seq<Repo>>)

  /** The exception the parser can raise: Python's `KeyError`, naming the key. */
  datatype Error = KeyError(key: string)

  /** The parser holds the items list, taken from the response when it is built. */
  datatype RepoDataParser = RepoDataParser(repoDicts: seq<Repo>)

  /** What one repository contributes to each of the three lists. */
  datatype Row = Row(link: string, stars: int, hover: string)

  /** The three lists `extract_repo_data` returns, in the order it returns them. */
  datatype ChartData = ChartData(repoLinks: seq<string>, stars: seq<int>, labels: seq<string>)

  /** The hover text used when a repository's description is null or empty. */
  const Placeholder: string := "No description provided."

  /** The keys looked up for each repository, in the order the source looks them up. */
  const RequiredKeys: seq<string> := ["name", "html_url", "owner", "login", "stargazers_count", "description"]

  /** Whether the lookup of `key` (one of `RequiredKeys`) on `repo` finds a value. */
  predicate HasKey(repo: Repo, key: string) {
    if key == "name" then repo.name.Some?
    else if key == "html_url" then repo.htmlUrl.Some?
    else if key == "owner" then repo.owner.Some?
    else if key == "login" then repo.owner.Some? && repo.owner.value.login.Some?
    else if key == "stargazers_count" then repo.stargazersCount.Some?
    else if key == "description" then repo.description.Some?
    else false
  }

  /** A repository on which every lookup succeeds. */
  predicate Complete(repo: Repo) {
    && repo.name.Some?
    && repo.htmlUrl.Some?
    && repo.owner.Some? && repo.owner.value.login.Some?
    && repo.stargazersCount.Some?
    && repo.description.Some?
  }

  /** `key` is the first of `RequiredKeys` that `repo` lacks. */
  predicate FirstMissing(repo: Repo, key: string) {
    exists j :: 0 <= j < |RequiredKeys| && RequiredKeys[j] == key && !HasKey(repo, RequiredKeys[j])
      && forall l :: 0 <= l < j ==> HasKey(repo, RequiredKeys[l])
  }

  /** Python truthiness of a description: JSON null and "" are falsy. */
  predicate Truthy(d: Description) {
    d.Text? && d.text != ""
  }

  /** `description or "No description provided."` */
  function DescriptionOr(d: Description): (s: string)
    ensures s != ""
    ensures Truthy(d) ==> s == d.text
    ensures !Truthy(d) ==> s == Placeholder
  {
    if Truthy(d) then d.text else Placeholder
  }

  /** The label `<a href='URL'>NAME</a>`, with neither part escaped. */
  function RepoLink(url: string, name: string): (s: string) {
    "<a href='" + url + "'>" + name + "</a>"
  }

  /** The hover string `OWNER<br />DESCRIPTION`. */
  function HoverLabel(owner: string, description: string): (s: string) {
    owner + "<br />" + description
  }

  /**
   * The body of the loop for one repository: the six lookups in the source's
   * order, the first absent one raising `KeyError`.
   */
  function ProcessRepo(repo: Repo): (r: Result<Row, Error>)
    ensures r.Ok? <==> Complete(repo)
    ensures r.Err? ==> FirstMissing(repo, r.error.key)
    ensures r.Ok? ==> r.value == Row(
      "<a href='" + repo.htmlUrl.value + "'>" + repo.name.value + "</a>",
      repo.stargazersCount.value,
      repo.owner.value.login.value + "<br />" + DescriptionOr(repo.description.value))
  {
    assert RequiredKeys[0] == "name" && RequiredKeys[1] == "html_url" && RequiredKeys[2] == "owner"
      && RequiredKeys[3] == "login" && RequiredKeys[4] == "stargazers_count" && RequiredKeys[5] == "description";
    match repo.name
    case None => Err(KeyError("name"))
    case Some(name) =>
      match repo.htmlUrl
      case None => Err(KeyError("html_url"))
      case Some(url) =>
        match repo.owner
        case None => Err(KeyError("owner"))
        case Some(owner) =>
          match owner.login
          case None => Err(KeyError("login"))
          case Some(login) =>
            match repo.stargazersCount
            case None => Err(KeyError("stargazers_count"))
            case Some(starsCount) =>
              match repo.description
              case None => Err(KeyError("description"))
              case Some(d) => Ok(Row(RepoLink(url, name), starsCount, HoverLabel(login, DescriptionOr(d))))
  }

  /**
   * What the loop computes: the items are processed in order, and the first
   * repository that raises ends the whole extraction with its error.
   */
  function Extract(items: seq<Repo>): (r: Result<ChartData, Error>)
    ensures r.Ok? ==> |r.value.repoLinks| == |items| && |r.value.stars| == |items| && |r.value.labels| == |items|
    decreases |items|
  {
    if items == [] then Ok(ChartData([], [], []))
    else
      match Extract(items[..|items| - 1])
      case Err(e) => Err(e)
      case Ok(c) =>
        match ProcessRepo(items[|items| - 1])
        case Err(e) => Err(e)
        case Ok(row) => Ok(ChartData(c.repoLinks + [row.link], c.stars + [row.stars], c.labels + [row.hover]))
  }

  /** `RepoDataParser.__init__`: looking up "items" raises when the response has none. */
  function NewParser(response: Response): (r: Result<RepoDataParser, Error>)
    ensures r.Ok? <==> response.items.Some?
    ensures r.Err? ==> r.error == KeyError("items")
    ensures r.Ok? ==> r.value.repoDicts == response.items.value
  {
    match response.items
    case None => Err(KeyError("items"))
    case Some(items) => Ok(RepoDataParser(items))
  }

  /**
   * `RepoDataParser.extract_repo_data`: three lists filled by appending in
   * one pass over the items; a raised `KeyError` returns no lists at all.
   */
  method ExtractRepoData(parser: RepoDataParser) returns (r: Result<ChartData, Error>)
    ensures r == Extract(parser.repoDicts)
  {
    var items := parser.repoDicts;
    var repoLinks: seq<string>, stars: seq<int>, labels: seq<string> := [], [], [];
    var i := 0;
    while i < |items|
      invariant 0 <= i <= |items|
      invariant Extract(items[..i]) == Ok(ChartData(repoLinks, stars, labels))
    {
      assert items[..i + 1][..i] == items[..i];
      match ProcessRepo(items[i])
      case Err(e) =>
        ExtractPrefixErr(items, i + 1);
        return Err(e);
      case Ok(row) =>
        repoLinks := repoLinks + [row.link];
        stars := stars + [row.stars];
        labels := labels + [row.hover];
      i := i + 1;
    }
    assert items[..i] == items;
    return Ok(ChartData(repoLinks, stars, labels));
  }

  /** Once a prefix of the items raises, so does the whole list, with the same error. */
  lemma {:induction false} ExtractPrefixErr(items: seq<Repo>, k: nat)
    requires k <= |items|
    requires Extract(items[..k]).Err?
    ensures Extract(items) == Extract(items[..k])
    decreases |items|
  {
    if k == |items| {
      assert items[..k] == items;
    } else {
      var init := items[..|items| - 1];
      assert init[..k] == items[..k];
      ExtractPrefixErr(init, k);
    }
  }

  /** Extraction succeeds exactly when every repository has every key that is read. */
  lemma {:induction false} ExtractOkIff(items: seq<Repo>)
    ensures Extract(items).Ok? <==> forall i :: 0 <= i < |items| ==> Complete(items[i])
    decreases |items|
  {
    if items != [] {
      var init := items[..|items| - 1];
      ExtractOkIff(init);
      assert forall i :: 0 <= i < |init| ==> init[i] == items[i];
    }
  }

  /**
   * The lists are index-aligned with the items: entry `i` of each list is
   * built from repository `i` alone, in the exact string formats.
   */
  lemma {:induction false} ExtractAt(items: seq<Repo>, i: nat)
    requires Extract(items).Ok?
    requires i < |items|
    ensures Complete(items[i])
    ensures Extract(items).value.stars[i] == items[i].stargazersCount.value
    ensures Extract(items).value.repoLinks[i]
      == "<a href='" + items[i].htmlUrl.value + "'>" + items[i].name.value + "</a>"
    ensures Extract(items).value.labels[i]
      == items[i].owner.value.login.value + "<br />" + DescriptionOr(items[i].description.value)
    decreases |items|
  {
    var init := items[..|items| - 1];
    if i < |items| - 1 {
      ExtractAt(init, i);
    }
  }

  /**
   * A failed extraction is the error of the first incomplete repository:
   * its first missing key, with every earlier repository complete.
   */
  lemma {:induction false} ExtractErrFirst(items: seq<Repo>)
    requires Extract(items).Err?
    ensures exists k :: 0 <= k < |items| && !Complete(items[k])
                     && (forall j :: 0 <= j < k ==> Complete(items[j]))
                     && FirstMissing(items[k], Extract(items).error.key)
    decreases |items|
  {
    var init := items[..|items| - 1];
    var k: nat;
    if Extract(init).Err? {
      ExtractErrFirst(init);
      k :| 0 <= k < |init| && !Complete(init[k])
        && (forall j :: 0 <= j < k ==> Complete(init[j]))
        && FirstMissing(init[k], Extract(init).error.key);
      assert init[k] == items[k];
    } else {
      k := |items| - 1;
      ExtractOkIff(init);
      assert forall j :: 0 <= j < k ==> init[j] == items[j];
    }
    assert forall j :: 0 <= j < k ==> Complete(items[j]) by {
      forall j | 0 <= j < k ensures Complete(items[j]) {
        assert init[j] == items[j];
      }
    }
  }

  /** The link label of the repository `foo` at `https://x/foo`. */
  lemma FooLink()
    ensures RepoLink("https://x/foo", "foo") == "<a href='https://x/foo'>foo</a>"
  {
    assert RepoLink("https://x/foo", "foo") == "<a href='" + "https://x/foo" + "'>" + "foo" + "</a>";
  }

  /** The hover string of a repository owned by `bob` with no description. */
  lemma BobHover()
    ensures HoverLabel("bob", Placeholder) == "bob<br />No description provided."
  {
    assert HoverLabel("bob", Placeholder) == "bob" + "<br />" + "No description provided.";
  }

  /** A response with one repository whose description is null; its hover string ends in the placeholder. */
  lemma SingleRepoExample()
    ensures Extract([Repo(Some("foo"), Some("https://x/foo"), Some(Owner(Some("bob"))), Some(42), Some(Null))])
      == Ok(ChartData(["<a href='https://x/foo'>foo</a>"], [42], ["bob<br />No description provided."]))
  {
    var items := [Repo(Some("foo"), Some("https://x/foo"), Some(Owner(Some("bob"))), Some(42), Some(Null))];
    assert Complete(items[0]);
    ExtractOkIff(items);
    ExtractAt(items, 0);
    FooLink();
    BobHover();
    var c := Extract(items).value;
    assert c.repoLinks == ["<a href='https://x/foo'>foo</a>"];
    assert c.stars == [42];
    assert c.labels == ["bob<br />No description provided."];
  }
}
