/** The data-access layer of the approval action: changed files and reviews of the pull
    request fetched page by page, one check run per approval group created and completed,
    and the lazily memoised context, token, configuration path and Octokit client. */
module GitHub {
  import opened Js
  import opened Memo
  import opened Pagination

  /** `context.payload.pull_request`, of which only the number is used. */
  datatype PullRequest = PullRequest(number: nat)

  /** The fields of the workflow context the layer reads. */
  datatype Context = Context(owner: string, repo: string, sha: string, ref: string, pullRequest: Option<PullRequest>)

  /** What the runtime provides: `github.context` and the action inputs `token` and `config`
      (`core.getInput` yields "" for an input that is not set). */
  datatype Environment = Environment(context: Context, tokenInput: string, configInput: string)

  /** An Octokit instance; `serial` tells apart instances built from the same token. */
  datatype Client = Client(token: string, serial: nat)

  /** An item of the changed-files listing; only `filename` is used. */
  datatype FileItem = FileItem(filename: string)

  /** A submitted review, passed through unchanged. */
  datatype Review = Review(id: nat, user: string, state: string)

  datatype Listing = Files | Reviews

  /** The parameters of `pulls.listFiles` / `pulls.listReviews`. */
  datatype ListQuery = ListQuery(owner: string, repo: string, pullNumber: nat, page: nat, perPage: nat)

  datatype CheckStatus = InProgress | Completed

  datatype Conclusion = Success | Failure

  datatype CheckOutput = CheckOutput(title: string, summary: string, text: Option<string>)

  /** The parameters of `checks.create`. */
  datatype CreateRequest = CreateRequest(owner: string, repo: string, headSha: string, name: string,
                                         status: CheckStatus, output: CheckOutput)

  /** The parameters of `checks.update`. */
  datatype UpdateRequest = UpdateRequest(owner: string, repo: string, checkRunId: nat, conclusion: Conclusion,
                                         status: CheckStatus, output: CheckOutput)

  /** One request sent to the hosting service. */
  datatype Request = List(listing: Listing, query: ListQuery) | Create(create: CreateRequest) | Update(update: UpdateRequest)

  /** The part of a `checks.create` response that is kept: `data.id`. */
  datatype CheckRunHandle = CheckRunHandle(id: nat)

  const NoPullRequestMessage := "No pull request found."

  /** The title, summary and text of a completed check run. */
  function ApprovalsMessage(groupName: string): string {
    groupName + " Approvals."
  }

  /** The listing requests of a complete pagination of k pages: pages 1, 2, ..., k in increasing order. */
  function ListingLog(listing: Listing, owner: string, repo: string, pullNumber: nat, k: nat): (log: seq<Request>)
    ensures |log| == k
    ensures forall i :: 0 <= i < k ==> log[i] == List(listing, ListQuery(owner, repo, pullNumber, i + 1, PerPage))
  {
    if k == 0 then [] else ListingLog(listing, owner, repo, pullNumber, k - 1) + [List(listing, ListQuery(owner, repo, pullNumber, k, PerPage))]
  }

  /** The `map((file) => file.filename)` of the changed-files fetcher. */
  function Filenames(files: seq<FileItem>): (names: seq<string>)
    ensures |names| == |files|
    ensures forall i :: 0 <= i < |files| ==> names[i] == files[i].filename
  {
    if files == [] then [] else [files[0].filename] + Filenames(files[1..])
  }

  /** Mapping page by page and then concatenating is mapping the concatenation. */
  lemma FilenamesAppend(a: seq<FileItem>, b: seq<FileItem>)
    ensures Filenames(a + b) == Filenames(a) + Filenames(b)
  {
  }

  /** The hosting service, as seen by the layer: one pull request whose listings at
      PerPage items per page are `filePages` and `reviewPages`, and the log of every
      request it receives. */
  class Remote {
    const filePages: seq<seq<FileItem>>
    const reviewPages: seq<seq<Review>>
    var log: seq<Request>
    /** The id the service gives the next check run it creates. */
    var nextId: nat

    constructor (filePages: seq<seq<FileItem>>, reviewPages: seq<seq<Review>>)
      ensures this.filePages == filePages && this.reviewPages == reviewPages
      ensures log == [] && nextId == 0
    {
      this.filePages := filePages;
      this.reviewPages := reviewPages;
      log := [];
      nextId := 0;
    }

    method ListFiles(query: ListQuery) returns (body: seq<FileItem>)
      modifies this`log
      ensures body == PageAt(filePages, query.page)
      ensures log == old(log) + [List(Files, query)]
    {
      body := PageAt(filePages, query.page);
      log := log + [List(Files, query)];
    }

    method ListReviews(query: ListQuery) returns (body: seq<Review>)
      modifies this`log
      ensures body == PageAt(reviewPages, query.page)
      ensures log == old(log) + [List(Reviews, query)]
    {
      body := PageAt(reviewPages, query.page);
      log := log + [List(Reviews, query)];
    }

    method CreateCheckRun(request: CreateRequest) returns (response: CheckRunHandle)
      modifies this`log, this`nextId
      ensures response == CheckRunHandle(old(nextId)) && nextId == old(nextId) + 1
      ensures log == old(log) + [Create(request)]
    {
      response := CheckRunHandle(nextId);
      nextId := nextId + 1;
      log := log + [Create(request)];
    }

    method UpdateCheckRun(request: UpdateRequest)
      modifies this`log
      ensures log == old(log) + [Update(request)]
    {
      log := log + [Update(request)];
    }
  }

  /** The module-level state of the data-access layer: the four caches of the memoised
      getters (`null` is None), how often each underlying source was read, and `groupMap`. */
  class GitHubModule {
    const env: Environment
    const remote: Remote

    var cacheContext: Option<Context>
    var cacheToken: Option<string>
    var cacheConfigPath: Option<string>
    var cacheOctoKit: Option<Client>

    var contextReads: nat
    var tokenReads: nat
    var configReads: nat
    var clientsBuilt: nat

    var groupMap: map<string, CheckRunHandle>

    /** A cache only ever holds what its source yields, and a cached client is one of
        those built so far, from the token input. */
    ghost predicate Valid()
      reads this
    {
      && (cacheContext.Some? ==> cacheContext.value == env.context)
      && (cacheToken.Some? ==> cacheToken.value == env.tokenInput)
      && (cacheConfigPath.Some? ==> cacheConfigPath.value == env.configInput)
      && (cacheOctoKit.Some? ==> cacheOctoKit.value.token == env.tokenInput && cacheOctoKit.value.serial < clientsBuilt)
    }

    /** The state when the module is loaded: every cache `null`, `groupMap` empty. */
    constructor (env: Environment, remote: Remote)
      ensures Valid()
      ensures this.env == env && this.remote == remote
      ensures cacheContext == None && cacheToken == None && cacheConfigPath == None && cacheOctoKit == None
      ensures contextReads == 0 && tokenReads == 0 && configReads == 0 && clientsBuilt == 0
      ensures groupMap == map[]
    {
      this.env := env;
      this.remote := remote;
      cacheContext, cacheToken, cacheConfigPath, cacheOctoKit := None, None, None, None;
      contextReads, tokenReads, configReads, clientsBuilt := 0, 0, 0, 0;
      groupMap := map[];
    }

    /** The effect of one `get_context()` call since the pre-state. */
    twostate predicate ContextAccessed()
      reads this
    {
      var l := OrAssign(old(cacheContext), ObjectTruthy, env.context);
      cacheContext == l.cache && contextReads == old(contextReads) + l.sourceReads
    }

    /** The effect of one `get_token()` call since the pre-state. */
    twostate predicate TokenAccessed()
      reads this
    {
      var l := OrAssign(old(cacheToken), StringTruthy, env.tokenInput);
      cacheToken == l.cache && tokenReads == old(tokenReads) + l.sourceReads
    }

    /** The effect of one `get_octokit()` call since the pre-state: a cached client leaves
        everything as it was; otherwise the token is obtained and one client is built from it. */
    twostate predicate OctokitAccessed()
      reads this
    {
      if old(cacheOctoKit).Some? then
        cacheOctoKit == old(cacheOctoKit) && clientsBuilt == old(clientsBuilt)
        && cacheToken == old(cacheToken) && tokenReads == old(tokenReads)
      else
        cacheOctoKit == Some(Client(env.tokenInput, old(clientsBuilt))) && clientsBuilt == old(clientsBuilt) + 1
        && TokenAccessed()
    }

    twostate predicate OctokitUntouched()
      reads this
    {
      cacheOctoKit == old(cacheOctoKit) && clientsBuilt == old(clientsBuilt)
      && cacheToken == old(cacheToken) && tokenReads == old(tokenReads)
    }

    /** `get_context`: `cacheContext || (cacheContext = github.context)`. */
    method GetContext() returns (context: Context)
      requires Valid()
      modifies this`cacheContext, this`contextReads
      ensures Valid() && ContextAccessed()
      ensures context == OrAssign(old(cacheContext), ObjectTruthy, env.context).value
      ensures context == env.context
    {
      if cacheContext.Some? {
        context := cacheContext.value;
      } else {
        context := env.context;
        contextReads := contextReads + 1;
        cacheContext := Some(context);
      }
    }

    /** `get_token`: `cacheToken || (cacheToken = core.getInput('token'))`; an empty token is
        stored but, being falsy, read again on the next call. */
    method GetToken() returns (token: string)
      requires Valid()
      modifies this`cacheToken, this`tokenReads
      ensures Valid() && TokenAccessed()
      ensures token == OrAssign(old(cacheToken), StringTruthy, env.tokenInput).value
      ensures token == env.tokenInput
    {
      if cacheToken.Some? && StringTruthy(cacheToken.value) {
        token := cacheToken.value;
      } else {
        token := env.tokenInput;
        tokenReads := tokenReads + 1;
        cacheToken := Some(token);
      }
    }

    /** `get_config_path`: `cacheConfigPath || (cacheConfigPath = core.getInput('config'))`. */
    method GetConfigPath() returns (path: string)
      requires Valid()
      modifies this`cacheConfigPath, this`configReads
      ensures Valid()
      ensures var l := OrAssign(old(cacheConfigPath), StringTruthy, env.configInput);
        path == l.value && cacheConfigPath == l.cache && configReads == old(configReads) + l.sourceReads
      ensures path == env.configInput
    {
      if cacheConfigPath.Some? && StringTruthy(cacheConfigPath.value) {
        path := cacheConfigPath.value;
      } else {
        path := env.configInput;
        configReads := configReads + 1;
        cacheConfigPath := Some(path);
      }
    }

    /** `get_octokit`: `cacheOctoKit || (cacheOctoKit = github.getOctokit(get_token()))`;
        the token is consulted only when no client is cached. */
    method GetOctokit() returns (client: Client)
      requires Valid()
      modifies this`cacheOctoKit, this`clientsBuilt, this`cacheToken, this`tokenReads
      ensures Valid() && OctokitAccessed()
      ensures cacheOctoKit == Some(client) && client.token == env.tokenInput
      ensures old(cacheOctoKit).Some? ==> client == old(cacheOctoKit).value
    {
      if cacheOctoKit.Some? {
        client := cacheOctoKit.value;
      } else {
        var token := GetToken();
        client := Client(token, clientsBuilt);
        clientsBuilt := clientsBuilt + 1;
        cacheOctoKit := Some(client);
      }
    }

    /** `fetch_changed_files`: without a pull request it throws before any listing request;
        otherwise it requests pages 1..k, k the first page whose length is not PerPage, and
        returns the file names of those pages in order. */
    method FetchChangedFiles() returns (result: Result<seq<string>>)
      requires Valid()
      modifies this`cacheContext, this`contextReads, this`cacheOctoKit, this`clientsBuilt,
               this`cacheToken, this`tokenReads, remote`log
      ensures Valid() && ContextAccessed()
      ensures env.context.pullRequest.None? ==>
        && result == Throw(Thrown(NoPullRequestMessage))
        && remote.log == old(remote.log)
        && OctokitUntouched()
      ensures env.context.pullRequest.Some? ==>
        var k := LastPage(remote.filePages);
        && result == Ok(Filenames(Returned(remote.filePages, k)))
        && remote.log == old(remote.log) + ListingLog(Files, env.context.owner, env.context.repo,
                                                      env.context.pullRequest.value.number, k)
        && OctokitAccessed()
    {
      var context := GetContext();
      if context.pullRequest.None? {
        return Throw(Thrown(NoPullRequestMessage));
      }
      var octokit := GetOctokit();
      ghost var log0 := remote.log;
      var pages := remote.filePages;
      var changedFiles: seq<string> := [];
      var page: nat := 0;
      var more := true;
      while more
        modifies remote`log
        invariant page <= LastPage(pages)
        invariant more <==> page < LastPage(pages)
        invariant changedFiles == Filenames(Returned(pages, page))
        invariant remote.log == log0 + ListingLog(Files, context.owner, context.repo, context.pullRequest.value.number, page)
        decreases LastPage(pages) - page
      {
        page := page + 1;
        var responseBody := remote.ListFiles(ListQuery(context.owner, context.repo, context.pullRequest.value.number, page, PerPage));
        var numberOfFilesInCurrentPage := |responseBody|;
        assert Returned(pages, page) == Returned(pages, page - 1) + responseBody;
        FilenamesAppend(Returned(pages, page - 1), responseBody);
        changedFiles := changedFiles + Filenames(responseBody);
        more := numberOfFilesInCurrentPage == PerPage;
      }
      result := Ok(changedFiles);
    }

    /** `get_reviews`: the client is obtained first, then the context; without a pull request
        it throws before any listing request; otherwise it returns the reviews of pages 1..k. */
    method GetReviews() returns (result: Result<seq<Review>>)
      requires Valid()
      modifies this`cacheContext, this`contextReads, this`cacheOctoKit, this`clientsBuilt,
               this`cacheToken, this`tokenReads, remote`log
      ensures Valid() && ContextAccessed() && OctokitAccessed()
      ensures env.context.pullRequest.None? ==>
        result == Throw(Thrown(NoPullRequestMessage)) && remote.log == old(remote.log)
      ensures env.context.pullRequest.Some? ==>
        var k := LastPage(remote.reviewPages);
        && result == Ok(Returned(remote.reviewPages, k))
        && remote.log == old(remote.log) + ListingLog(Reviews, env.context.owner, env.context.repo,
                                                      env.context.pullRequest.value.number, k)
    {
      var octokit := GetOctokit();
      var context := GetContext();
      if context.pullRequest.None? {
        return Throw(Thrown(NoPullRequestMessage));
      }
      ghost var log0 := remote.log;
      var pages := remote.reviewPages;
      var reviews: seq<Review> := [];
      var page: nat := 0;
      var more := true;
      while more
        modifies remote`log
        invariant page <= LastPage(pages)
        invariant more <==> page < LastPage(pages)
        invariant reviews == Returned(pages, page)
        invariant remote.log == log0 + ListingLog(Reviews, context.owner, context.repo, context.pullRequest.value.number, page)
        decreases LastPage(pages) - page
      {
        page := page + 1;
        var reviewsResult := remote.ListReviews(ListQuery(context.owner, context.repo, context.pullRequest.value.number, page, PerPage));
        var numberOfReviewsInCurrentPage := |reviewsResult|;
        reviews := reviews + reviewsResult;
        more := numberOfReviewsInCurrentPage == PerPage;
      }
      result := Ok(reviews);
    }

    /** `addCheckRun`: creates an in-progress check run named after the group on the head
        commit and stores the response under the group's name, replacing any earlier one. */
    method AddCheckRun(groupName: string)
      requires Valid()
      modifies this`cacheContext, this`contextReads, this`cacheOctoKit, this`clientsBuilt,
               this`cacheToken, this`tokenReads, this`groupMap, remote`log, remote`nextId
      ensures Valid() && OctokitAccessed() && ContextAccessed()
      ensures |remote.log| == |old(remote.log)| + 1 && remote.log[..|old(remote.log)|] == old(remote.log)
      ensures var request := remote.log[|old(remote.log)|];
        && request.Create?
        && request.create.status == InProgress
        && request.create.name == groupName
        && request.create.output == CheckOutput(groupName, "", None)
        && request.create.headSha == env.context.sha
        && request.create.owner == env.context.owner && request.create.repo == env.context.repo
      ensures remote.nextId == old(remote.nextId) + 1
      ensures groupMap == old(groupMap)[groupName := CheckRunHandle(old(remote.nextId))]
    {
      var octokit := GetOctokit();
      var context := GetContext();
      var response := remote.CreateCheckRun(CreateRequest(env.context.owner, env.context.repo, context.sha, groupName,
                                                          InProgress, CheckOutput(groupName, "", None)));
      groupMap := groupMap[groupName := response];
    }

    /** `updateCheckRun`: completes the group's check run with the given conclusion. For a group
        with no stored response, reading `initCheck.data` throws a TypeError before anything
        is sent. `groupMap` is never changed. */
    method UpdateCheckRun(groupName: string, conclusion: Conclusion) returns (result: Result<()>)
      requires Valid()
      modifies this`cacheContext, this`contextReads, this`cacheOctoKit, this`clientsBuilt,
               this`cacheToken, this`tokenReads, remote`log
      ensures Valid() && OctokitAccessed() && ContextAccessed()
      ensures groupMap == old(groupMap)
      ensures groupName !in groupMap ==> result == Throw(TypeError) && remote.log == old(remote.log)
      ensures groupName in groupMap ==>
        && result == Ok(())
        && remote.log == old(remote.log) + [Update(UpdateRequest(
             env.context.owner, env.context.repo, groupMap[groupName].id, conclusion, Completed,
             CheckOutput(ApprovalsMessage(groupName), ApprovalsMessage(groupName), Some(ApprovalsMessage(groupName)))))]
    {
      var octokit := GetOctokit();
      var context := GetContext();
      if groupName !in groupMap {
        return Throw(TypeError);
      }
      var initCheck := groupMap[groupName];
      var message := ApprovalsMessage(groupName);
      remote.UpdateCheckRun(UpdateRequest(env.context.owner, env.context.repo, initCheck.id, conclusion, Completed,
                                          CheckOutput(message, message, Some(message))));
      result := Ok(());
    }
  }
}
