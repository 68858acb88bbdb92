/** Sample uses of the data-access layer against small hosting-service states; what each
    states is proved from the contracts of the GitHub module alone. */
module Scenarios {
  import opened Js
  import opened Pagination
  import opened GitHub

  const PullRequestContext := Context("octo", "app", "abc123", "refs/pull/7/merge", Some(PullRequest(7)))
  const PushContext := Context("octo", "app", "abc123", "refs/heads/main", None)

  /** One full page of files then an empty one: 100 names after two requests. */
  method HundredFiles() returns (names: seq<string>, requests: seq<Request>)
    ensures |names| == 100 && forall i :: 0 <= i < 100 ==> names[i] == "f"
    ensures |requests| == 2 && forall i :: 0 <= i < 2 ==> requests[i] == List(Files, ListQuery("octo", "app", 7, i + 1, PerPage))
  {
    var full := seq(100, _ => FileItem("f"));
    ExactMultipleTrailingEmptyPage(full);
    ChunkedListing(full);
    var remote := new Remote(Chunks(full), []);
    var gh := new GitHubModule(Environment(PullRequestContext, "t", "cfg"), remote);
    var result := gh.FetchChangedFiles();
    names := result.value;
    requests := remote.log;
  }

  /** Reviews served as 100, 100 and 50: 250 reviews in page order after three requests. */
  method TwoHundredFiftyReviews() returns (reviews: seq<Review>, requests: seq<Request>)
    ensures |reviews| == 250
    ensures forall i :: 0 <= i < 250 ==> reviews[i].id == i
    ensures |requests| == 3 && forall i :: 0 <= i < 3 ==> requests[i] == List(Reviews, ListQuery("octo", "app", 7, i + 1, PerPage))
  {
    var all := seq(250, (i: nat) => Review(i, "reviewer", "APPROVED"));
    ChunkedListing(all);
    var remote := new Remote([], Chunks(all));
    var gh := new GitHubModule(Environment(PullRequestContext, "t", "cfg"), remote);
    var result := gh.GetReviews();
    reviews := result.value;
    requests := remote.log;
  }

  /** Without a pull request both fetchers throw and no listing request is sent. */
  method NoPullRequest() returns (files: Result<seq<string>>, reviews: Result<seq<Review>>, requests: seq<Request>)
    ensures files == Throw(Thrown("No pull request found."))
    ensures reviews == Throw(Thrown("No pull request found."))
    ensures requests == []
  {
    var remote := new Remote([[FileItem("a")]], [[Review(1, "r", "APPROVED")]]);
    var gh := new GitHubModule(Environment(PushContext, "t", "cfg"), remote);
    files := gh.FetchChangedFiles();
    reviews := gh.GetReviews();
    requests := remote.log;
  }

  /** Create then complete a group's check run: the update carries the id of the create
      response. A second completion is sent as well, and an unknown group throws a TypeError
      without any request. */
  method CheckRunLifecycle() returns (first: Result<()>, second: Result<()>, unknown: Result<()>, requests: seq<Request>)
    ensures first == Ok(()) && second == Ok(()) && unknown == Throw(TypeError)
    ensures |requests| == 3
    ensures requests[0] == Create(CreateRequest("octo", "app", "abc123", "teamA", InProgress, CheckOutput("teamA", "", None)))
    ensures requests[1] == Update(UpdateRequest("octo", "app", 0, Success, Completed,
                                                CheckOutput("teamA Approvals.", "teamA Approvals.", Some("teamA Approvals."))))
    ensures requests[2] == requests[1]
  {
    var remote := new Remote([], []);
    var gh := new GitHubModule(Environment(PullRequestContext, "t", "cfg"), remote);
    gh.AddCheckRun("teamA");
    assert gh.groupMap["teamA"] == CheckRunHandle(0);
    var message := ApprovalsMessage("teamA");
    assert message == "teamA Approvals.";
    var update := Update(UpdateRequest("octo", "app", 0, Success, Completed, CheckOutput(message, message, Some(message))));
    first := gh.UpdateCheckRun("teamA", Success);
    assert remote.log[1] == update;
    second := gh.UpdateCheckRun("teamA", Success);
    assert remote.log[1..] == [update, update];
    unknown := gh.UpdateCheckRun("ghost", Failure);
    requests := remote.log;
  }

  /** Creating the same group twice overwrites the stored response: the later update uses the second id. */
  method RecreateOverwrites() returns (requests: seq<Request>)
    ensures |requests| == 3 && requests[2].Update? && requests[2].update.checkRunId == 1
  {
    var remote := new Remote([], []);
    var gh := new GitHubModule(Environment(PullRequestContext, "t", "cfg"), remote);
    gh.AddCheckRun("teamA");
    gh.AddCheckRun("teamA");
    var _ := gh.UpdateCheckRun("teamA", Failure);
    requests := remote.log;
  }

  /** A non-empty token is read from the inputs once however often it is asked for, also by
      `get_octokit`, which builds its client once; an empty token is read again on every call. */
  method TokenReads() returns (nonEmptyReads: nat, clientsBuilt: nat, emptyReads: nat)
    ensures nonEmptyReads == 1 && clientsBuilt == 1 && emptyReads == 3
  {
    var remote := new Remote([], []);
    var gh := new GitHubModule(Environment(PullRequestContext, "t", "cfg"), remote);
    var a := gh.GetToken();
    var b := gh.GetToken();
    var c := gh.GetOctokit();
    var d := gh.GetOctokit();
    nonEmptyReads, clientsBuilt := gh.tokenReads, gh.clientsBuilt;
    var gh2 := new GitHubModule(Environment(PullRequestContext, "", "cfg"), remote);
    var e := gh2.GetToken();
    var f := gh2.GetToken();
    var g := gh2.GetToken();
    emptyReads := gh2.tokenReads;
  }
}
