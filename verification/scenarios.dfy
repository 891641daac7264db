/** Concrete runs of the client: the three end-to-end runs and the calls made before init. */
module Scenarios {
  import opened Wrappers
  import opened Failures
  import opened Promises
  import opened Stream
  import opened Listing
  import opened Client
  import opened ClientProperties

  const CONFIG: Config := Config("ftp.example.com", 21, "u", "p")

  function Entry(name: string): FileInfo {
    FileInfo(name, 0, "5", "owner", "group")
  }

  /** The bytes of the text "1.2.3". */
  const VERSION_BYTES: seq<Byte> := [49, 46, 50, 46, 51]

  /** A socket that delivers "1.2.3" in two chunks and closes cleanly. */
  const VERSION_STREAM: seq<Event> := [Data([49, 46, 50]), Data([46, 51]), Close(None)]

  lemma VersionStreamDelivers()
    ensures StreamOutcome(VERSION_STREAM) == Fulfilled(VERSION_BYTES)
  {
    var chunks: seq<seq<Byte>> := [[49, 46, 50], [46, 51]];
    assert VERSION_STREAM == DataEvents(chunks) + [Close(None)] + [];
    CleanCloseDeliversAll(chunks, []);
    assert chunks[1..][1..] == [];
    assert Flatten(chunks[1..]) == [46, 51];
    assert Flatten(chunks) == [49, 46, 50] + [46, 51];
    assert [49, 46, 50] + [46, 51] == VERSION_BYTES;
  }

  /**
   * The target is listed and both retrieves deliver "1.2.3": the run completes,
   * logs the version, writes it to `version.txt` and destroys the handle last.
   */
  lemma TargetPresentRunCompletes()
    ensures var remote := Remote(Done, LsReply(None, [Entry("version.txt"), Entry("readme.txt")]),
                                 Retrieved(VERSION_STREAM), Retrieved(VERSION_STREAM), Done);
            var run := Orchestrate(CONFIG, remote);
            && run.result == Completed
            && Log(Version(VERSION_BYTES)) in run.effects
            && WriteFile("version.txt", VERSION_BYTES) in run.effects
            && run.effects[|run.effects| - 1] == Destroy
  {
    var remote := Remote(Done, LsReply(None, [Entry("version.txt"), Entry("readme.txt")]),
                         Retrieved(VERSION_STREAM), Retrieved(VERSION_STREAM), Done);
    VersionStreamDelivers();
    assert Listed(remote.listing.res, TARGET_FILE) by {
      assert remote.listing.res[0].name == TARGET_FILE;
    }
    assert SaveStage(Answers(Some(Session(CONFIG)), remote)).result == Normal;
    assert Orchestrate(CONFIG, remote).result == Completed;
    CompletedRun(CONFIG, remote);
  }

  /**
   * Listings that hold only other names, names that differ in case, or names
   * that merely contain the target, all end the run with the not-found error.
   */
  lemma NearMatchesAreNotFound(listing: seq<FileInfo>, remote: Remote)
    requires listing == [Entry("readme.txt"), Entry("Version.txt"), Entry("version.txt.bak"), Entry(" version.txt")]
    requires remote.init.Done? && remote.listing == LsReply(None, listing)
    ensures Orchestrate(CONFIG, remote).result == Exited(0)
    ensures ErrorLog(ErrorObject("version.txt does not exist")) in Orchestrate(CONFIG, remote).effects
    ensures forall name :: Get(name) !in Orchestrate(CONFIG, remote).effects
  {
    assert !Listed(listing, TARGET_FILE) by {
      forall i | 0 <= i < |listing|
        ensures listing[i].name != TARGET_FILE
      {
        assert listing[i].name[0] != TARGET_FILE[0] || |listing[i].name| != |TARGET_FILE|;
      }
    }
    MissingTargetStopsBeforeFetch(CONFIG, remote);
  }

  /** Building the client fails: the run exits before any listing, and nothing is destroyed. */
  lemma InitFailureExitsBeforeListing(err: LibError, remote: Remote)
    requires remote.init == Failed(err)
    ensures Orchestrate(CONFIG, remote) ==
              Run([Init(CONFIG), ErrorLog(Library(err)), Exit(0)], Exited(0))
  {
  }

  /**
   * On a freshly loaded script, before initFtpClient, both wrappers reject with
   * "ftp is null" and issue no call.
   */
  method CallsBeforeInit(listReply: LsReply, getReply: GetReply)
    returns (listed: PromiseState<seq<FileInfo>, Reason>, fetched: PromiseState<seq<Byte>, Reason>, issued: seq<Effect>)
    ensures listed == Rejected(Message("ftp is null"))
    ensures fetched == Rejected(Message("ftp is null"))
    ensures issued == []
  {
    var app := new App();
    var listIssued, getIssued;
    listed, listIssued := app.GetFtpFileList(listReply);
    fetched, getIssued := app.GetFtpFileToMemory(TARGET_FILE, getReply);
    issued := listIssued + getIssued;
  }
}
