/**
 * The client script: the module-level jsftp handle `ftp`, the two promise
 * wrappers around `ftp.ls` and `ftp.get`, the save step, and `main`, which runs
 * init, list, presence check, fetch and save inside try/catch/finally.
 *
 * jsftp, the filesystem and the configuration file are collaborators: what they
 * answer is given as a `Remote`, and every call the client makes on them, every
 * line it logs and its exit are recorded, in order, as `Effect`s.
 */
module Client {
  import opened Wrappers
  import opened Failures
  import opened Promises
  import opened Stream
  import opened Listing

  /** The connection settings read from the configuration file. */
  datatype Config = Config(host: string, port: int, user: string, pass: string)

  /** A jsftp client object, built from its settings. */
  datatype Session = Session(config: Config)

  /** The two arguments jsftp passes to the callback of `ls`. */
  datatype LsReply = LsReply(err: Option<LibError>, res: seq<FileInfo>)

  /** What jsftp passes to the callback of `get`: an error, or a socket and the events it will deliver. */
  datatype GetReply = GetFailed(err: LibError) | Retrieved(events: seq<Event>)

  /** Everything the collaborators answer during one run of `main`. */
  datatype Remote = Remote(
    init: Status,       // whether building the jsftp client returns or throws
    listing: LsReply,   // the answer to `ftp.ls('.')`
    fetch: GetReply,    // the answer to the `ftp.get` made by `main` itself
    refetch: GetReply,  // the answer to the `ftp.get` made by saveFtpFileToLocal
    write: Status)      // the outcome of writing the local file

  /** The progress lines `main` logs. */
  datatype LogLine = InitOk | ListOk | CheckOk | FetchOk | Version(text: seq<Byte>)

  /** What the client does that can be seen from outside, in order. */
  datatype Effect =
    | Init(config: Config)                     // new jsftp({...})
    | Ls                                       // ftp.ls('.')
    | Get(name: string)                        // ftp.get(name)
    | WriteFile(name: string, data: seq<Byte>) // fs.writeFile(name, data)
    | Destroy                                  // ftp.destroy()
    | Log(line: LogLine)                       // console.log
    | ErrorLog(ex: Reason)                     // console.error(ex)
    | Exit(code: int)                          // process.exit(code)

  /** How the body of the `try` block ends. */
  datatype BodyEnd = Normal | Threw(ex: Reason) | Suspended

  /** How the process ends: `main` returns, the process exits, or an `await` never resumes. */
  datatype End = Completed | Exited(code: int) | Stalled

  datatype Run<R> = Run(effects: seq<Effect>, result: R)

  /** The message of the error `main` throws when the target is not listed. */
  const NOT_FOUND_MESSAGE: string := TARGET_FILE + " does not exist"

  /** The settled state of getFtpFileList's promise. */
  function ListOutcome(ftp: Option<Session>, reply: LsReply): PromiseState<seq<FileInfo>, Reason> {
    if ftp.None? then Rejected(Message(NULL_HANDLE_MESSAGE))
    else if reply.err.Some? then Rejected(Library(reply.err.value))
    else Fulfilled(reply.res)
  }

  /** The state of getFtpFileToMemory's promise once the socket has delivered all its events. */
  function FetchOutcome(ftp: Option<Session>, reply: GetReply): PromiseState<seq<Byte>, Reason> {
    if ftp.None? then Rejected(Message(NULL_HANDLE_MESSAGE))
    else
      match reply
      case GetFailed(err) => Rejected(Library(err))
      case Retrieved(events) => StreamOutcome(events)
  }

  /** The state of saveFtpFileToLocal's promise, from its retrieve's: that failure, or the write's. */
  function SaveOutcome(fetched: PromiseState<seq<Byte>, Reason>, write: Status): PromiseState<(), Reason> {
    match fetched
    case Pending => Pending
    case Rejected(r) => Rejected(r)
    case Fulfilled(_) => if write.Done? then Fulfilled(()) else Rejected(Library(write.err))
  }

  /** The calls saveFtpFileToLocal makes: the retrieve, then the write if the retrieve succeeded. */
  function SaveCalls(ftp: Option<Session>, name: string, fetched: PromiseState<seq<Byte>, Reason>): seq<Effect> {
    (if ftp.Some? then [Get(name)] else [])
    + (if fetched.Fulfilled? then [WriteFile(name, fetched.value)] else [])
  }

  /** How each promise `main` awaits settles, and how the write ends. */
  datatype Settled = Settled(
    listed: PromiseState<seq<FileInfo>, Reason>,
    fetched: PromiseState<seq<Byte>, Reason>,
    refetched: PromiseState<seq<Byte>, Reason>,
    write: Status)

  function Answers(ftp: Option<Session>, remote: Remote): Settled {
    Settled(ListOutcome(ftp, remote.listing), FetchOutcome(ftp, remote.fetch),
            FetchOutcome(ftp, remote.refetch), remote.write)
  }

  /** `effects` happen first, then the run `rest`. */
  function Then<R>(effects: seq<Effect>, rest: Run<R>): Run<R> {
    Run(effects + rest.effects, rest.result)
  }

  /** The `try` block of `main`: what it does and how it ends. */
  function TryBlock(config: Config, remote: Remote): Run<BodyEnd> {
    if remote.init.Failed? then Run([Init(config)], Threw(Library(remote.init.err)))
    else Then([Init(config), Log(InitOk)], ListStage(Answers(Some(Session(config)), remote)))
  }

  /** From the listing on; the handle is set. */
  function ListStage(a: Settled): Run<BodyEnd> {
    match a.listed
    case Pending => Run([Ls], Suspended)
    case Rejected(r) => Run([Ls], Threw(r))
    case Fulfilled(fileList) => Then([Ls, Log(ListOk)], CheckStage(fileList, a))
  }

  /** From the presence check on. */
  function CheckStage(fileList: seq<FileInfo>, a: Settled): Run<BodyEnd> {
    if !Listed(fileList, TARGET_FILE) then Run([], Threw(ErrorObject(NOT_FOUND_MESSAGE)))
    else Then([Log(CheckOk)], FetchStage(a))
  }

  /** From the first retrieve of the target on. */
  function FetchStage(a: Settled): Run<BodyEnd> {
    match a.fetched
    case Pending => Run([Get(TARGET_FILE)], Suspended)
    case Rejected(r) => Run([Get(TARGET_FILE)], Threw(r))
    case Fulfilled(version) =>
      Then([Get(TARGET_FILE), Log(FetchOk), Log(Version(version))], SaveStage(a))
  }

  /** The save step, the last of the `try` block. */
  function SaveStage(a: Settled): Run<BodyEnd> {
    var issued := [Get(TARGET_FILE)] + (if a.refetched.Fulfilled? then [WriteFile(TARGET_FILE, a.refetched.value)] else []);
    match SaveOutcome(a.refetched, a.write)
    case Pending => Run(issued, Suspended)
    case Rejected(r) => Run(issued, Threw(r))
    case Fulfilled(_) => Run(issued, Normal)
  }

  /** All of `main`: the `try` block, then the `catch` block or the `finally` block. */
  function Orchestrate(config: Config, remote: Remote): Run<End> {
    var body := TryBlock(config, remote);
    match body.result
    case Suspended => Run(body.effects, Stalled)
    case Threw(ex) => Run(body.effects + [ErrorLog(ex), Exit(0)], Exited(0))
    case Normal => Run(body.effects + [Destroy], Completed)
  }

  /** The state of the script: the module-level handle and what has happened so far. */
  class App {
    var ftp: Option<Session>
    var effects: seq<Effect>

    /** The script as loaded: `ftp` is declared but unset. */
    constructor ()
      ensures ftp == None && effects == []
    {
      ftp := None;
      effects := [];
    }

    /** initFtpClient: build the client and store it in the module-level handle. */
    method InitFtpClient(config: Config, init: Status) returns (thrown: Option<Reason>)
      modifies this
      ensures effects == old(effects) + [Init(config)]
      ensures init.Done? ==> ftp == Some(Session(config)) && thrown == None
      ensures init.Failed? ==> ftp == old(ftp) && thrown == Some(Library(init.err))
    {
      effects := effects + [Init(config)];
      if init.Failed? {
        return Some(Library(init.err));
      }
      ftp := Some(Session(config));
      thrown := None;
    }

    /**
     * getFtpFileList. With no handle the executor rejects and then throws on
     * `ftp.ls`, which the promise turns into a second, ignored rejection; `ls` is
     * never issued. Otherwise the callback rejects on an error and then always
     * resolves, and only its first call counts.
     */
    method GetFtpFileList(reply: LsReply) returns (outcome: PromiseState<seq<FileInfo>, Reason>, issued: seq<Effect>)
      ensures outcome == ListOutcome(ftp, reply)
      ensures issued == if ftp.Some? then [Ls] else []
    {
      var p := new Promise<seq<FileInfo>, Reason>();
      if ftp.None? {
        p.Reject(Message(NULL_HANDLE_MESSAGE));
        p.Reject(NullDereference);
        issued := [];
      } else {
        issued := [Ls];
        if reply.err.Some? {
          p.Reject(Library(reply.err.value));
        }
        p.Resolve(reply.res);
      }
      FirstCallWins(p.calls);
      outcome := p.state;
    }

    /**
     * getFtpFileToMemory. The null guard is the one of getFtpFileList. After a
     * successful `get`, the buffer starts empty and each event runs its handler:
     * `data` appends the chunk, `close` rejects on an error and then resolves with
     * the buffer.
     */
    method GetFtpFileToMemory(filename: string, reply: GetReply)
      returns (outcome: PromiseState<seq<Byte>, Reason>, issued: seq<Effect>)
      ensures outcome == FetchOutcome(ftp, reply)
      ensures issued == if ftp.Some? then [Get(filename)] else []
    {
      var p := new Promise<seq<Byte>, Reason>();
      if ftp.None? {
        p.Reject(Message(NULL_HANDLE_MESSAGE));
        p.Reject(NullDereference);
        FirstCallWins(p.calls);
        return p.state, [];
      }
      issued := [Get(filename)];
      match reply {
        case GetFailed(err) =>
          p.Reject(Library(err));
        case Retrieved(events) =>
          var res: seq<Byte> := [];
          var i := 0;
          while i < |events|
            invariant i <= |events|
            invariant p.Valid()
            invariant res == Payload(events[..i])
            invariant p.state == StreamOutcome(events[..i])
          {
            var e := events[i];
            assert events[..i + 1] == events[..i] + [e];
            StreamStep(events[..i], e);
            PayloadAppend(events[..i], [e]);
            assert Payload([e]) == (if e.Data? then e.chunk else []) by {
              assert [e][..0] == [];
            }
            match e {
              case Data(chunk) =>
                res := res + chunk;
              case Close(err) =>
                if err.Some? {
                  p.Reject(Library(err.value));
                }
                p.Resolve(res);
            }
            i := i + 1;
          }
          assert events[..|events|] == events;
      }
      outcome := p.state;
    }

    /** saveFtpFileToLocal: retrieve the file a second time, then write it under the same name. */
    method SaveFtpFileToLocal(filename: string, reply: GetReply, write: Status)
      returns (outcome: PromiseState<(), Reason>, issued: seq<Effect>)
      ensures outcome == SaveOutcome(FetchOutcome(ftp, reply), write)
      ensures issued == SaveCalls(ftp, filename, FetchOutcome(ftp, reply))
    {
      var fetched;
      fetched, issued := GetFtpFileToMemory(filename, reply);
      match fetched {
        case Pending =>
          outcome := Pending;
        case Rejected(r) =>
          outcome := Rejected(r);
        case Fulfilled(res) =>
          issued := issued + [WriteFile(filename, res)];
          outcome := if write.Done? then Fulfilled(()) else Rejected(Library(write.err));
      }
    }

    /**
     * The `try` block of `main`. Each `await` resumes the rest of the block once
     * its promise settles; each such rest is a method of its own below. A
     * `return` is where control leaves the block.
     */
    method RunTryBlock(config: Config, remote: Remote) returns (body: BodyEnd)
      modifies this
      ensures effects == old(effects) + TryBlock(config, remote).effects
      ensures body == TryBlock(config, remote).result
      ensures ftp == if remote.init.Done? then Some(Session(config)) else old(ftp)
    {
      var thrown := InitFtpClient(config, remote.init);
      if thrown.Some? {
        return Threw(thrown.value);
      }
      effects := effects + [Log(InitOk)];
      ghost var done := effects;
      body := RunListStage(remote);
      assert effects == done + ListStage(Answers(ftp, remote)).effects;
    }

    /** From `await getFtpFileList()` on. */
    method RunListStage(remote: Remote) returns (body: BodyEnd)
      requires ftp.Some?
      modifies this
      ensures effects == old(effects) + ListStage(Answers(ftp, remote)).effects
      ensures body == ListStage(Answers(ftp, remote)).result
      ensures ftp == old(ftp)
    {
      var listed, issued := GetFtpFileList(remote.listing);
      effects := effects + issued;
      if !listed.Fulfilled? {
        return Threw(listed.reason);
      }
      var fileList := listed.value;
      effects := effects + [Log(ListOk)];
      ghost var done := effects;
      body := RunCheckStage(fileList, remote);
      assert effects == done + CheckStage(fileList, Answers(ftp, remote)).effects;
    }

    /** The presence check, and from `await getFtpFileToMemory(targetFile)` on. */
    method RunCheckStage(fileList: seq<FileInfo>, remote: Remote) returns (body: BodyEnd)
      requires ftp.Some?
      modifies this
      ensures effects == old(effects) + CheckStage(fileList, Answers(ftp, remote)).effects
      ensures body == CheckStage(fileList, Answers(ftp, remote)).result
      ensures ftp == old(ftp)
    {
      var found, _ := FindTarget(fileList);
      if !found {
        return Threw(ErrorObject(NOT_FOUND_MESSAGE));
      }
      effects := effects + [Log(CheckOk)];

      var fetched, issued := GetFtpFileToMemory(TARGET_FILE, remote.fetch);
      effects := effects + issued;
      if !fetched.Fulfilled? {
        return if fetched.Pending? then Suspended else Threw(fetched.reason);
      }
      effects := effects + [Log(FetchOk), Log(Version(fetched.value))];
      ghost var done := effects;
      body := RunSaveStage(remote);
      assert effects == done + SaveStage(Answers(ftp, remote)).effects;
    }

    /** From `await saveFtpFileToLocal(targetFile)` to the end of the block. */
    method RunSaveStage(remote: Remote) returns (body: BodyEnd)
      requires ftp.Some?
      modifies this
      ensures effects == old(effects) + SaveStage(Answers(ftp, remote)).effects
      ensures body == SaveStage(Answers(ftp, remote)).result
      ensures ftp == old(ftp)
    {
      var saved, issued := SaveFtpFileToLocal(TARGET_FILE, remote.refetch, remote.write);
      effects := effects + issued;
      if !saved.Fulfilled? {
        return if saved.Pending? then Suspended else Threw(saved.reason);
      }
      body := Normal;
    }

    /**
     * main. A thrown error is logged and ends the process with status 0 at once,
     * so the `finally` block only runs after a `try` block that completed; there
     * the handle is always set, and it is destroyed.
     */
    method RunMain(config: Config, remote: Remote) returns (end: End)
      modifies this
      ensures effects == old(effects) + Orchestrate(config, remote).effects
      ensures end == Orchestrate(config, remote).result
      ensures ftp == if remote.init.Done? then Some(Session(config)) else old(ftp)
    {
      var body := RunTryBlock(config, remote);
      if body.Suspended? {
        return Stalled;
      }
      if body.Threw? {
        effects := effects + [ErrorLog(body.ex), Exit(0)];
        return Exited(0);
      }
      if ftp.Some? {
        effects := effects + [Destroy];
      }
      end := Completed;
    }
  }
}
