/**
 Downloading into a directory of models: bytes go to a temporary file that replaces
 the model in one rename. First one transfer on its own, with its fallback; then any
 number of attempts, of any files and processes, interleaved at every system call.
 */
module DownloadProtocol {
  import opened Wrappers
  import opened DownloadNames

  type Bytes = seq<int>

  // ---- One transfer -----------------------------------------------------------

  datatype DlError = BadRequest(error: NameError) | FileWrite | FetchFailed(code: nat) | Exhausted(primary: DlError, fallback: DlError)

  /** Where an attempt failed: in the downloader itself, or in its byte source. */
  datatype AttemptError = Local(error: DlError) | Fetcher(error: DlError)

  datatype FetchEnd = Complete | Broke(error: DlError) | Dropped

  /** A chunk from the byte source, and how much of it the disk takes: all, or less and an error. */
  datatype Chunk = Chunk(bytes: Bytes, taken: nat)

  /** What the world does to one attempt. */
  datatype Script = Script(dirOk: bool, createOk: bool, chunks: seq<Chunk>, end: FetchEnd, syncOk: bool, renameOk: bool)

  function Fetched(chunks: seq<Chunk>): Bytes {
    if chunks == [] then [] else Fetched(chunks[..|chunks| - 1]) + chunks[|chunks| - 1].bytes
  }

  predicate AllTaken(chunks: seq<Chunk>) {
    forall i :: 0 <= i < |chunks| ==> chunks[i].taken >= |chunks[i].bytes|
  }

  /** The attempt got as far as asking the byte source. */
  predicate Fetches(target: Result<string, NameError>, s: Script) {
    target.Ok? && s.dirOk && s.createOk
  }

  predicate Succeeds(target: Result<string, NameError>, s: Script) {
    Fetches(target, s) && s.end.Complete? && AllTaken(s.chunks) && s.syncOk && s.renameOk
  }

  class Disk {
    var files: map<string, Bytes>
    var nextTemp: nat
    const pid: nat

    constructor (process: nat, present: map<string, Bytes>)
      ensures files == present && nextTemp == 0 && pid == process
    {
      pid, files, nextTemp := process, present, 0;
    }

    /** Removes a file if it is there. */
    method Unlink(name: string)
      modifies this`files
      ensures files == old(files) - {name}
    {
      files := files - {name};
    }

    /**
     One attempt; `None` is one whose future was dropped while it fetched. A failure of the byte source is passed on
     as its own, whatever the disk did; every failure of the disk, a refused write, sync or rename included, is local.
     Only success touches the model, and then it holds all fetched bytes; the temporary file is gone on every way out.
     */
    method DownloadAttempt(repo: string, file: string, revision: string, s: Script) returns (r: Option<Result<(), AttemptError>>)
      modifies this
      ensures r == None <==> Fetches(Target(repo, file, revision), s) && s.end.Dropped?
      ensures r == Some(Ok(())) <==> Succeeds(Target(repo, file, revision), s)
      ensures forall e :: r == Some(Err(Fetcher(e))) <==> Fetches(Target(repo, file, revision), s) && s.end == Broke(e)
      ensures forall e :: r == Some(Err(Local(e))) <==>
        if Target(repo, file, revision).Err? then e == BadRequest(Target(repo, file, revision).error)
        else
          && e == FileWrite
          && (!s.dirOk || !s.createOk || (s.end.Complete? && !(AllTaken(s.chunks) && s.syncOk && s.renameOk)))
      ensures Target(repo, file, revision).Err? || !s.dirOk ==> files == old(files) && nextTemp == old(nextTemp)
      ensures Target(repo, file, revision).Ok? && s.dirOk ==> nextTemp == old(nextTemp) + 1
      ensures r == Some(Ok(())) ==>
        files == old(files)[file := Fetched(s.chunks)] - {TempName(file, pid, old(nextTemp))}
      ensures r != Some(Ok(())) ==> files == old(files) - {TempName(file, pid, old(nextTemp))} || files == old(files)
      ensures r != Some(Ok(())) && s.dirOk && Target(repo, file, revision).Ok? ==> TempName(file, pid, old(nextTemp)) !in files
    {
      hide Target, DestPath, TempName;
      var dest := Target(repo, file, revision);
      if dest.Err? {
        return Some(Err(Local(BadRequest(dest.error))));
      }
      if !s.dirOk {
        return Some(Err(Local(FileWrite)));
      }
      var tmp := TempName(file, pid, nextTemp);
      ghost var before := files;
      TempIsNoModel(repo, file, pid, nextTemp);
      AcceptedHasPath(repo, file, revision);
      nextTemp := nextTemp + 1;
      if !s.createOk {
        Unlink(tmp);  // the guard, on every early way out
        return Some(Err(Local(FileWrite)));
      }
      files := files[tmp := []];
      var writeErr := false;
      for i := 0 to |s.chunks|
        invariant nextTemp == old(nextTemp) + 1
        invariant tmp in files && files - {tmp} == before - {tmp}
        invariant writeErr <==> !AllTaken(s.chunks[..i])
        invariant !writeErr ==> files[tmp] == Fetched(s.chunks[..i])
      {
        var c := s.chunks[i];
        assert s.chunks[..i + 1][..i] == s.chunks[..i];
        if !writeErr {
          if c.taken >= |c.bytes| {
            files := files[tmp := files[tmp] + c.bytes];
          } else {
            files := files[tmp := files[tmp] + c.bytes[..c.taken]];
            writeErr := true;
            assert s.chunks[..i + 1][i] == c;
          }
        }
      }
      assert s.chunks[..|s.chunks|] == s.chunks;
      match s.end {
        case Dropped =>
          Unlink(tmp);
          return None;
        case Broke(e) =>
          Unlink(tmp);
          return Some(Err(Fetcher(e)));
        case Complete =>
          if writeErr || !s.syncOk || !s.renameOk {
            Unlink(tmp);
            return Some(Err(Local(FileWrite)));
          }
          files := (files - {tmp})[file := files[tmp]];
          return Some(Ok(()));
      }
    }

    /**
     A transfer with a fallback. The fallback runs only after the primary failed in its byte source,
     and only when both failed does the error name both; every other failure is passed on as it is.
     */
    method DownloadDual(repo: string, file: string, revision: string, primary: Script, fallback: Script)
      returns (r: Option<Result<(), DlError>>, ranFallback: bool)
      modifies this
      ensures ranFallback <==> Fetches(Target(repo, file, revision), primary) && primary.end.Broke?
      ensures r == None <==>
        if ranFallback then Fetches(Target(repo, file, revision), fallback) && fallback.end.Dropped?
        else Fetches(Target(repo, file, revision), primary) && primary.end.Dropped?
      ensures r == Some(Ok(())) <==>
        if ranFallback then Succeeds(Target(repo, file, revision), fallback) else Succeeds(Target(repo, file, revision), primary)
      ensures r.Some? && r.value.Err? ==>
        if ranFallback then
          r.value.error == Exhausted(primary.end.error,
            if fallback.dirOk && fallback.createOk && fallback.end.Broke? then fallback.end.error else FileWrite)
        else if Target(repo, file, revision).Err? then r.value.error == BadRequest(Target(repo, file, revision).error)
        else r.value.error == FileWrite
      ensures r == Some(Ok(())) ==> file in files && files[file] == Fetched(if ranFallback then fallback.chunks else primary.chunks)
      ensures r != Some(Ok(())) ==> (file in files <==> file in old(files)) && (file in files ==> files[file] == old(files)[file])
    {
      hide Target, DestPath, TempName, Fetched, AllTaken;
      ranFallback := false;
      AcceptedHasPath(repo, file, revision);
      ModelIsNoTemp(repo, file, pid);
      var first := DownloadAttempt(repo, file, revision, primary);
      match first {
        case None => return None, ranFallback;
        case Some(Ok(unit)) =>
          assert unit == ();
          return Some(Ok(())), ranFallback;
        case Some(Err(Local(e))) => return Some(Err(e)), ranFallback;
        case Some(Err(Fetcher(primaryErr))) =>
          ranFallback := true;
          var second := DownloadAttempt(repo, file, revision, fallback);
          match second {
            case None => return None, ranFallback;
            case Some(Ok(unit)) =>
              assert unit == ();
              return Some(Ok(())), ranFallback;
            case Some(Err(e)) => return Some(Err(Exhausted(primaryErr, e.error))), ranFallback;
          }
      }
    }
  }

  lemma AcceptedHasPath(repo: string, file: string, revision: string)
    ensures Target(repo, file, revision).Ok? ==> DestPath(repo, file).Ok?
  {
  }

  lemma TempIsNoModel(repo: string, file: string, pid: nat, n: nat)
    ensures DestPath(repo, TempName(file, pid, n)).Err?
    ensures DestPath(repo, file).Ok? ==> TempName(file, pid, n) != file
  {
    MatchesOwnTempsOnly(file, pid, file, pid, n, repo, TempName(file, pid, n));
  }

  lemma ModelIsNoTemp(repo: string, file: string, pid: nat)
    ensures DestPath(repo, file).Ok? ==> forall n :: TempName(file, pid, n) != file
  {
    forall n: nat {
      TempIsNoModel(repo, file, pid, n);
    }
  }
}
