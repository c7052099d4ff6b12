/**
 * The outside world the helpers talk to: the Actions log (`core.info`,
 * `core.setFailed`), the download cache (`toolCache.downloadTool`) and the
 * process runner (`execa`). Each call is recorded as one `Action` in the
 * order it is made; the file a download produces is an abstract `Handle`.
 */
module Effects {
  /** A downloaded file in the tool cache, known only by identity. */
  datatype Handle = Handle(id: nat)

  datatype Action =
    | Info(message: string)
    | Fail(message: string)
    | Download(url: string, file: Handle)
    | Chmod755(file: Handle)
    | Move(file: Handle, dest: string)
    | Exec(command: string, args: seq<string>, env: map<string, string>)

  /** Actions that touch the network or the file system. */
  predicate IsInstallStep(a: Action) {
    a.Download? || a.Chmod755? || a.Move?
  }

  /** The host as seen by the helpers: the calls made so far. */
  class Host {
    var trace: seq<Action>
    /** Number of downloads so far; the next download yields `Handle(downloads)`. */
    var downloads: nat

    constructor ()
      ensures trace == [] && downloads == 0
    {
      trace := [];
      downloads := 0;
    }

    /** `core.info(message)`. */
    method LogInfo(message: string)
      modifies this
      ensures trace == old(trace) + [Info(message)] && downloads == old(downloads)
    {
      trace := trace + [Info(message)];
    }

    /** `core.setFailed(message)`. */
    method SetFailed(message: string)
      modifies this
      ensures trace == old(trace) + [Fail(message)] && downloads == old(downloads)
    {
      trace := trace + [Fail(message)];
    }

    /** `toolCache.downloadTool(url)`: each download yields a new handle. */
    method DownloadTool(url: string) returns (file: Handle)
      modifies this
      ensures file == Handle(old(downloads)) && downloads == old(downloads) + 1
      ensures trace == old(trace) + [Download(url, file)]
    {
      file := Handle(downloads);
      downloads := downloads + 1;
      trace := trace + [Download(url, file)];
    }

    /** `execa('sudo', ['-E', 'chmod', '755', file])`. */
    method MakeExecutable(file: Handle)
      modifies this
      ensures trace == old(trace) + [Chmod755(file)] && downloads == old(downloads)
    {
      trace := trace + [Chmod755(file)];
    }

    /** `execa('sudo', ['-E', 'mv', file, dest])`. */
    method MoveFile(file: Handle, dest: string)
      modifies this
      ensures trace == old(trace) + [Move(file, dest)] && downloads == old(downloads)
    {
      trace := trace + [Move(file, dest)];
    }

    /** `execa(command, args, { env })`. */
    method Launch(command: string, args: seq<string>, env: map<string, string>)
      modifies this
      ensures trace == old(trace) + [Exec(command, args, env)] && downloads == old(downloads)
    {
      trace := trace + [Exec(command, args, env)];
    }
  }
}
