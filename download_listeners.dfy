/**
 * The two listeners of the sharing app that guard downloads: before a single file
 * is streamed (BeforeDirectFileDownloadEvent) and before a zip of several entries
 * is built (BeforeZipCreatedEvent). Each marks its event unsuccessful, with an error
 * message, when the logged-in user asks for something held on a share that denies
 * download. Without a logged-in user the request passes: public share links are
 * guarded elsewhere.
 */
module DownloadListeners {
  import opened Options
  import opened ViewOnly

  /** The message a refused request carries (its wording is not fixed here). */
  const DeniedMessage: string := "Access to this resource or one of its sub-items has been denied."

  /** getUserFolder(uid) followed by get(path): the node at a path of a user's folder. */
  type UserFolders = string -> string -> Node

  /** The outcome fields shared by both events. */
  predicate Outcome(successful: bool, errorMessage: Option<string>)
  {
    successful <==> errorMessage.None?
  }

  /** Dispatched before a zip of `files`, entries of `directory`, is created. */
  class BeforeZipCreatedEvent {
    const directory: string
    const files: seq<string>
    var successful: bool
    var errorMessage: Option<string>

    constructor (directory: string, files: seq<string>)
      ensures this.directory == directory && this.files == files
      ensures successful && errorMessage == None
    {
      this.directory := directory;
      this.files := files;
      successful := true;
      errorMessage := None;
    }

    method SetSuccessful(successful: bool)
      modifies this
      ensures this.successful == successful && errorMessage == old(errorMessage)
    {
      this.successful := successful;
    }

    method SetErrorMessage(message: string)
      modifies this
      ensures errorMessage == Some(message) && successful == old(successful)
    {
      errorMessage := Some(message);
    }
  }

  /** Dispatched before the file at `path` is downloaded directly. */
  class BeforeDirectFileDownloadEvent {
    const path: string
    var successful: bool
    var errorMessage: Option<string>

    constructor (path: string)
      ensures this.path == path
      ensures successful && errorMessage == None
    {
      this.path := path;
      successful := true;
      errorMessage := None;
    }

    method SetSuccessful(successful: bool)
      modifies this
      ensures this.successful == successful && errorMessage == old(errorMessage)
    {
      this.successful := successful;
    }

    method SetErrorMessage(message: string)
      modifies this
      ensures errorMessage == Some(message) && successful == old(successful)
    {
      errorMessage := Some(message);
    }
  }

  /** Whether a request for `paths` passes: always without a user, else when the user's folder allows every path. */
  predicate Permitted(user: Option<string>, folders: UserFolders, paths: seq<string>)
  {
    user.None? || CheckPaths(folders(user.value), paths)
  }

  lemma NoUserAlwaysPermitted(folders: UserFolders, paths: seq<string>)
    ensures Permitted(None, folders, paths)
  {
  }

  /** A zip with a logged-in user passes exactly when every entry's whole subtree is free of download-denying shares. */
  lemma ZipPermittedIffNoSecureNode(user: string, folders: UserFolders, dir: string, files: seq<string>)
    ensures Permitted(Some(user), folders, ZipPaths(dir, files)) <==>
      forall i, m :: 0 <= i < |files| && m in Subtree(folders(user)(ZipPath(dir, files[i]))) ==> StorageAllows(m.storage)
  {
    var paths := ZipPaths(dir, files);
    assert |paths| == |files| && forall i :: 0 <= i < |files| ==> paths[i] == ZipPath(dir, files[i]);
    forall i | 0 <= i < |files| {
      CanDownloadIffWholeSubtree(folders(user)(ZipPath(dir, files[i])));
    }
  }

  /** The listener for zip downloads, with the session's user (if any) and the root folder. */
  class BeforeZipCreatedListener {
    const user: Option<string>
    const folders: UserFolders

    constructor (user: Option<string>, folders: UserFolders)
      ensures this.user == user && this.folders == folders
    {
      this.user := user;
      this.folders := folders;
    }

    /**
     * handle: checks "<directory>/<file>" for every listed file; a refusal sets the
     * error message and clears successful, a pass sets successful.
     */
    method Handle(event: BeforeZipCreatedEvent)
      modifies event
      ensures event.successful == Permitted(user, folders, ZipPaths(event.directory, event.files))
      ensures event.errorMessage ==
        if event.successful then old(event.errorMessage) else Some(DeniedMessage)
      ensures old(event.errorMessage) == None ==> Outcome(event.successful, event.errorMessage)
    {
      var paths := ZipPaths(event.directory, event.files);
      if user.Some? {
        if !CheckPaths(folders(user.value), paths) {
          event.SetErrorMessage(DeniedMessage);
          event.SetSuccessful(false);
        } else {
          event.SetSuccessful(true);
        }
      } else {
        event.SetSuccessful(true);
      }
    }
  }

  /** The listener for direct downloads, with the session's user (if any) and the root folder. */
  class BeforeDirectFileDownloadListener {
    const user: Option<string>
    const folders: UserFolders

    constructor (user: Option<string>, folders: UserFolders)
      ensures this.user == user && this.folders == folders
    {
      this.user := user;
      this.folders := folders;
    }

    /** handle: checks the one path; a refusal sets the error message and clears successful, a pass sets successful. */
    method Handle(event: BeforeDirectFileDownloadEvent)
      modifies event
      ensures event.successful == Permitted(user, folders, [event.path])
      ensures event.errorMessage ==
        if event.successful then old(event.errorMessage) else Some(DeniedMessage)
      ensures old(event.errorMessage) == None ==> Outcome(event.successful, event.errorMessage)
    {
      if user.Some? && !CheckPaths(folders(user.value), [event.path]) {
        event.SetErrorMessage(DeniedMessage);
        event.SetSuccessful(false);
      } else {
        event.SetSuccessful(true);
      }
    }
  }
}
