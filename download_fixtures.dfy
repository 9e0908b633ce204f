/**
 * The folder trees of the sharing app's download tests, and what the two listeners
 * decide for them. The logged-in user is "test"; the user folder returns the same
 * node for every path.
 */
module DownloadFixtures {
  import opened Options
  import opened ViewOnly
  import opened DownloadListeners

  /** A share received with permissions/download = false. */
  const SecureShare: Storage := Shared(false)

  /** Two plain files in a plain folder, under a plain root. */
  const Sender1Root: Node := Folder(NonShared, [Folder(NonShared, [File(NonShared), File(NonShared)])])
  /** A plain file and a secure-shared file in a plain folder. */
  const Receiver1Root: Node := Folder(NonShared, [Folder(NonShared, [File(NonShared), File(SecureShare)])])
  /** A secure-shared folder (empty listing) under a plain root. */
  const Receiver2Root: Node := Folder(NonShared, [Folder(SecureShare, [])])

  /** A user folder whose get returns `n` for every path, as the test's mocks do. */
  function Returning(n: Node): UserFolders
  {
    (uid: string) => (path: string) => n
  }

  lemma FixtureTrees()
    ensures CanDownload(Sender1Root)
    ensures !CanDownload(Receiver1Root) && !CanDownload(Receiver2Root)
  {
    var plain := Folder(NonShared, [File(NonShared), File(NonShared)]);
    assert plain.listing[0] == File(NonShared) && plain.listing[1] == File(NonShared);
    assert CanDownload(plain);
    assert Sender1Root.listing[0] == plain;
    var mixed := Folder(NonShared, [File(NonShared), File(SecureShare)]);
    assert !CanDownload(mixed.listing[1]);
    assert Receiver1Root.listing[0] == mixed;
    assert Receiver2Root.listing[0] == Folder(SecureShare, []);
  }

  /** Runs the zip listener on a fresh event and reports the event's outcome. */
  method Zip(user: Option<string>, root: Node, dir: string, files: seq<string>)
    returns (successful: bool, errorMessage: Option<string>)
    ensures successful == Permitted(user, Returning(root), ZipPaths(dir, files))
    ensures successful <==> errorMessage == None
  {
    var event := new BeforeZipCreatedEvent(dir, files);
    var listener := new BeforeZipCreatedListener(user, Returning(root));
    listener.Handle(event);
    successful, errorMessage := event.successful, event.errorMessage;
  }

  /** Runs the direct-download listener on a fresh event and reports whether it stays successful. */
  method Direct(user: Option<string>, node: Node, path: string) returns (successful: bool)
    ensures successful == Permitted(user, Returning(node), [path])
  {
    var event := new BeforeDirectFileDownloadEvent(path);
    var listener := new BeforeDirectFileDownloadListener(user, Returning(node));
    listener.Handle(event);
    successful := event.successful;
  }

  /** The zip cases: both plain requests pass, both involving a secure share are refused. */
  method ZipCases() returns (outcomes: seq<bool>)
    ensures outcomes == [true, true, false, false]
  {
    FixtureTrees();
    var a, _ := Zip(Some("test"), Sender1Root, "/folder", ["bar1.txt", "bar2.txt"]);
    var b, _ := Zip(Some("test"), Sender1Root, "/", ["folder"]);
    var c, _ := Zip(Some("test"), Receiver1Root, "/folder", ["secured-bar1.txt", "bar2.txt"]);
    var d, _ := Zip(Some("test"), Receiver2Root, "/", ["secured-folder"]);
    outcomes := [a, b, c, d];
  }

  /** Without a logged-in user the zip passes and no error message is set. */
  method ZipWithoutUser() returns (successful: bool, errorMessage: Option<string>)
    ensures successful && errorMessage == None
  {
    successful, errorMessage := Zip(None, Receiver2Root, "/test", ["test.txt"]);
  }

  /** The direct-download cases: own file and a share allowing download pass, a secure share is refused. */
  method DirectCases() returns (outcomes: seq<bool>)
    ensures outcomes == [true, true, false]
  {
    var a := Direct(Some("test"), File(NonShared), "/bar.txt");
    var b := Direct(Some("test"), File(Shared(true)), "/share-bar.txt");
    var c := Direct(Some("test"), File(SecureShare), "/secure-share-bar.txt");
    outcomes := [a, b, c];
  }
}
