/**
 * The secure-view ("view only") download check of shared files: a node may be
 * downloaded unless it, or anything below it, lies on shared storage whose share
 * attribute permissions/download is false.
 */
module ViewOnly {

  /** Where a node is stored: the user's own storage, or a share received from someone else. */
  datatype Storage = NonShared | Shared(downloadAllowed: bool)

  /** A node of a user's folder tree: a file, or a folder with its directory listing. */
  datatype Node = File(storage: Storage) | Folder(storage: Storage, listing: seq<Node>)

  /** The check on one node's own storage: only a share that denies download blocks. */
  predicate StorageAllows(s: Storage)
  {
    !s.Shared? || s.downloadAllowed
  }

  /** A node can be downloaded when its own storage allows it and, for a folder, every entry of its listing can. */
  predicate CanDownload(n: Node)
  {
    StorageAllows(n.storage) &&
    (n.Folder? ==> forall i :: 0 <= i < |n.listing| ==> CanDownload(n.listing[i]))
  }

  /** The concatenation of a sequence of sequences. */
  function Flatten(parts: seq<seq<Node>>): (all: seq<Node>)
    ensures forall m :: m in all <==> exists i :: 0 <= i < |parts| && m in parts[i]
  {
    if parts == [] then []
    else
      var rest := Flatten(parts[1..]);
      assert forall i :: 0 < i < |parts| ==> parts[i] == parts[1..][i - 1];
      parts[0] + rest
  }

  /** Every node of the subtree rooted at `n`, the root first, then each entry's subtree in listing order. */
  function Subtree(n: Node): (nodes: seq<Node>)
    ensures |nodes| > 0 && nodes[0] == n
    decreases n
  {
    match n
    case File(_) => [n]
    case Folder(_, listing) =>
      [n] + Flatten(seq(|listing|, i requires 0 <= i < |listing| => Subtree(listing[i])))
  }

  /** The recursive check asks exactly that no node of the subtree lies on a share denying download. */
  lemma {:induction false} CanDownloadIffWholeSubtree(n: Node)
    ensures CanDownload(n) <==> forall m :: m in Subtree(n) ==> StorageAllows(m.storage)
    decreases n
  {
    match n
    case File(_) =>
    case Folder(s, listing) =>
      var parts: seq<seq<Node>> := seq(|listing|, i requires 0 <= i < |listing| => Subtree(listing[i]));
      forall i | 0 <= i < |listing|
        ensures CanDownload(listing[i]) <==> forall m :: m in parts[i] ==> StorageAllows(m.storage)
      {
        CanDownloadIffWholeSubtree(listing[i]);
      }
      assert Subtree(n) == [n] + Flatten(parts);
      if CanDownload(n) {
        forall m | m in Subtree(n)
          ensures StorageAllows(m.storage)
        {
          if m != n {
            var i :| 0 <= i < |parts| && m in parts[i];
          }
        }
      }
      if forall m :: m in Subtree(n) ==> StorageAllows(m.storage) {
        forall i | 0 <= i < |listing|
          ensures CanDownload(listing[i])
        {
          forall m | m in parts[i]
            ensures StorageAllows(m.storage)
          {
            assert m in Flatten(parts);
          }
        }
      }
  }

  /** A single blocked node anywhere below a folder blocks the folder, whatever its siblings are. */
  lemma SecureDescendantBlocks(n: Node, m: Node)
    requires m in Subtree(n) && !StorageAllows(m.storage)
    ensures !CanDownload(n)
  {
    CanDownloadIffWholeSubtree(n);
  }

  /** A tree that touches no share at all can always be downloaded. */
  lemma {:induction false} NonSharedTreeAllowed(n: Node)
    requires forall m :: m in Subtree(n) ==> !m.storage.Shared?
    ensures CanDownload(n)
  {
    CanDownloadIffWholeSubtree(n);
  }

  /** The path of entry `file` of the zip request for directory `dir`. */
  function ZipPath(dir: string, file: string): string
  {
    dir + "/" + file
  }

  /** The paths a zip request for `files` of `dir` checks, in order. */
  function ZipPaths(dir: string, files: seq<string>): seq<string>
  {
    seq(|files|, i requires 0 <= i < |files| => ZipPath(dir, files[i]))
  }

  /**
   * The check over the paths of a request in the user's folder: the request is
   * refused at the first path whose node cannot be downloaded.
   */
  function CheckPaths(userFolder: string -> Node, paths: seq<string>): (ok: bool)
    ensures ok <==> forall i :: 0 <= i < |paths| ==> CanDownload(userFolder(paths[i]))
  {
    if paths == [] then true
    else if !CanDownload(userFolder(paths[0])) then false
    else
      var ok := CheckPaths(userFolder, paths[1..]);
      assert forall i :: 0 < i < |paths| ==> paths[i] == paths[1..][i - 1];
      ok
  }
}
