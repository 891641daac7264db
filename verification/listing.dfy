/** The remote directory listing and the presence check `main` runs over it. */
module Listing {

  /** One record of `ftp.ls('.')`, as the client reads it. */
  datatype FileInfo = FileInfo(name: string, kind: int, size: string, owner: string, group: string)

  /** The one file the client looks for, fetches and saves. */
  const TARGET_FILE: string := "version.txt"

  /** Some entry of `fileList` is named exactly `name`: same characters, same case, nothing more. */
  predicate Listed(fileList: seq<FileInfo>, name: string) {
    exists i :: 0 <= i < |fileList| && fileList[i].name == name
  }

  /**
   * The `for ... of` loop of `main`: skip entries whose name differs from the
   * target, set the flag and stop at the first that matches. `stop` is where the
   * scan ended: the first match, or the end of the listing.
   */
  method FindTarget(fileList: seq<FileInfo>) returns (found: bool, stop: nat)
    ensures found <==> Listed(fileList, TARGET_FILE)
    ensures found ==> stop < |fileList| && fileList[stop].name == TARGET_FILE
    ensures !found ==> stop == |fileList|
    ensures forall j :: 0 <= j < stop ==> fileList[j].name != TARGET_FILE
  {
    found := false;
    stop := 0;
    while stop < |fileList|
      invariant stop <= |fileList|
      invariant forall j :: 0 <= j < stop ==> fileList[j].name != TARGET_FILE
    {
      if fileList[stop].name != TARGET_FILE {
        stop := stop + 1;
        continue;
      }
      found := true;
      break;
    }
  }
}
