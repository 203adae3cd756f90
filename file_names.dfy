/** getFileName: the display name the content resolver reports for a
    "content" URI, or else the last segment of the URI's path. */
module FileNames {
  import opened Optional

  /** String.lastIndexOf(char): the last position of `c` in `s`, or -1. */
  function LastIndexOf(s: string, c: char): (r: int)
    ensures -1 <= r < |s|
    ensures r == -1 <==> c !in s
    ensures r >= 0 ==> s[r] == c && c !in s[r + 1..]
  {
    if |s| == 0 then -1
    else if s[|s| - 1] == c then |s| - 1
    else
      var r := LastIndexOf(s[..|s| - 1], c);
      assert s == s[..|s| - 1] + [s[|s| - 1]];
      r
  }

  /** The fallback: cut the path after its last '/', or keep it whole when it
      has none. The result is the longest suffix of the path free of '/'. */
  function LastPathSegment(path: string): (name: string)
    ensures '/' !in name
    ensures |name| <= |path| && name == path[|path| - |name|..]
    ensures |name| < |path| ==> path[|path| - |name| - 1] == '/'
  {
    var cut := LastIndexOf(path, '/');
    if cut != -1 then path[cut + 1..] else path
  }

  /** Those three properties pin the segment down: any suffix of the path that
      has no '/' and is preceded by one (or is the whole path) is the one cut. */
  lemma LastPathSegmentUnique(path: string, name: string)
    requires '/' !in name
    requires |name| <= |path| && name == path[|path| - |name|..]
    requires |name| < |path| ==> path[|path| - |name| - 1] == '/'
    ensures name == LastPathSegment(path)
  {
  }

  /** getFileName(uri), with the content query's outcome as `displayName`: the
      DISPLAY_NAME column of its first row, None when the query returns no
      cursor, no row, no such column or a null value. The query is made only
      for the "content" scheme. A name that did not come from the query never
      contains '/'; otherwise the name is the text after the path's last '/',
      or the whole path when it has none. */
  function GetFileName(scheme: string, displayName: Option<string>, path: string): (name: string)
    ensures scheme == "content" && displayName.Some? ==> name == displayName.value
    ensures '/' !in name || (scheme == "content" && displayName == Some(name))
    ensures !(scheme == "content" && displayName.Some?) ==>
      && |name| <= |path| && name == path[|path| - |name|..]
      && (|name| < |path| ==> path[|path| - |name| - 1] == '/')
      && ('/' in path ==> name == path[LastIndexOf(path, '/') + 1..])
      && ('/' !in path ==> name == path)
      && name == LastPathSegment(path)
  {
    if scheme == "content" && displayName.Some? then displayName.value
    else LastPathSegment(path)
  }
}
