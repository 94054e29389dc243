/**
 * The weight path `archive_selected` copies into the archive: the
 * descriptor's session name without its last `/`-separated segment
 * (process.py, line 136). The copying and compression are not modelled.
 */
module Archive {
  import opened Python

  /** `"/".join(name.split("/")[:-1])`. */
  function WeightPath(sessionName: string): (path: string)
  {
    var parts := Split(sessionName);
    Join(parts[..|parts| - 1])
  }

  /** Without a separator the weight path is empty; otherwise it is the prefix
      of the session name before its last separator. */
  lemma WeightPathDropsLastSegment(sessionName: string)
    ensures '/' !in sessionName ==> WeightPath(sessionName) == ""
    ensures '/' in sessionName ==>
      var p := WeightPath(sessionName);
      |p| < |sessionName| && sessionName[..|p|] == p && sessionName[|p|] == '/'
      && '/' !in sessionName[|p| + 1..]
  {
    var parts := Split(sessionName);
    SplitSingle(sessionName);
    if '/' in sessionName {
      var init, last := parts[..|parts| - 1], parts[|parts| - 1];
      assert parts == init + [last];
      JoinSnoc(init, last);
      JoinSplit(sessionName);
      var p := Join(init);
      assert sessionName == p + "/" + last;
      assert sessionName[|p| + 1..] == last;
    }
  }

  /** The weight path is always a prefix of the session name. */
  lemma WeightPathIsPrefix(sessionName: string)
    ensures |WeightPath(sessionName)| <= |sessionName|
    ensures sessionName[..|WeightPath(sessionName)|] == WeightPath(sessionName)
  {
    WeightPathDropsLastSegment(sessionName);
  }
}
